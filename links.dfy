/**
 * What the two page formatters share: a link is the attribute map of one
 * `<a>` element, the loop leaves some links alone, and an internal link is
 * recognised by a `/wiki/` prefix followed by a title drawn from a
 * character class.
 */
module Links {
  import opened Wrappers

  /**
   * An attribute value. The HTML parser only produces text; `ClickMessage`
   * stands for the `{"type": "click", "destination": ...}` message a
   * rewritten link posts to the game page.
   */
  datatype AttrValue = Text(text: string) | ClickMessage(destination: string)

  type Link = map<string, AttrValue>

  const WikiPrefix: string := "/wiki/"

  /** The text of the link's `href`, if it has one. */
  function Href(l: Link): Option<string>
  {
    if "href" in l && l["href"].Text? then Some(l["href"].text) else None
  }

  /** The loop does not touch a link without `href`, with an empty one, or with a fragment (`#...`). */
  predicate Skipped(l: Link)
  {
    Href(l).None? || Href(l).value == [] || Href(l).value[0] == '#'
  }

  /** No character of `t` is one of `excluded`. */
  predicate Avoids(t: string, excluded: set<char>)
  {
    forall i :: 0 <= i < |t| ==> t[i] !in excluded
  }

  /** The rest of `u` after the literal `lit`, matched one character at a time. */
  function StripPrefix(lit: string, u: string): (r: Option<string>)
    ensures r.Some? <==> |lit| <= |u| && u[..|lit|] == lit
    ensures r.Some? ==> lit + r.value == u
  {
    if lit == [] then
      assert lit + u == u;
      Some(u)
    else if u == [] || u[0] != lit[0] then None
    else
      var rest := StripPrefix(lit[1..], u[1..]);
      assert rest.Some? ==> lit + rest.value == [lit[0]] + (lit[1..] + rest.value);
      assert |lit| <= |u| ==> u[..|lit|] == [u[0]] + u[1..][..|lit| - 1];
      assert |lit| <= |u| ==> lit == [lit[0]] + lit[1..];
      rest
  }

  /** The character class `[^...]*` scanned over the whole of `t`. */
  function ClassStar(t: string, excluded: set<char>): (b: bool)
    ensures b <==> Avoids(t, excluded)
  {
    if t == [] then true
    else if t[0] in excluded then false
    else
      assert forall i :: 1 <= i < |t| ==> t[i] == t[1..][i - 1];
      ClassStar(t[1..], excluded)
  }

  /** `re.fullmatch(r"^/wiki/([^...]*)$", u)` and its group: the title after the prefix, if it avoids the class. */
  function MatchTitle(u: string, excluded: set<char>): Option<string>
  {
    match StripPrefix(WikiPrefix, u)
    case None => None
    case Some(rest) => if ClassStar(rest, excluded) then Some(rest) else None
  }

  /** The match succeeds with group `t` exactly when `u` is the prefix followed by `t` and `t` avoids the class. */
  lemma MatchTitleExact(u: string, excluded: set<char>, t: string)
    ensures MatchTitle(u, excluded) == Some(t) <==> u == WikiPrefix + t && Avoids(t, excluded)
  {
    if u == WikiPrefix + t {
      assert u[..|WikiPrefix|] == WikiPrefix;
      assert StripPrefix(WikiPrefix, u).value == t by {
        var r := StripPrefix(WikiPrefix, u).value;
        assert WikiPrefix + r == WikiPrefix + t;
        assert r == (WikiPrefix + r)[|WikiPrefix|..];
      }
    }
  }

  /** Round trip: a matched title, put back behind the prefix, gives the address it came from. */
  lemma MatchTitleRoundTrip(u: string, excluded: set<char>)
    ensures MatchTitle(u, excluded).Some? ==> WikiPrefix + MatchTitle(u, excluded).value == u
    ensures forall t :: Avoids(t, excluded) ==> MatchTitle(WikiPrefix + t, excluded) == Some(t)
  {
    forall t | Avoids(t, excluded) ensures MatchTitle(WikiPrefix + t, excluded) == Some(t) {
      MatchTitleExact(WikiPrefix + t, excluded, t);
    }
  }
}
