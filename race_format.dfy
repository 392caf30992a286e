/**
 * The older page formatter: internal links, whose titles may name another
 * namespace (`File:...`), keep their `href` and log the title when
 * followed; every other link that leads somewhere loses its `href`.
 */
module RaceFormat {
  import opened Wrappers
  import opened Links

  /** `filter_link`: the title of an internal link, whose title may hold ':' but not '/'. */
  function FilterLink(d: string): (r: Option<string>)
    ensures r.Some? ==> WikiPrefix + r.value == d && Avoids(r.value, {'/'})
  {
    MatchTitleRoundTrip(d, {'/'});
    MatchTitle(d, {'/'})
  }

  /** `filter_link(d)` is `t` exactly when `d` is `/wiki/` followed by `t` and `t` holds no '/'. */
  lemma FilterLinkExact(d: string, t: string)
    ensures FilterLink(d) == Some(t) <==> d == WikiPrefix + t && Avoids(t, {'/'})
  {
    MatchTitleExact(d, {'/'}, t);
  }

  /** A title of another namespace, such as `File:...`, passes this filter. */
  lemma FilterLinkAllowsNamespaces(t: string)
    requires ':' in t && '/' !in t
    ensures FilterLink(WikiPrefix + t) == Some(t)
  {
    FilterLinkExact(WikiPrefix + t, t);
  }

  /** The `onclick` script the formatter writes: `console.log("<title>");`. */
  function LogScript(dest: string): string
  {
    "console.log(\"" + dest + "\");"
  }

  /** One turn of the loop in `wiki_format_html`. */
  function RaceAnchor(l: Link): (r: Link)
    ensures forall a :: a != "href" && a != "onclick" ==> (a in r <==> a in l) && (a in l ==> r[a] == l[a])
    ensures Skipped(l) ==> r == l
    ensures !Skipped(l) ==> ("href" in r <==> FilterLink(Href(l).value).Some?)
    ensures !Skipped(l) && "href" in r ==>
              && r["href"] == l["href"]
              && "onclick" in r && r["onclick"] == Text(LogScript(FilterLink(Href(l).value).value))
    ensures !Skipped(l) && "href" !in r ==> ("onclick" in r <==> "onclick" in l) && ("onclick" in l ==> r["onclick"] == l["onclick"])
  {
    if Skipped(l) then l
    else
      match FilterLink(Href(l).value)
      case None => l - {"href"}
      case Some(dest) => l["onclick" := Text(LogScript(dest))]
  }

  /** `wiki_format_html`, less the parsing and printing: every link is rewritten in place, in order. */
  method RaceAnchors(links: array<Link>)
    modifies links
    ensures forall i :: 0 <= i < links.Length ==> links[i] == RaceAnchor(old(links[i]))
  {
    for i := 0 to links.Length
      invariant forall j :: 0 <= j < i ==> links[j] == RaceAnchor(old(links[j]))
      invariant forall j :: i <= j < links.Length ==> links[j] == old(links[j])
    {
      links[i] := RaceAnchor(links[i]);
    }
  }
}
