/**
 * The page formatter of the game: internal links keep only the bare title
 * as `href` and post a click message when followed; every other link that
 * leads somewhere loses its `href`.
 */
module WikiFormat {
  import opened Wrappers
  import opened Links

  /** `_format_link`: the title of an internal link, whose title may hold neither '/' nor ':'. */
  function FormatLink(u: string): (r: Option<string>)
    ensures r.Some? ==> WikiPrefix + r.value == u && Avoids(r.value, {'/', ':'})
  {
    MatchTitleRoundTrip(u, {'/', ':'});
    MatchTitle(u, {'/', ':'})
  }

  /** `_format_link(u)` is `t` exactly when `u` is `/wiki/` followed by `t` and `t` holds no '/' and no ':'. */
  lemma FormatLinkExact(u: string, t: string)
    ensures FormatLink(u) == Some(t) <==> u == WikiPrefix + t && Avoids(t, {'/', ':'})
  {
    MatchTitleExact(u, {'/', ':'}, t);
  }

  /** The bare prefix is an internal link, to the empty title. */
  lemma FormatLinkBarePrefix()
    ensures FormatLink(WikiPrefix) == Some("")
  {
    FormatLinkExact(WikiPrefix, "");
    assert WikiPrefix + "" == WikiPrefix;
  }

  /** An address whose title names another namespace is not an internal link. */
  lemma FormatLinkRejectsNamespaces(t: string)
    requires ':' in t
    ensures FormatLink(WikiPrefix + t) == None
  {
    var i :| 0 <= i < |t| && t[i] == ':';
    assert t[i] in {'/', ':'};
  }

  /** One turn of the loop in `wiki_format_html`. */
  function FormatAnchor(l: Link): (r: Link)
    ensures forall a :: a != "href" && a != "onclick" ==> (a in r <==> a in l) && (a in l ==> r[a] == l[a])
    ensures Skipped(l) ==> r == l
    ensures !Skipped(l) ==> ("href" in r <==> FormatLink(Href(l).value).Some?)
    ensures !Skipped(l) && "href" in r ==>
              && r["href"].Text? && WikiPrefix + r["href"].text == Href(l).value
              && "onclick" in r && r["onclick"] == ClickMessage(r["href"].text)
    ensures !Skipped(l) && "href" !in r ==> ("onclick" in r <==> "onclick" in l) && ("onclick" in l ==> r["onclick"] == l["onclick"])
  {
    if Skipped(l) then l
    else
      match FormatLink(Href(l).value)
      case None => l - {"href"}
      case Some(dest) => l["href" := Text(dest)]["onclick" := ClickMessage(dest)]
  }

  /** `wiki_format_html`, less the parsing and printing: every link is rewritten in place, in order. */
  method FormatAnchors(links: array<Link>)
    modifies links
    ensures forall i :: 0 <= i < links.Length ==> links[i] == FormatAnchor(old(links[i]))
  {
    for i := 0 to links.Length
      invariant forall j :: 0 <= j < i ==> links[j] == FormatAnchor(old(links[j]))
      invariant forall j :: i <= j < links.Length ==> links[j] == old(links[j])
    {
      links[i] := FormatAnchor(links[i]);
    }
  }
}
