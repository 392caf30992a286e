/**
 * The check a requested round route goes through before a round starts on
 * it: both pages named, different, and existing.
 */
module RouteCheck {
  import opened Wrappers
  import opened Models

  /** Why a route is refused: a missing key (a `KeyError`) or one of the three `ValueError`s. */
  datatype RouteError =
    | MissingKey(key: string)
    | SamePages
    | StartPageMissing(page: Title)
    | EndPageMissing(page: Title)

  /**
   * `check_new_round_route`: the `origin` and `target` of the request, if
   * neither names the same page as the other and both exist. The checks
   * run in that order, so an existence check is made only for different
   * pages, and the end page only once the start page exists.
   */
  function CheckNewRoundRoute(data: map<string, Title>, compareTitles: (Title, Title) -> bool,
                              pageExists: Title -> bool): (r: Result<(Title, Title), RouteError>)
    ensures r.Success? <==>
      && "origin" in data && "target" in data
      && !compareTitles(data["origin"], data["target"])
      && pageExists(data["origin"]) && pageExists(data["target"])
    ensures r.Success? ==> r.value == (data["origin"], data["target"])
    ensures "origin" !in data ==> r == Failure(MissingKey("origin"))
    ensures "origin" in data && "target" !in data ==> r == Failure(MissingKey("target"))
    ensures "origin" in data && "target" in data && compareTitles(data["origin"], data["target"]) ==>
              r == Failure(SamePages)
    ensures ("origin" in data && "target" in data && !compareTitles(data["origin"], data["target"]) &&
             !pageExists(data["origin"])) ==> r == Failure(StartPageMissing(data["origin"]))
    ensures ("origin" in data && "target" in data && !compareTitles(data["origin"], data["target"]) &&
             pageExists(data["origin"]) && !pageExists(data["target"])) ==> r == Failure(EndPageMissing(data["target"]))
  {
    if "origin" !in data then Failure(MissingKey("origin"))
    else if "target" !in data then Failure(MissingKey("target"))
    else
      var start := data["origin"];
      var end := data["target"];
      if compareTitles(start, end) then Failure(SamePages)
      else if !pageExists(start) then Failure(StartPageMissing(start))
      else if !pageExists(end) then Failure(EndPageMissing(end))
      else Success((start, end))
  }

  /** A route naming the same page twice is refused whatever the existence oracle answers. */
  lemma SamePagesSkipExistence(data: map<string, Title>, compareTitles: (Title, Title) -> bool,
                               exists1: Title -> bool, exists2: Title -> bool)
    requires "origin" in data && "target" in data && compareTitles(data["origin"], data["target"])
    ensures CheckNewRoundRoute(data, compareTitles, exists1) == CheckNewRoundRoute(data, compareTitles, exists2) == Failure(SamePages)
  {
  }
}
