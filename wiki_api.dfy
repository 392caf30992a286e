/**
 * The wiki service the game consults. Its helpers (`compare_titles`,
 * `check_valid_transition`, `check_page_exists`, `generate_round`) are not
 * defined in the modelled code, so they are parameters: uninterpreted
 * functions, or the value a call returned.
 */
module WikiApi {
  import opened Models

  /** The oracles consulted while a frame is handled. */
  datatype Oracles = Oracles(
    compareTitles: (Title, Title) -> bool,
    validTransition: (Title, Title) -> bool)

  /** What one call of `generate_round()` returned. */
  datatype GeneratedRound = GeneratedRound(start: Title, end: Title, solution: seq<Title>)

  /** The documented shape of what `generate_round` returns: a path from `start` to `end`, both included. */
  predicate WellFormedRoute(g: GeneratedRound) {
    |g.solution| >= 1 && g.solution[0] == g.start && g.solution[|g.solution| - 1] == g.end
  }
}
