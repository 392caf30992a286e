/**
 * The frames the game consumer exchanges with the browser: what the server
 * sends (an `{"error": ...}` frame or a `{"type": ..., "data": ...}` action)
 * and to whom, and what the browser sends.
 */
module Protocol {
  import opened Wrappers
  import opened Models
  import opened Leaderboard
  import Db

  /** A frame the server sends, one variant per action name plus the error frame. */
  datatype Message =
    | ErrorMsg(error: string)                         // {"error": error}
    | NewRoundMsg(info: Db.RoundInfo)                 // "new_round"
    | ForceRedirectMsg(page: Title)                   // "force_redirect", {"page": page}
    | SolvedMsg                                       // "solved", {}
    | LeaderboardUpdateMsg(leaderboards: seq<Entry>)  // "leaderboard_update", {"leaderboards": ...}
    | RoundFinishedMsg(finished: Db.FinishedRound)    // "round_finished"

  /** Whether a frame goes to this connection only, or to every connection of the party's group. */
  datatype Target = ToCaller | ToParty(party: PartyId)

  datatype Frame = Frame(target: Target, message: Message)

  /** The value of the frame's `type` key; error frames have none. */
  function ActionName(m: Message): (name: Option<string>)
    ensures name.None? <==> m.ErrorMsg?
  {
    match m
    case ErrorMsg(_) => None
    case NewRoundMsg(_) => Some("new_round")
    case ForceRedirectMsg(_) => Some("force_redirect")
    case SolvedMsg => Some("solved")
    case LeaderboardUpdateMsg(_) => Some("leaderboard_update")
    case RoundFinishedMsg(_) => Some("round_finished")
  }

  /** Distinct kinds of message travel under distinct action names, so the browser can tell them apart. */
  lemma ActionNamesDistinct(m1: Message, m2: Message)
    requires ActionName(m1).Some? && ActionName(m1) == ActionName(m2)
    ensures m1.NewRoundMsg? == m2.NewRoundMsg? && m1.ForceRedirectMsg? == m2.ForceRedirectMsg?
    ensures m1.SolvedMsg? == m2.SolvedMsg? && m1.LeaderboardUpdateMsg? == m2.LeaderboardUpdateMsg?
    ensures m1.RoundFinishedMsg? == m2.RoundFinishedMsg?
  {
  }

  /** A frame the browser sends: the values of its `type` and `destination` keys, where present. */
  datatype Request = Request(action: Option<string>, destination: Option<Title>)

  /** The action names that have a registered handler. */
  const Handled: set<string> := {"new_round", "click", "finish_early"}
}
