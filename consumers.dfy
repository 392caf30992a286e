/**
 * The websocket consumer of one browser connection to one party's game
 * page. It holds the shared store, the connection's user, party and member,
 * and the frames it has sent so far (`log`), in order; a frame sent to the
 * party's group is recorded once, with its target.
 */
module Consumers {
  import opened Wrappers
  import opened Models
  import opened WikiApi
  import opened Leaderboard
  import opened Protocol
  import opened Db

  /** A connection is being opened, is open, or has been refused or dropped. */
  datatype ConnectionState = Connecting | Open | Closed

  function NotAdmin(): Frame { Frame(ToCaller, ErrorMsg("not admin")) }
  function NoActiveRound(): Frame { Frame(ToCaller, ErrorMsg("no active round")) }

  class GameConsumer {
    const store: Store
    const user: UserId
    /** The party named by the connection's `game_id`. */
    const party: PartyId
    var member: MemberId
    var isAdmin: bool
    var state: ConnectionState
    var log: seq<Frame>

    /** An open connection belongs to an existing member of the party, and knows whether that user hosts it. */
    ghost predicate Valid()
      reads this, store
    {
      && store.Valid()
      && (state == Open ==>
            && party < |store.parties|
            && member < |store.members|
            && store.members[member].party == party
            && store.members[member].user == user
            && isAdmin == store.IsAdmin(party, user))
    }

    constructor (store: Store, user: UserId, party: PartyId)
      requires store.Valid()
      ensures Valid() && this.store == store && this.user == user && this.party == party
      ensures state == Connecting && log == []
    {
      this.store := store;
      this.user := user;
      this.party := party;
      member, isAdmin, state, log := 0, false, Connecting, [];
    }

    /**
     * The member's row in the latest round of the party, when that round is
     * still running: the guard shared by `click` and `new_round`.
     */
    function ActiveRow(): (o: Option<MemberRoundId>)
      reads this, store
      requires Valid() && state == Open
      ensures o.Some? ==> o.value < |store.memberRounds| && store.memberRounds[o.value].member == member
      ensures o.Some? ==> store.memberRounds[o.value].round < |store.rounds|
      ensures o.Some? ==> o == store.LatestMemberRound(member)
      ensures o.Some? <==> store.LatestMemberRound(member).Some? &&
                           store.rounds[store.memberRounds[store.LatestMemberRound(member).value].round].running
    {
      var k := store.LatestMemberRound(member);
      if k.Some? && store.rounds[store.memberRounds[k.value].round].running then k else None
    }

    // ----- what `send_connected_member` does, stated on the current state -----

    /** The row a reconnecting member `m` resumes in round `r`: its own, or a fresh one at the start page. */
    ghost function ResumedRow(r: RoundId, m: MemberId): MemberRound
      reads store
      requires r < |store.rounds|
    {
      match FindMemberRound(store.memberRounds, r, m)
      case Some(k) => store.memberRounds[k]
      case None => NewMemberRound(m, r, store.rounds[r].startPage)
    }

    /**
     * The frames sent to member `m` on connecting: nothing without a running
     * round; the round's end to the whole party when its time ran out;
     * otherwise the round with the seconds left, a redirect to the member's
     * page and, if the member has solved it, `solved`.
     */
    ghost function ResumeFrames(m: MemberId, now: int): seq<Frame>
      reads this, store
      requires store.Valid() && party < |store.parties|
    {
      match store.LatestPartyRound(party)
      case None => []
      case Some(r) =>
        if !store.rounds[r].running then []
        else if store.CheckIfTimeRanOut(r, now) then
          [Frame(ToParty(party), RoundFinishedMsg(FinishedRound(store.rounds[r].solution, store.Leaderboard(party))))]
        else
          [Frame(ToCaller, NewRoundMsg(store.TimeSpecificRoundInfo(r, now))),
           Frame(ToCaller, ForceRedirectMsg(ResumedRow(r, m).currentPage))]
          + (if IsSolved(ResumedRow(r, m)) then [Frame(ToCaller, SolvedMsg)] else [])
    }

    /** The rounds table after connecting: a round whose time ran out is stopped. */
    ghost function ResumeRounds(now: int): seq<Round>
      reads this, store
      requires store.Valid() && party < |store.parties|
    {
      match store.LatestPartyRound(party)
      case None => store.rounds
      case Some(r) =>
        if store.rounds[r].running && store.CheckIfTimeRanOut(r, now)
        then store.rounds[r := store.rounds[r].(running := false)]
        else store.rounds
    }

    /** The member rounds table after connecting: a row is added only when the member has none in the running round. */
    ghost function ResumeRows(m: MemberId, now: int): seq<MemberRound>
      reads this, store
      requires store.Valid() && party < |store.parties|
    {
      match store.LatestPartyRound(party)
      case None => store.memberRounds
      case Some(r) =>
        if store.rounds[r].running && !store.CheckIfTimeRanOut(r, now) &&
           FindMemberRound(store.memberRounds, r, m).None?
        then store.memberRounds + [NewMemberRound(m, r, store.rounds[r].startPage)]
        else store.memberRounds
    }

    // ----- connection -----

    /**
     * `connect`: a party that does not exist, or a user who is not exactly
     * one member of it, closes the connection with nothing sent. Otherwise
     * the connection opens, the party gets the leaderboard, and the member
     * gets the running round, if any.
     */
    method Connect(now: int)
      requires Valid() && state == Connecting
      modifies this, store
      ensures Valid()
      ensures !(party < |old(store.parties)| && old(store.GetMember(party, user)).Some?) ==>
                state == Closed && log == old(log) && unchanged(store)
      ensures party < |old(store.parties)| && old(store.GetMember(party, user)).Some? ==>
                var m := old(store.GetMember(party, user)).value;
                && state == Open && member == m
                && isAdmin == old(store.IsAdmin(party, user))
                && log == old(log) + [Frame(ToParty(party), LeaderboardUpdateMsg(old(store.Leaderboard(party))))]
                                   + old(ResumeFrames(m, now))
                && store.rounds == old(ResumeRounds(now))
                && store.memberRounds == old(ResumeRows(m, now))
      ensures store.parties == old(store.parties) && store.members == old(store.members) && store.admins == old(store.admins)
    {
      if party >= |store.parties| {
        state := Closed;
        return;
      }
      var m := store.GetMember(party, user);
      if m.None? {
        state := Closed;
        return;
      }
      member := m.value;
      isAdmin := store.IsAdmin(party, user);
      state := Open;
      UpdateLeaderboards();
      SendConnectedMember(now);
    }

    /** `send_connected_member`. */
    method SendConnectedMember(now: int)
      requires Valid() && state == Open
      modifies this`log, store
      ensures Valid()
      ensures log == old(log) + old(ResumeFrames(member, now))
      ensures store.rounds == old(ResumeRounds(now)) && store.memberRounds == old(ResumeRows(member, now))
      ensures store.parties == old(store.parties) && store.members == old(store.members) && store.admins == old(store.admins)
    {
      var o := store.LatestPartyRound(party);
      if o.None? || !store.rounds[o.value].running {
        assert ResumeFrames(member, now) == [];
        assert ResumeRounds(now) == store.rounds && ResumeRows(member, now) == store.memberRounds;
        return;
      }
      var r := o.value;
      if store.CheckIfTimeRanOut(r, now) {
        ghost var finished := FinishedRound(store.rounds[r].solution, store.Leaderboard(party));
        assert ResumeFrames(member, now) == [Frame(ToParty(party), RoundFinishedMsg(finished))];
        assert ResumeRounds(now) == store.rounds[r := store.rounds[r].(running := false)];
        assert ResumeRows(member, now) == store.memberRounds;
        AnnounceFinishRound(r);
        return;
      }
      assert ResumeRounds(now) == store.rounds;
      assert ResumeFrames(member, now) ==
        [Frame(ToCaller, NewRoundMsg(store.TimeSpecificRoundInfo(r, now))),
         Frame(ToCaller, ForceRedirectMsg(ResumedRow(r, member).currentPage))]
        + (if IsSolved(ResumedRow(r, member)) then [Frame(ToCaller, SolvedMsg)] else []);
      assert ResumeRows(member, now) ==
        if FindMemberRound(store.memberRounds, r, member).None?
        then store.memberRounds + [NewMemberRound(member, r, store.rounds[r].startPage)]
        else store.memberRounds;
      ResumeRound(r, now);
    }

    /** The part of `send_connected_member` for a round that still runs with time left. */
    method ResumeRound(r: RoundId, now: int)
      requires Valid() && state == Open
      requires store.LatestPartyRound(party) == Some(r) && store.rounds[r].running && !store.CheckIfTimeRanOut(r, now)
      modifies this`log, store
      ensures Valid()
      ensures log == old(log) + [Frame(ToCaller, NewRoundMsg(old(store.TimeSpecificRoundInfo(r, now)))),
                                 Frame(ToCaller, ForceRedirectMsg(old(ResumedRow(r, member)).currentPage))]
                              + (if old(IsSolved(ResumedRow(r, member))) then [Frame(ToCaller, SolvedMsg)] else [])
      ensures store.memberRounds == (if old(FindMemberRound(store.memberRounds, r, member)).None?
                                     then old(store.memberRounds) + [NewMemberRound(member, r, old(store.rounds[r].startPage))]
                                     else old(store.memberRounds))
      ensures store.rounds == old(store.rounds)
      ensures store.parties == old(store.parties) && store.members == old(store.members) && store.admins == old(store.admins)
    {
      var k := store.GetOrCreateMemberRound(r, member);
      var info := store.TimeSpecificRoundInfo(r, now);
      var row := store.memberRounds[k];
      log := log + [Frame(ToCaller, NewRoundMsg(info)), Frame(ToCaller, ForceRedirectMsg(row.currentPage))];
      if IsSolved(row) {
        log := log + [Frame(ToCaller, SolvedMsg)];
      }
    }

    // ----- group messages -----

    /** `update_leaderboards`: the leaderboard goes to the whole party. */
    method UpdateLeaderboards()
      requires Valid() && party < |store.parties|
      modifies this`log
      ensures log == old(log) + [Frame(ToParty(party), LeaderboardUpdateMsg(store.Leaderboard(party)))]
    {
      var board := store.GenerateLeaderboards(party);
      log := log + [Frame(ToParty(party), LeaderboardUpdateMsg(board))];
    }

    /**
     * `announce_finish_round`, also what the round timer calls when it
     * expires: a round that is no longer running is left alone and nothing
     * is sent, so a round is announced as finished at most once.
     */
    method AnnounceFinishRound(r: RoundId)
      requires Valid() && r < |store.rounds| && store.rounds[r].party == party
      modifies this`log, store
      ensures Valid()
      ensures !old(store.rounds[r].running) ==> log == old(log) && store.rounds == old(store.rounds)
      ensures old(store.rounds[r].running) ==>
                && store.rounds == old(store.rounds)[r := old(store.rounds[r]).(running := false)]
                && log == old(log) + [Frame(ToParty(party), RoundFinishedMsg(
                                        FinishedRound(old(store.rounds[r].solution), old(store.Leaderboard(party)))))]
      ensures !store.rounds[r].running
      ensures store.parties == old(store.parties) && store.members == old(store.members) &&
              store.admins == old(store.admins) && store.memberRounds == old(store.memberRounds)
    {
      if !store.rounds[r].running {
        return;
      }
      var finished := store.FinishRound(r);
      log := log + [Frame(ToParty(party), RoundFinishedMsg(finished))];
    }

    /** `finish_if_all_solved`: the round is finished once no member of it is left unsolved. */
    method FinishIfAllSolved(r: RoundId)
      requires Valid() && r < |store.rounds| && store.rounds[r].party == party
      modifies this`log, store
      ensures Valid()
      ensures !old(store.HaveAllSolved(r)) || !old(store.rounds[r].running) ==>
                log == old(log) && store.rounds == old(store.rounds)
      ensures old(store.HaveAllSolved(r)) && old(store.rounds[r].running) ==>
                && store.rounds == old(store.rounds)[r := old(store.rounds[r]).(running := false)]
                && log == old(log) + [Frame(ToParty(party), RoundFinishedMsg(
                                        FinishedRound(old(store.rounds[r].solution), old(store.Leaderboard(party)))))]
      ensures store.parties == old(store.parties) && store.members == old(store.members) &&
              store.admins == old(store.admins) && store.memberRounds == old(store.memberRounds)
    {
      if store.HaveAllSolved(r) {
        AnnounceFinishRound(r);
      }
    }

    // ----- requests from the browser -----

    /**
     * What the `new_round` handler leaves: `not admin` for a guest, `another
     * round is running` while the host's round runs, each changing nothing;
     * otherwise the new round and its rows, announced to the party.
     */
    twostate predicate NewRoundOutcome(generated: GeneratedRound, now: int)
      requires old(Valid() && state == Open) && Valid() && state == Open && member == old(member)
      reads this, store
    {
      && (!isAdmin ==> log == old(log) + [NotAdmin()] && unchanged(store))
      && (isAdmin && old(ActiveRow()).Some? ==>
            log == old(log) + [Frame(ToCaller, ErrorMsg("another round is running"))] && unchanged(store))
      && (isAdmin && old(ActiveRow()).None? ==>
            && store.rounds == old(store.rounds) + [Models.NewRound(party, generated.start, generated.end, generated.solution, now)]
            && store.memberRounds == old(store.memberRounds) + RowsFor(MembersOf(store.members, party), |old(store.rounds)|, generated.start)
            && log == old(log) + [Frame(ToParty(party), NewRoundMsg(RoundInfo(generated.start, generated.end, store.parties[party].timeLimit)))])
      && store.parties == old(store.parties) && store.members == old(store.members) && store.admins == old(store.admins)
    }

    /**
     * What the `click` handler leaves: the three refusals in order, each
     * changing nothing, the redirect after a move that follows no link, and
     * otherwise the recorded click, its frames and the all-solved finish.
     */
    twostate predicate ClickOutcome(destination: Option<Title>, oracles: Oracles, now: int)
      requires old(Valid() && state == Open) && Valid() && state == Open && member == old(member)
      reads this, store
    {
      && (destination.None? ==> log == old(log) + [Frame(ToCaller, ErrorMsg("no destination"))] && unchanged(store))
      && (destination.Some? && old(ActiveRow()).None? ==> log == old(log) + [NoActiveRound()] && unchanged(store))
      && (destination.Some? && old(ActiveRow()).Some? && old(IsSolved(store.memberRounds[ActiveRow().value])) ==>
            log == old(log) + [Frame(ToCaller, ErrorMsg("already solved"))] && unchanged(store))
      && (destination.Some? && old(ActiveRow()).Some? && !old(IsSolved(store.memberRounds[ActiveRow().value])) &&
          !oracles.validTransition(old(store.memberRounds[ActiveRow().value].currentPage), destination.value) ==>
            log == old(log) + [Frame(ToCaller, ForceRedirectMsg(old(store.memberRounds[ActiveRow().value].currentPage)))] &&
            unchanged(store))
      && (destination.Some? && old(ActiveRow()).Some? && !old(IsSolved(store.memberRounds[ActiveRow().value])) &&
          oracles.validTransition(old(store.memberRounds[ActiveRow().value].currentPage), destination.value) ==>
            var k := old(ActiveRow()).value;
            var row := old(store.memberRounds[k]);
            var c := Click(row, old(store.members[member].points), destination.value, old(store.rounds[row.round].endPage),
                           oracles.compareTitles, old(store.LeftSeconds(row.round, now)), store.cfg.pointsForSolving);
            && store.memberRounds == old(store.memberRounds)[k := c.row]
            && store.members == old(store.members)[member := old(store.members[member]).(points := c.points)]
            && store.rounds == (if store.HaveAllSolved(row.round)
                                then old(store.rounds)[row.round := old(store.rounds[row.round]).(running := false)]
                                else old(store.rounds))
            && log == old(log)
                      + (if c.solved then [Frame(ToParty(party), LeaderboardUpdateMsg(store.Leaderboard(party))),
                                           Frame(ToCaller, SolvedMsg)] else [])
                      + (if store.HaveAllSolved(row.round)
                         then [Frame(ToParty(party), RoundFinishedMsg(FinishedRound(old(store.rounds[row.round].solution),
                                                                                   store.Leaderboard(party))))]
                         else []))
      && (store.parties == old(store.parties) && store.admins == old(store.admins) && |store.members| == |old(store.members)|)
    }

    /**
     * What the `finish_early` handler leaves: `not admin` for a guest and
     * `no active round` for a party without rounds, each changing nothing;
     * otherwise what announcing the end of the latest round does.
     */
    twostate predicate FinishEarlyOutcome()
      requires old(Valid() && state == Open) && Valid() && state == Open && member == old(member)
      reads this, store
    {
      && (!isAdmin ==> log == old(log) + [NotAdmin()] && unchanged(store))
      && (isAdmin && old(store.LatestPartyRound(party)).None? ==> log == old(log) + [NoActiveRound()] && unchanged(store))
      && (isAdmin && old(store.LatestPartyRound(party)).Some? ==>
            var r := old(store.LatestPartyRound(party)).value;
            && (!old(store.rounds[r].running) ==> log == old(log) && store.rounds == old(store.rounds))
            && (old(store.rounds[r].running) ==>
                  && store.rounds == old(store.rounds)[r := old(store.rounds[r]).(running := false)]
                  && log == old(log) + [Frame(ToParty(party), RoundFinishedMsg(
                                          FinishedRound(old(store.rounds[r].solution), old(store.Leaderboard(party)))))]))
      && (store.parties == old(store.parties) && store.members == old(store.members) &&
          store.admins == old(store.admins) && store.memberRounds == old(store.memberRounds))
    }

    /**
     * `receive`: a frame without a `type` ends the connection; a type with
     * no handler is answered with `notfound`; the others go to their handler.
     */
    method Receive(req: Request, generated: GeneratedRound, oracles: Oracles, now: int)
      requires Valid() && state == Open
      modifies this, store
      ensures Valid()
      ensures req.action.None? ==> state == Closed && log == old(log) && unchanged(store)
      ensures req.action.Some? && req.action.value !in Handled ==>
                state == Open && log == old(log) + [Frame(ToCaller, ErrorMsg("notfound"))] && unchanged(store)
      ensures req.action.Some? ==> state == Open && member == old(member)
      ensures req.action == Some("new_round") ==> NewRoundOutcome(generated, now)
      ensures req.action == Some("click") ==> ClickOutcome(req.destination, oracles, now)
      ensures req.action == Some("finish_early") ==> FinishEarlyOutcome()
      ensures |log| >= |old(log)| && log[..|old(log)|] == old(log)
      ensures store.parties == old(store.parties) && store.admins == old(store.admins) && |store.members| == |old(store.members)|
    {
      if req.action.None? {
        state := Closed;
        return;
      }
      var action := req.action.value;
      if action !in Handled {
        log := log + [Frame(ToCaller, ErrorMsg("notfound"))];
        return;
      }
      if action == "new_round" {
        NewRoundHandler(generated, now);
      } else if action == "click" {
        ClickHandler(req.destination, oracles, now);
      } else {
        FinishEarlyHandler();
      }
    }

    /**
     * The `new_round` handler: only the host may start a round, and not
     * while the round the host last played is still running.
     */
    method NewRoundHandler(generated: GeneratedRound, now: int)
      requires Valid() && state == Open
      modifies this`log, store
      ensures Valid()
      ensures NewRoundOutcome(generated, now)
    {
      if !isAdmin {
        log := log + [NotAdmin()];
        return;
      }
      if ActiveRow().Some? {
        log := log + [Frame(ToCaller, ErrorMsg("another round is running"))];
        return;
      }
      var r := store.NewRound(party, generated, now);
      var info := store.InitialRoundInfo(r);
      log := log + [Frame(ToParty(party), NewRoundMsg(info))];
    }

    /**
     * The `click` handler. The checks come in this order: a destination is
     * given, the member's round is running, the member has not solved it,
     * the move follows a link of the current page (otherwise the member is
     * sent back there). Then the click is recorded; a solve sends the party
     * the leaderboard and the member `solved`; and the round ends once every
     * member has solved it.
     */
    method ClickHandler(destination: Option<Title>, oracles: Oracles, now: int)
      requires Valid() && state == Open
      modifies this`log, store
      ensures Valid()
      ensures ClickOutcome(destination, oracles, now)
    {
      if destination.None? {
        log := log + [Frame(ToCaller, ErrorMsg("no destination"))];
        return;
      }
      var k := ActiveRow();
      if k.None? {
        log := log + [NoActiveRound()];
        return;
      }
      var row := store.memberRounds[k.value];
      if IsSolved(row) {
        log := log + [Frame(ToCaller, ErrorMsg("already solved"))];
        return;
      }
      if !oracles.validTransition(row.currentPage, destination.value) {
        log := log + [Frame(ToCaller, ForceRedirectMsg(row.currentPage))];
        return;
      }
      RecordClick(k.value, destination.value, oracles.compareTitles, now);
    }

    /** The part of the `click` handler after its checks have passed. */
    method RecordClick(k: MemberRoundId, clicked: Title, compareTitles: (Title, Title) -> bool, now: int)
      requires Valid() && state == Open && ActiveRow() == Some(k)
      modifies this`log, store
      ensures Valid()
      ensures var row := old(store.memberRounds[k]);
              var c := Click(row, old(store.members[member].points), clicked, old(store.rounds[row.round].endPage),
                             compareTitles, old(store.LeftSeconds(row.round, now)), store.cfg.pointsForSolving);
              && store.memberRounds == old(store.memberRounds)[k := c.row]
              && store.members == old(store.members)[member := old(store.members[member]).(points := c.points)]
              && store.rounds == (if store.HaveAllSolved(row.round)
                                  then old(store.rounds)[row.round := old(store.rounds[row.round]).(running := false)]
                                  else old(store.rounds))
              && log == old(log)
                        + (if c.solved then [Frame(ToParty(party), LeaderboardUpdateMsg(store.Leaderboard(party))),
                                             Frame(ToCaller, SolvedMsg)] else [])
                        + (if store.HaveAllSolved(row.round)
                           then [Frame(ToParty(party), RoundFinishedMsg(FinishedRound(old(store.rounds[row.round].solution),
                                                                                     store.Leaderboard(party))))]
                           else [])
      ensures store.parties == old(store.parties) && store.admins == old(store.admins)
    {
      var r := store.memberRounds[k].round;
      var solved := ClickAndReport(k, clicked, compareTitles, now);
      ghost var entries := store.PartyEntries(party);
      ghost var allSolved := store.HaveAllSolved(r);
      FinishIfAllSolved(r);
      assert store.PartyEntries(party) == entries;
      assert store.HaveAllSolved(r) == allSolved;
    }

    /** `member_click`, and on a solve the leaderboard to the party and `solved` to the member. */
    method ClickAndReport(k: MemberRoundId, clicked: Title, compareTitles: (Title, Title) -> bool, now: int)
      returns (solved: bool)
      requires Valid() && state == Open && ActiveRow() == Some(k)
      modifies this`log, store
      ensures Valid()
      ensures var row := old(store.memberRounds[k]);
              var c := Click(row, old(store.members[member].points), clicked, old(store.rounds[row.round].endPage),
                             compareTitles, old(store.LeftSeconds(row.round, now)), store.cfg.pointsForSolving);
              && solved == c.solved
              && store.memberRounds == old(store.memberRounds)[k := c.row]
              && store.members == old(store.members)[member := old(store.members[member]).(points := c.points)]
      ensures log == old(log) + (if solved then [Frame(ToParty(party), LeaderboardUpdateMsg(store.Leaderboard(party))),
                                                 Frame(ToCaller, SolvedMsg)] else [])
      ensures store.parties == old(store.parties) && store.admins == old(store.admins) && store.rounds == old(store.rounds)
    {
      solved := store.MemberClick(k, clicked, compareTitles, now);
      if solved {
        UpdateLeaderboards();
        log := log + [Frame(ToCaller, SolvedMsg)];
      }
    }

    /** The `finish_early` handler: only the host may end the party's latest round. */
    method FinishEarlyHandler()
      requires Valid() && state == Open
      modifies this`log, store
      ensures Valid()
      ensures FinishEarlyOutcome()
    {
      if !isAdmin {
        log := log + [NotAdmin()];
        return;
      }
      var o := store.LatestPartyRound(party);
      if o.None? {
        log := log + [NoActiveRound()];
        return;
      }
      AnnounceFinishRound(o.value);
    }
  }
}
