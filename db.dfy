/**
 * The party/round engine of wiki_app/data/db.py as an in-memory store: one
 * table per entity, each a sequence (or, for admin roles, a map keyed by the
 * party, the table's primary key). The row of a party, member or round is
 * named by its position.
 */
module Db {
  import opened Wrappers
  import opened Models
  import opened WikiApi
  import opened Leaderboard

  /** The deployment settings the engine reads. */
  datatype Config = Config(minTimeLimitSeconds: int, maxTimeLimitSeconds: int, pointsForSolving: int)

  /** The fields `create_party` reads from its form; `None` for a missing key. */
  datatype CreatePartyForm = CreatePartyForm(timeLimitSeconds: Option<int>, name: Option<string>)

  /** The fields `join_party` reads from its form; `None` for a missing key. */
  datatype JoinPartyForm = JoinPartyForm(gameId: Option<PartyId>, name: Option<string>)

  datatype CreatePartyError = MissingTimeLimit | IncorrectTimeLimit(timeLimit: int) | MissingAdminName

  datatype JoinPartyError = MissingGameId | MissingMemberName | PartyDoesNotExist

  /** Round data for the frontend: the pages and a time limit in seconds. */
  datatype RoundInfo = RoundInfo(startPage: Title, endPage: Title, timeLimit: int)

  /** What `finish_round` returns for the frontend. */
  datatype FinishedRound = FinishedRound(solution: seq<Title>, leaderboards: seq<Entry>)

  // ----- queries over the tables -----

  /** The ids of the members of party `p` among the first `n` rows, in table order. */
  function MembersUpTo(ms: seq<PartyMember>, p: PartyId, n: nat): (ids: seq<MemberId>)
    requires n <= |ms|
    ensures forall j :: 0 <= j < |ids| ==> ids[j] < n && ms[ids[j]].party == p
    ensures forall j, l :: 0 <= j < l < |ids| ==> ids[j] < ids[l]
  {
    if n == 0 then []
    else MembersUpTo(ms, p, n - 1) + (if ms[n - 1].party == p then [n - 1] else [])
  }

  /** The ids of the members of party `p`, in table order (`party.members.all()`). */
  function MembersOf(ms: seq<PartyMember>, p: PartyId): (ids: seq<MemberId>)
    ensures forall j :: 0 <= j < |ids| ==> ids[j] < |ms| && ms[ids[j]].party == p
    ensures forall j, l :: 0 <= j < l < |ids| ==> ids[j] < ids[l]
  {
    MembersUpTo(ms, p, |ms|)
  }

  /** Every member of the party among the first `n` rows is listed. */
  lemma {:induction false} MembersUpToComplete(ms: seq<PartyMember>, p: PartyId, n: nat, i: MemberId)
    requires n <= |ms| && i < n && ms[i].party == p
    ensures i in MembersUpTo(ms, p, n)
  {
    if i < n - 1 {
      MembersUpToComplete(ms, p, n - 1, i);
    }
  }

  /** Every member of the party is listed. */
  lemma MembersOfComplete(ms: seq<PartyMember>, p: PartyId, i: MemberId)
    requires i < |ms| && ms[i].party == p
    ensures i in MembersOf(ms, p)
  {
    MembersUpToComplete(ms, p, |ms|, i);
  }

  /** The ids of the member rows of user `u` in party `p`, in table order. */
  function MatchingMembers(ms: seq<PartyMember>, p: PartyId, u: UserId): (ids: seq<MemberId>)
    ensures forall j :: 0 <= j < |ids| ==> ids[j] < |ms| && ms[ids[j]].party == p && ms[ids[j]].user == u
    ensures forall j, l :: 0 <= j < l < |ids| ==> ids[j] < ids[l]
    ensures forall i :: 0 <= i < |ms| && ms[i].party == p && ms[i].user == u ==> i in ids
  {
    if ms == [] then []
    else
      var n := |ms| - 1;
      MatchingMembers(ms[..n], p, u) + (if ms[n].party == p && ms[n].user == u then [n] else [])
  }

  /**
   * The latest round of party `p` by start time (`latest("start_time")`);
   * among rounds started at the same time, the one created last.
   */
  function LatestRound(rs: seq<Round>, p: PartyId): (o: Option<RoundId>)
    ensures o.Some? ==> o.value < |rs| && rs[o.value].party == p
    ensures o.Some? ==> forall i :: 0 <= i < |rs| && rs[i].party == p ==> rs[i].startTime <= rs[o.value].startTime
    ensures o.Some? ==> forall i :: o.value < i < |rs| && rs[i].party == p ==> rs[i].startTime < rs[o.value].startTime
    ensures o.None? <==> forall i :: 0 <= i < |rs| ==> rs[i].party != p
  {
    if rs == [] then None
    else
      var n := |rs| - 1;
      var prev := LatestRound(rs[..n], p);
      if rs[n].party == p && (prev.None? || rs[prev.value].startTime <= rs[n].startTime) then Some(n)
      else prev
  }

  /** The row of member `m` in round `r`, if there is one. */
  function FindMemberRound(mrs: seq<MemberRound>, r: RoundId, m: MemberId): (o: Option<MemberRoundId>)
    ensures o.Some? ==> o.value < |mrs| && mrs[o.value].round == r && mrs[o.value].member == m
    ensures o.None? <==> forall k :: 0 <= k < |mrs| ==> !(mrs[k].round == r && mrs[k].member == m)
  {
    if mrs == [] then None
    else
      var n := |mrs| - 1;
      if mrs[n].round == r && mrs[n].member == m then Some(n) else FindMemberRound(mrs[..n], r, m)
  }

  /** The number of rows of round `r` still at "not solved". */
  function CountUnsolved(mrs: seq<MemberRound>, r: RoundId): (c: nat)
    ensures c == 0 <==> forall k :: 0 <= k < |mrs| && mrs[k].round == r ==> IsSolved(mrs[k])
  {
    if mrs == [] then 0
    else
      var n := |mrs| - 1;
      CountUnsolved(mrs[..n], r) + (if mrs[n].round == r && !IsSolved(mrs[n]) then 1 else 0)
  }

  /** One fresh member round per id in `ids`, each at `page`. */
  function RowsFor(ids: seq<MemberId>, r: RoundId, page: Title): (rows: seq<MemberRound>)
  {
    seq(|ids|, j requires 0 <= j < |ids| => NewMemberRound(ids[j], r, page))
  }

  /** The leaderboard rows of the members `ids`, in that order. */
  function EntriesFor(ms: seq<PartyMember>, admin: MemberId, ids: seq<MemberId>): (es: seq<Entry>)
    requires forall j :: 0 <= j < |ids| ==> ids[j] < |ms|
  {
    seq(|ids|, j requires 0 <= j < |ids| => Entry(ms[ids[j]].name, ids[j] == admin, ms[ids[j]].points))
  }

  lemma RowsForSnoc(ids: seq<MemberId>, i: MemberId, r: RoundId, page: Title)
    ensures RowsFor(ids + [i], r, page) == RowsFor(ids, r, page) + [NewMemberRound(i, r, page)]
  {
  }

  lemma EntriesForSnoc(ms: seq<PartyMember>, admin: MemberId, ids: seq<MemberId>, i: MemberId)
    requires forall j :: 0 <= j < |ids| ==> ids[j] < |ms|
    requires i < |ms|
    ensures EntriesFor(ms, admin, ids + [i]) == EntriesFor(ms, admin, ids) + [Entry(ms[i].name, i == admin, ms[i].points)]
  {
  }

  // ----- clicks -----

  /** A member round and its member's points after a click. */
  datatype ClickResult = ClickResult(row: MemberRound, points: int, solved: bool)

  /**
   * `member_click` as written: on a solving click `solved_at` becomes the
   * seconds left, whatever their sign.
   */
  function ClickAsWritten(row: MemberRound, points: int, clicked: Title, endPage: Title,
                          compareTitles: (Title, Title) -> bool, left: int, bonus: int): (c: ClickResult)
    ensures c.solved == compareTitles(clicked, endPage)
    ensures c.row == row.(currentPage := clicked, solvedAt := if c.solved then left else row.solvedAt)
    ensures c.points == if c.solved then points + bonus + left else points
  {
    var solved := compareTitles(clicked, endPage);
    var at := if solved then left else row.solvedAt;
    ClickResult(row.(currentPage := clicked, solvedAt := at),
                if solved then points + bonus + at else points, solved)
  }

  /** The seconds recorded for a solve: the seconds left, but never below zero. */
  function SolvedAt(left: int): (at: int)
    ensures at >= 0 && (left >= 0 ==> at == left)
  {
    if left < 0 then 0 else left
  }

  /**
   * `member_click` with the solve time clamped at zero, so that a solve is
   * always recorded as one.
   */
  function Click(row: MemberRound, points: int, clicked: Title, endPage: Title,
                 compareTitles: (Title, Title) -> bool, left: int, bonus: int): (c: ClickResult)
    ensures c.solved == compareTitles(clicked, endPage)
    ensures c.row.member == row.member && c.row.round == row.round && c.row.currentPage == clicked
    ensures c.solved ==> IsSolved(c.row) && c.row.solvedAt >= 0 && c.points == points + bonus + c.row.solvedAt
    ensures c.solved && left >= 0 ==> c.row.solvedAt == left
    ensures !c.solved ==> c.row.solvedAt == row.solvedAt && c.points == points
  {
    var solved := compareTitles(clicked, endPage);
    var at := if solved then SolvedAt(left) else row.solvedAt;
    ClickResult(row.(currentPage := clicked, solvedAt := at),
                if solved then points + bonus + at else points, solved)
  }

  /**
   * As written, a member who solves one second after the deadline is stored
   * as not solved, so a second solving click scores again.
   */
  lemma AsWrittenLateSolveScoresTwice(compareTitles: (Title, Title) -> bool)
    requires compareTitles("Goal", "Goal")
    ensures var row := NewMemberRound(0, 0, "Start");
            var first := ClickAsWritten(row, 0, "Goal", "Goal", compareTitles, -1, 100);
            var second := ClickAsWritten(first.row, first.points, "Goal", "Goal", compareTitles, -1, 100);
            first.solved && !IsSolved(first.row) && second.solved && second.points == 198
  {
  }

  /** With the clamp, a solving click marks the row solved, so no second solve is accepted. */
  lemma {:induction false} SolveIsFinal(row: MemberRound, points: int, clicked: Title, endPage: Title,
                                        compareTitles: (Title, Title) -> bool, left: int, bonus: int)
    requires compareTitles(clicked, endPage)
    ensures IsSolved(Click(row, points, clicked, endPage, compareTitles, left, bonus).row)
    ensures bonus >= 0 ==> Click(row, points, clicked, endPage, compareTitles, left, bonus).points >= points
  {
    var c := Click(row, points, clicked, endPage, compareTitles, left, bonus);
    assert c.solved;
  }

  // ----- integrity of the tables -----

  /** Every foreign key names an existing row, and each party has its admin among its own members. */
  ghost predicate ValidRefs(parties: seq<Party>, members: seq<PartyMember>, admins: map<PartyId, AdminRole>, rounds: seq<Round>)
  {
    && (forall i :: 0 <= i < |members| ==> members[i].party < |parties|)
    && (forall p: PartyId :: p in admins <==> p < |parties|)
    && (forall p :: p in admins ==>
          admins[p].party == p && admins[p].adminMember < |members| && members[admins[p].adminMember].party == p)
    && (forall i :: 0 <= i < |rounds| ==> rounds[i].party < |parties|)
  }

  /** A member round links a member and a round of the same party, and no (round, member) pair has two rows. */
  ghost predicate ValidRows(members: seq<PartyMember>, rounds: seq<Round>, mrs: seq<MemberRound>)
  {
    && (forall k :: 0 <= k < |mrs| ==>
          && mrs[k].round < |rounds|
          && mrs[k].member < |members|
          && members[mrs[k].member].party == rounds[mrs[k].round].party
          && mrs[k].solvedAt >= NotSolved)
    && (forall k, l :: 0 <= k < l < |mrs| ==> !(mrs[k].round == mrs[l].round && mrs[k].member == mrs[l].member))
  }

  ghost predicate ValidTables(parties: seq<Party>, members: seq<PartyMember>, admins: map<PartyId, AdminRole>,
                              rounds: seq<Round>, mrs: seq<MemberRound>)
  {
    ValidRefs(parties, members, admins, rounds) && ValidRows(members, rounds, mrs)
  }

  /** A round recorded from a route shaped as documented has a solution of that shape. */
  lemma NewRoundKeepsRouteShape(p: PartyId, generated: GeneratedRound, now: int)
    requires WellFormedRoute(generated)
    ensures WellFormedSolution(Models.NewRound(p, generated.start, generated.end, generated.solution, now))
  {
  }

  /** A new round with one fresh row per member of its party keeps the tables valid. */
  lemma {:induction false} NewRoundKeepsValid(parties: seq<Party>, members: seq<PartyMember>, admins: map<PartyId, AdminRole>,
                                              rounds: seq<Round>, mrs: seq<MemberRound>, round: Round, page: Title)
    requires ValidTables(parties, members, admins, rounds, mrs)
    requires round.party < |parties|
    ensures ValidTables(parties, members, admins, rounds + [round], mrs + RowsFor(MembersOf(members, round.party), |rounds|, page))
  {
    var r := |rounds|;
    var rs := rounds + [round];
    var ids := MembersOf(members, round.party);
    var rows := RowsFor(ids, r, page);
    var all := mrs + rows;
    assert ValidRefs(parties, members, admins, rs);
    forall k | 0 <= k < |all|
      ensures && all[k].round < |rs| && all[k].member < |members|
              && members[all[k].member].party == rs[all[k].round].party && all[k].solvedAt >= NotSolved
    {
      if k < |mrs| {
        assert all[k] == mrs[k];
      } else {
        assert all[k] == rows[k - |mrs|];
      }
    }
    forall k, l | 0 <= k < l < |all|
      ensures !(all[k].round == all[l].round && all[k].member == all[l].member)
    {
      if k >= |mrs| {
        assert all[k] == rows[k - |mrs|] && all[l] == rows[l - |mrs|];
        assert ids[k - |mrs|] < ids[l - |mrs|];
      } else if l >= |mrs| {
        assert all[k] == mrs[k] && all[l].round == r;
      } else {
        assert all[k] == mrs[k] && all[l] == mrs[l];
      }
    }
  }

  /** Stopping a round keeps the tables valid. */
  lemma StopKeepsValid(parties: seq<Party>, members: seq<PartyMember>, admins: map<PartyId, AdminRole>,
                       rounds: seq<Round>, mrs: seq<MemberRound>, r: RoundId)
    requires ValidTables(parties, members, admins, rounds, mrs) && r < |rounds|
    ensures ValidTables(parties, members, admins, rounds[r := rounds[r].(running := false)], mrs)
  {
    var rs := rounds[r := rounds[r].(running := false)];
    assert forall i :: 0 <= i < |rounds| ==> rs[i].party == rounds[i].party;
  }

  // ----- the store -----

  class Store {
    const cfg: Config
    var parties: seq<Party>
    var members: seq<PartyMember>
    var admins: map<PartyId, AdminRole>
    var rounds: seq<Round>
    var memberRounds: seq<MemberRound>

    /** Every reference names an existing row; one admin per party; one member round per (round, member). */
    ghost predicate Valid()
      reads this
    {
      ValidTables(parties, members, admins, rounds, memberRounds)
    }

    constructor (cfg: Config)
      ensures Valid() && this.cfg == cfg
      ensures parties == [] && members == [] && admins == map[] && rounds == [] && memberRounds == []
    {
      this.cfg := cfg;
      parties, members, admins, rounds, memberRounds := [], [], map[], [], [];
    }

    /** The member who administers party `p`. */
    function AdminMember(p: PartyId): (m: MemberId)
      reads this
      requires Valid() && p < |parties|
      ensures m < |members| && members[m].party == p
    {
      admins[p].adminMember
    }

    /** `is_admin`: a party without an admin role answers false. */
    predicate IsAdmin(p: PartyId, u: UserId)
      reads this
      requires Valid()
    {
      p in admins && members[admins[p].adminMember].user == u
    }

    /** A user is admin of a party exactly when the party exists and the user owns its admin member. */
    lemma IsAdminOwnsAdminMember(p: PartyId, u: UserId)
      requires Valid()
      ensures IsAdmin(p, u) <==> p < |parties| && members[AdminMember(p)].user == u
    {
    }

    /**
     * `get_member`: `party.members.get(user=user)` under a bare `except`, so
     * the member if there is exactly one row, and none if there is none or
     * more than one.
     */
    function GetMember(p: PartyId, u: UserId): (o: Option<MemberId>)
      reads this
      ensures o.Some? ==> o.value < |members| && members[o.value].party == p && members[o.value].user == u
      ensures o.Some? ==> forall i :: 0 <= i < |members| && members[i].party == p && members[i].user == u ==> i == o.value
      ensures o.None? ==>
        (forall i :: 0 <= i < |members| ==> !(members[i].party == p && members[i].user == u)) ||
        (exists i, j :: 0 <= i < j < |members| && members[i].party == p && members[i].user == u
                                                && members[j].party == p && members[j].user == u)
    {
      var ids := MatchingMembers(members, p, u);
      if |ids| == 1 then Some(ids[0])
      else
        assert |ids| >= 2 ==> ids[0] < ids[1];
        None
    }

    function LatestPartyRound(p: PartyId): (o: Option<RoundId>)
      reads this
      ensures o.Some? ==> o.value < |rounds| && rounds[o.value].party == p
      ensures o.Some? ==> forall i :: 0 <= i < |rounds| && rounds[i].party == p ==> rounds[i].startTime <= rounds[o.value].startTime
      ensures o.None? <==> forall i :: 0 <= i < |rounds| ==> rounds[i].party != p
    {
      LatestRound(rounds, p)
    }

    /** The member's row in the latest round of its party, if both exist. */
    function LatestMemberRound(m: MemberId): (o: Option<MemberRoundId>)
      reads this
      requires m < |members|
      ensures o.Some? ==> o.value < |memberRounds| && memberRounds[o.value].member == m
      ensures o.Some? ==> Some(memberRounds[o.value].round) == LatestPartyRound(members[m].party)
      ensures o.None? <==> LatestPartyRound(members[m].party).None? ||
                           FindMemberRound(memberRounds, LatestPartyRound(members[m].party).value, m).None?
    {
      match LatestPartyRound(members[m].party)
      case None => None
      case Some(r) => FindMemberRound(memberRounds, r, m)
    }

    /** `get_left_seconds`: the party's time limit minus the whole seconds since the round started. */
    function LeftSeconds(r: RoundId, now: int): (left: int)
      reads this
      requires Valid() && r < |rounds|
      ensures left + (now - rounds[r].startTime) == parties[rounds[r].party].timeLimit
    {
      parties[rounds[r].party].timeLimit - (now - rounds[r].startTime)
    }

    /** `check_if_time_ran_out`: no time is left, yet the round still runs. */
    function CheckIfTimeRanOut(r: RoundId, now: int): (ranOut: bool)
      reads this
      requires Valid() && r < |rounds|
      ensures ranOut <==> LeftSeconds(r, now) <= 0 && rounds[r].running
    {
      if LeftSeconds(r, now) > 0 then false
      else if !rounds[r].running then false
      else true
    }

    /** `have_all_solved`: no row of the round is still at "not solved". */
    predicate HaveAllSolved(r: RoundId)
      reads this
      ensures HaveAllSolved(r) <==>
        forall k :: 0 <= k < |memberRounds| && memberRounds[k].round == r ==> IsSolved(memberRounds[k])
    {
      CountUnsolved(memberRounds, r) == 0
    }

    /** `get_initial_round_info`: the round's pages and its party's full time limit. */
    function InitialRoundInfo(r: RoundId): (info: RoundInfo)
      reads this
      requires Valid() && r < |rounds|
      ensures info.startPage == rounds[r].startPage && info.endPage == rounds[r].endPage
      ensures info.timeLimit == parties[rounds[r].party].timeLimit
    {
      RoundInfo(rounds[r].startPage, rounds[r].endPage, parties[rounds[r].party].timeLimit)
    }

    /** `get_time_specific_round_info`: as the initial info, with the seconds left as time limit. */
    function TimeSpecificRoundInfo(r: RoundId, now: int): (info: RoundInfo)
      reads this
      requires Valid() && r < |rounds|
      ensures info == InitialRoundInfo(r).(timeLimit := LeftSeconds(r, now))
    {
      var res := InitialRoundInfo(r);
      res.(timeLimit := LeftSeconds(r, now))
    }

    /** The rows `generate_leaderboards` builds, before sorting. */
    ghost function PartyEntries(p: PartyId): (es: seq<Entry>)
      reads this
      requires Valid() && p < |parties|
    {
      EntriesFor(members, AdminMember(p), MembersOf(members, p))
    }

    /** The leaderboard of party `p`. */
    ghost function Leaderboard(p: PartyId): seq<Entry>
      reads this
      requires Valid() && p < |parties|
    {
      SortByPoints(PartyEntries(p))
    }

    // ----- operations -----

    /** `create_party`: validates the form, then adds the party, its admin member and the admin role. */
    method CreateParty(adminUser: UserId, form: CreatePartyForm) returns (res: Result<PartyId, CreatePartyError>)
      requires Valid()
      modifies this
      ensures Valid()
      ensures form.timeLimitSeconds.None? ==> res == Failure(MissingTimeLimit)
      ensures form.timeLimitSeconds.Some? &&
              !(cfg.minTimeLimitSeconds <= form.timeLimitSeconds.value <= cfg.maxTimeLimitSeconds) ==>
              res == Failure(IncorrectTimeLimit(form.timeLimitSeconds.value))
      ensures (form.timeLimitSeconds.Some? &&
               cfg.minTimeLimitSeconds <= form.timeLimitSeconds.value <= cfg.maxTimeLimitSeconds &&
               form.name.None?) ==> res == Failure(MissingAdminName)
      ensures (form.timeLimitSeconds.Some? &&
               cfg.minTimeLimitSeconds <= form.timeLimitSeconds.value <= cfg.maxTimeLimitSeconds &&
               form.name.Some?) ==> res.Success?
      ensures res.Failure? ==>
        parties == old(parties) && members == old(members) && admins == old(admins) &&
        rounds == old(rounds) && memberRounds == old(memberRounds)
      ensures res.Success? ==>
        && form.timeLimitSeconds.Some? && form.name.Some?
        && res.value == |old(parties)|
        && parties == old(parties) + [Party(form.timeLimitSeconds.value)]
        && members == old(members) + [NewMember(form.name.value, adminUser, res.value)]
        && admins == old(admins)[res.value := AdminRole(res.value, |old(members)|)]
        && rounds == old(rounds) && memberRounds == old(memberRounds)
        && IsAdmin(res.value, adminUser)
    {
      if form.timeLimitSeconds.None? {
        return Failure(MissingTimeLimit);
      }
      var timeLimit := form.timeLimitSeconds.value;
      if !(cfg.minTimeLimitSeconds <= timeLimit <= cfg.maxTimeLimitSeconds) {
        return Failure(IncorrectTimeLimit(timeLimit));
      }
      if form.name.None? {
        return Failure(MissingAdminName);
      }
      var p := |parties|;
      parties := parties + [Party(timeLimit)];
      var m := |members|;
      members := members + [NewMember(form.name.value, adminUser, p)];
      admins := admins[p := AdminRole(p, m)];
      res := Success(p);
    }

    /** `join_party`: adds one member row for the user, without looking for an earlier one. */
    method JoinParty(user: UserId, form: JoinPartyForm) returns (res: Result<PartyId, JoinPartyError>)
      requires Valid()
      modifies this
      ensures Valid()
      ensures form.gameId.None? ==> res == Failure(MissingGameId)
      ensures form.gameId.Some? && form.name.None? ==> res == Failure(MissingMemberName)
      ensures form.gameId.Some? && form.name.Some? && form.gameId.value >= |parties| ==> res == Failure(PartyDoesNotExist)
      ensures form.gameId.Some? && form.name.Some? && form.gameId.value < old(|parties|) ==> res.Success?
      ensures res.Failure? ==> members == old(members)
      ensures res.Success? ==>
        && form.gameId == Some(res.value) && form.name.Some? && res.value < |parties|
        && members == old(members) + [NewMember(form.name.value, user, res.value)]
      ensures parties == old(parties) && admins == old(admins) && rounds == old(rounds) && memberRounds == old(memberRounds)
    {
      if form.gameId.None? {
        return Failure(MissingGameId);
      }
      if form.name.None? {
        return Failure(MissingMemberName);
      }
      var p := form.gameId.value;
      if p >= |parties| {
        return Failure(PartyDoesNotExist);
      }
      members := members + [NewMember(form.name.value, user, p)];
      res := Success(p);
    }

    /**
     * `new_round`: records the generated round as running and gives every
     * current member of the party a row at the start page. It does not look
     * for a round that is still running.
     */
    method NewRound(p: PartyId, generated: GeneratedRound, now: int) returns (r: RoundId)
      requires Valid() && p < |parties|
      modifies this
      ensures Valid()
      ensures r == |old(rounds)|
      ensures rounds == old(rounds) + [Models.NewRound(p, generated.start, generated.end, generated.solution, now)]
      ensures memberRounds == old(memberRounds) + RowsFor(MembersOf(members, p), r, generated.start)
      ensures parties == old(parties) && members == old(members) && admins == old(admins)
    {
      r := |rounds|;
      rounds := rounds + [Models.NewRound(p, generated.start, generated.end, generated.solution, now)];
      var i := 0;
      while i < |members|
        invariant 0 <= i <= |members|
        invariant memberRounds == old(memberRounds) + RowsFor(MembersUpTo(members, p, i), r, generated.start)
        invariant parties == old(parties) && members == old(members) && admins == old(admins)
        invariant rounds == old(rounds) + [Models.NewRound(p, generated.start, generated.end, generated.solution, now)]
      {
        if members[i].party == p {
          RowsForSnoc(MembersUpTo(members, p, i), i, r, generated.start);
          memberRounds := memberRounds + [NewMemberRound(i, r, generated.start)];
        }
        i := i + 1;
      }
      NewRoundKeepsValid(old(parties), old(members), old(admins), old(rounds), old(memberRounds),
                         Models.NewRound(p, generated.start, generated.end, generated.solution, now), generated.start);
    }

    /**
     * `member_click`: moves the member to the clicked page and, when that is
     * the end page, records the solve and adds the points in one step.
     */
    method MemberClick(k: MemberRoundId, clicked: Title, compareTitles: (Title, Title) -> bool, now: int)
      returns (solved: bool)
      requires Valid() && k < |memberRounds|
      modifies this
      ensures Valid()
      ensures var m := old(memberRounds[k].member);
              var c := Click(old(memberRounds[k]), old(members[m].points), clicked,
                             old(rounds[memberRounds[k].round].endPage), compareTitles,
                             old(LeftSeconds(memberRounds[k].round, now)), cfg.pointsForSolving);
              && solved == c.solved
              && memberRounds == old(memberRounds)[k := c.row]
              && members == old(members)[m := old(members[m]).(points := c.points)]
      ensures parties == old(parties) && admins == old(admins) && rounds == old(rounds)
    {
      var row := memberRounds[k];
      var m := row.member;
      var c := Click(row, members[m].points, clicked, rounds[row.round].endPage, compareTitles,
                     LeftSeconds(row.round, now), cfg.pointsForSolving);
      members := members[m := members[m].(points := c.points)];
      memberRounds := memberRounds[k := c.row];
      solved := c.solved;
    }

    /** `get_or_create_member_round`: the existing row of the member in the round, or a new one at the start page. */
    method GetOrCreateMemberRound(r: RoundId, m: MemberId) returns (k: MemberRoundId)
      requires Valid() && r < |rounds| && m < |members| && members[m].party == rounds[r].party
      modifies this
      ensures Valid()
      ensures k < |memberRounds| && memberRounds[k].round == r && memberRounds[k].member == m
      ensures old(FindMemberRound(memberRounds, r, m)).Some? ==>
        k == old(FindMemberRound(memberRounds, r, m)).value && memberRounds == old(memberRounds)
      ensures old(FindMemberRound(memberRounds, r, m)).None? ==>
        k == |old(memberRounds)| && memberRounds == old(memberRounds) + [NewMemberRound(m, r, rounds[r].startPage)]
      ensures parties == old(parties) && members == old(members) && admins == old(admins) && rounds == old(rounds)
    {
      var found := FindMemberRound(memberRounds, r, m);
      if found.Some? {
        return found.value;
      }
      k := |memberRounds|;
      memberRounds := memberRounds + [NewMemberRound(m, r, rounds[r].startPage)];
    }

    /** `finish_round`: stops the round, running or not, and reports its solution with the leaderboard. */
    method FinishRound(r: RoundId) returns (info: FinishedRound)
      requires Valid() && r < |rounds|
      modifies this
      ensures Valid()
      ensures rounds == old(rounds)[r := old(rounds[r]).(running := false)]
      ensures parties == old(parties) && members == old(members) && admins == old(admins) && memberRounds == old(memberRounds)
      ensures info == FinishedRound(rounds[r].solution, Leaderboard(rounds[r].party))
    {
      StopKeepsValid(parties, members, admins, rounds, memberRounds, r);
      rounds := rounds[r := rounds[r].(running := false)];
      var board := GenerateLeaderboards(rounds[r].party);
      info := FinishedRound(rounds[r].solution, board);
    }

    /**
     * `generate_leaderboards`: one row per member of the party, in table
     * order, then sorted by points, highest first, keeping ties in order.
     */
    method GenerateLeaderboards(p: PartyId) returns (board: seq<Entry>)
      requires Valid() && p < |parties|
      ensures board == Leaderboard(p)
    {
      var admin := admins[p].adminMember;
      var res: seq<Entry> := [];
      var i := 0;
      while i < |members|
        invariant 0 <= i <= |members|
        invariant res == EntriesFor(members, admin, MembersUpTo(members, p, i))
      {
        if members[i].party == p {
          EntriesForSnoc(members, admin, MembersUpTo(members, p, i), i);
          res := res + [Entry(members[i].name, i == admin, members[i].points)];
        }
        i := i + 1;
      }
      board := SortByPoints(res);
    }

    // ----- properties of the store -----

    /**
     * The leaderboard has one row per member of the party, ordered by points
     * with the highest first, holds exactly the members' rows, and keeps
     * members with equal points in table order.
     */
    lemma LeaderboardRanksMembers(p: PartyId)
      requires Valid() && p < |parties|
      ensures |Leaderboard(p)| == |MembersOf(members, p)|
      ensures SortedByPoints(Leaderboard(p))
      ensures multiset(Leaderboard(p)) == multiset(PartyEntries(p))
      ensures forall k :: WithPoints(Leaderboard(p), k) == WithPoints(PartyEntries(p), k)
    {
      var es := PartyEntries(p);
      SortIsSorted(es);
      SortPermutes(es);
      forall k ensures WithPoints(SortByPoints(es), k) == WithPoints(es, k) {
        SortIsStable(es, k);
      }
    }

    /**
     * Exactly one leaderboard row is marked as the host's, and before sorting
     * a row is marked exactly when it belongs to the admin member.
     */
    lemma LeaderboardMarksAdmin(p: PartyId)
      requires Valid() && p < |parties|
      ensures forall j :: 0 <= j < |PartyEntries(p)| ==>
                (PartyEntries(p)[j].isAdmin <==> MembersOf(members, p)[j] == AdminMember(p))
      ensures AdminCount(Leaderboard(p)) == 1
    {
      var ids := MembersOf(members, p);
      var es := PartyEntries(p);
      MembersOfComplete(members, p, AdminMember(p));
      var j0 :| 0 <= j0 < |ids| && ids[j0] == AdminMember(p);
      forall j | 0 <= j < |es| && j != j0 ensures !es[j].isAdmin {
        assert j < j0 ==> ids[j] < ids[j0];
        assert j0 < j ==> ids[j0] < ids[j];
      }
      OneAdminCount(es, j0);
      SortAdminCount(es);
    }

    /** `is_admin` and the leaderboard's host mark agree: the user is admin exactly when it owns the marked row. */
    lemma IsAdminOwnsMarkedRow(p: PartyId, u: UserId)
      requires Valid() && p < |parties|
      ensures IsAdmin(p, u) <==>
        exists j :: 0 <= j < |PartyEntries(p)| && PartyEntries(p)[j].isAdmin && members[MembersOf(members, p)[j]].user == u
    {
      var ids := MembersOf(members, p);
      MembersOfComplete(members, p, AdminMember(p));
      var j0 :| 0 <= j0 < |ids| && ids[j0] == AdminMember(p);
      assert PartyEntries(p)[j0].isAdmin;
    }

    /** Each party has one admin, and no member administers two parties. */
    lemma AdminRoleOneToOne(p: PartyId, q: PartyId)
      requires Valid() && p < |parties| && q < |parties| && p != q
      ensures AdminMember(p) != AdminMember(q)
    {
    }
  }

  /**
   * The rows `new_round` adds: one per member of the party, each at the
   * start page and not solved, and none for anyone else.
   */
  lemma NewRoundRowPerMember(ms: seq<PartyMember>, p: PartyId, r: RoundId, page: Title, m: MemberId)
    requires m < |ms|
    ensures var rows := RowsFor(MembersOf(ms, p), r, page);
            && (forall j :: 0 <= j < |rows| ==> rows[j].round == r && rows[j].currentPage == page && !IsSolved(rows[j]))
            && ((exists j :: 0 <= j < |rows| && rows[j].member == m) <==> ms[m].party == p)
            && (forall j, l :: 0 <= j < |rows| && 0 <= l < |rows| && rows[j].member == rows[l].member ==> j == l)
  {
    var ids := MembersOf(ms, p);
    var rows := RowsFor(ids, r, page);
    if ms[m].party == p {
      MembersOfComplete(ms, p, m);
      var j :| 0 <= j < |ids| && ids[j] == m;
      assert rows[j].member == m;
    }
    forall j, l | 0 <= j < |rows| && 0 <= l < |rows| && rows[j].member == rows[l].member ensures j == l {
      assert ids[j] == rows[j].member && ids[l] == rows[l].member;
    }
  }
}
