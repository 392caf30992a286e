/**
 * The entity records of the game (wiki_app/models.py) with their defaults.
 * Rows are referred to by their position in the store's tables, so a
 * party's, member's or round's id is an index.
 */
module Models {

  /** A wiki page title. */
  type Title = string

  /** The opaque id of an anonymous user. */
  type UserId = nat

  type PartyId = nat
  type MemberId = nat
  type RoundId = nat
  type MemberRoundId = nat

  /** The value of `solved_at` that means "not solved yet". */
  const NotSolved: int := -1

  datatype Party = Party(timeLimit: int)

  datatype PartyMember = PartyMember(name: string, user: UserId, party: PartyId, points: int)

  /** The host of a party; the party is the row's primary key. */
  datatype AdminRole = AdminRole(party: PartyId, adminMember: MemberId)

  datatype Round = Round(
    party: PartyId,
    startPage: Title,
    endPage: Title,
    solution: seq<Title>,
    startTime: int,
    running: bool)

  datatype MemberRound = MemberRound(
    member: MemberId,
    round: RoundId,
    currentPage: Title,
    solvedAt: int)

  /** A member as `PartyMember(name=..., user=..., party=...)` creates it. */
  function NewMember(name: string, user: UserId, party: PartyId): (m: PartyMember)
    ensures m.points == 0
    ensures m.name == name && m.user == user && m.party == party
  {
    PartyMember(name, user, party, 0)
  }

  /** A round as `Round(...)` creates it: running, stamped with the clock reading `now`. */
  function NewRound(party: PartyId, start: Title, end: Title, solution: seq<Title>, now: int): (r: Round)
    ensures r.running && r.startTime == now
    ensures r.party == party && r.startPage == start && r.endPage == end && r.solution == solution
  {
    Round(party, start, end, solution, now, true)
  }

  /** A member round as `MemberRound(member=..., round=..., current_page=...)` creates it. */
  function NewMemberRound(member: MemberId, round: RoundId, page: Title): (mr: MemberRound)
    ensures !IsSolved(mr) && mr.solvedAt == NotSolved
    ensures mr.member == member && mr.round == round && mr.currentPage == page
  {
    MemberRound(member, round, page, NotSolved)
  }

  predicate IsSolved(mr: MemberRound) {
    mr.solvedAt != NotSolved
  }

  /**
   * The documented shape of a solution: the titles leading from the start
   * page to the end page, both ends included. A round keeps the shape of
   * the route `generate_round` returned.
   */
  predicate WellFormedSolution(r: Round) {
    |r.solution| >= 1 && r.solution[0] == r.startPage && r.solution[|r.solution| - 1] == r.endPage
  }
}
