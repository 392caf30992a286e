# wiki-race, modelled in Dafny

wiki-race is a multiplayer Wikipedia race. A host creates a **party** with a
time limit, and others **join** it as members. The host starts a **round**,
which sets a start page and an end page. Every member starts at the start
page and follows links; the first arrival on the end page is a **solve**. A
member who solves earns a fixed bonus plus the seconds left. A round ends
in one of three ways: when its time runs out, when every member has solved,
or when the host ends it early. At the end everyone gets the solution and a
**leaderboard**.

The model covers the game's core:

- **Store** (`db.dfy`, module `Db`). A class holding the five tables:
  parties, members, admin roles, rounds and member rounds. Its methods are
  the operations of `wiki_app/data/db.py`, with one correction: a click
  uses the clamped solve time of the Findings table below. Its predicate
  `Valid` is the referential integrity of the schema, plus "one member
  round per (round, member)", plus "`solved_at` is never below -1". The
  last part holds because of the clamp. The leaderboard order is Python's stable `list.sort`, specified
  in `leaderboard.dfy`.
- **Websocket consumer** (`consumers.dfy`, module `Consumers`). One
  connection is a class holding the shared store, the connection's user,
  party and member, and the log of frames it has sent. Each frame is tagged
  as going to the caller only or to the whole party. Each handler is a
  method whose contract states:
  - the order of its error checks;
  - the new state of the tables;
  - exactly which frames it appends.
- **Records** (`models.dfy`). The entity records (`wiki_app/models.py`) and
  their defaults.
- **Frames** (`protocol.dfy`). The frames exchanged with the browser.
- **Link filters and rewrite loops** (`links.dfy`, `wiki_format.dfy`,
  `race_format.dfy`). These are the two page formatters. A link is the
  attribute map of one `<a>` element.
- **Route check** (`route_check.dfy`). The validation of a requested round
  route.
- **Browser clock** (`wikigame.dfy`). The clock text, the `seconds` counter
  and message routing of `static/js/wikigame.js`.

Some inputs of the source are not computed in the model:

- The settings `POINTS_FOR_SOLVING`, `MIN_TIME_LIMIT_SECONDS` and
  `MAX_TIME_LIMIT_SECONDS` are not defined in the modelled code. They are
  the store's `Config`.
- Time is an integer parameter `now`, the server clock in whole seconds. A
  round records `now` as its start time.
- The wiki service helpers are parameters, as uninterpreted functions or as
  the value a call returned (`WikiApi`). These are `compare_titles`,
  `check_valid_transition`, `check_page_exists` and `generate_round`.
- Ids are positions in the tables. Users are opaque numbers.

Decisions where the code was followed closely:

- `get_member` uses `.get()` under a bare `except`. So it answers "no
  member" both when the user has no row and when the user joined twice and
  has two. `GetMember` states both cases.
- `latest("start_time")` is the round with the greatest start time. Among
  equal start times, the model picks the one created last.
- `members.all()` is taken in table order. Django gives no order, so the
  board's order among members with equal points is table order in the
  model.
- A connection that is refused ends there: nothing is sent and the store is
  untouched. The source calls `close()` without returning (consumers.py:28-29).
  It does not go on to send anything, because `room_name` is not set on that
  path, so the next `group_add` fails.
- A frame without a `type` key raises `KeyError` in `receive`, which ends the
  connection; the model closes it.

## Model

| member | source | states |
|---|---|---|
| Models.NewMember | wiki_app/models.py:30-33 | a new member has the given name, user and party, and 0 points |
| Models.NewRound | wiki_app/models.py:47-70 | a new round is running and its start time is the moment of creation |
| Models.NewMemberRound | wiki_app/models.py:80-86 | a new member round is at the given page and not solved (`solved_at` = -1) |
| Leaderboard.SortIsSorted | wiki_app/data/db.py:155 | the sorted board has points non-increasing and the same length |
| Leaderboard.SortPermutes | wiki_app/data/db.py:155 | sorting yields a permutation of the rows (same multiset) |
| Leaderboard.SortIsStable | wiki_app/data/db.py:155 | for every points value, the rows with that value keep their relative order |
| Leaderboard.SortedTiesDetermine | wiki_app/data/db.py:155 | a sorted sequence is determined by its rows per points value, so a sorted, stable permutation is unique |
| Leaderboard.SortAdminCount | wiki_app/data/db.py:150-155 | sorting keeps the number of rows marked `is_admin` |
| Db.MembersOf | wiki_app/data/db.py:115 | the ids of the party's members, each of that party, in strictly increasing table order |
| Db.MembersOfComplete | wiki_app/data/db.py:115 | every member of the party is among them |
| Db.LatestRound | wiki_app/data/db.py:176-184 | a round of the party with the greatest start time, later rows winning ties; none exactly when the party has no round |
| Db.FindMemberRound | wiki_app/data/db.py:197-200 | a row of that member in that round, or none exactly when there is no such row |
| Db.CountUnsolved | wiki_app/data/db.py:238 | zero exactly when every row of the round has `solved_at` ≠ -1 |
| Db.ClickAsWritten | wiki_app/data/db.py:211-231 | as written: the page becomes the clicked one; on a solve `solved_at` is the seconds left and the points grow by bonus plus that value |
| Db.SolvedAt | wiki_app/data/db.py:222 | corrected solve time: the seconds left when not negative, never below zero |
| Db.Click | wiki_app/data/db.py:218-229 | corrected click: the page becomes the clicked one and member and round are kept. A solve marks the row solved and adds bonus plus the recorded seconds to the points. A non-solving click keeps `solved_at` and the points |
| Db.AsWrittenLateSolveScoresTwice | wiki_app/data/db.py:219-224 | as written, a solve with -1 seconds left leaves the row "not solved" and a second solve scores again |
| Db.SolveIsFinal | wiki_app/data/db.py:219-229 | with the clamp, a solving click always marks the row solved and, for a non-negative bonus, never lowers the points |
| Db.NewRoundKeepsRouteShape | wiki_app/models.py:60-63 | a round recorded from a route that starts at the start page and ends at the end page has a solution of the documented shape |
| Db.NewRoundKeepsValid | wiki_app/data/db.py:112-117 | adding a round with one fresh row per party member keeps the tables consistent, including one row per (round, member) |
| Db.StopKeepsValid | wiki_app/data/db.py:166-167 | stopping a round keeps the tables consistent |
| Db.NewRoundRowPerMember | wiki_app/data/db.py:115-117 | `new_round`'s rows are one per member of the party and none for others; each is at the start page, of the new round, and unsolved |
| Db.Store.IsAdminOwnsAdminMember | wiki_app/data/db.py:83-91 | the user is admin exactly when the party exists and the user owns its admin member (a member of that party, by `AdminMember`); a party without an admin role answers false |
| Db.Store.AdminMember | wiki_app/models.py:43-44 | the admin member of a party exists and belongs to that party |
| Db.Store.GetMember | wiki_app/data/db.py:94-102 | the member if the user has exactly one row in the party. None both when there is no row and when there are two or more |
| Db.Store.LatestPartyRound | wiki_app/data/db.py:176-184 | the party's latest round by start time, or none exactly when it has no round |
| Db.Store.LatestMemberRound | wiki_app/data/db.py:187-200 | the member's row in the party's latest round. None exactly when the party has no round or the member has no row in it |
| Db.Store.LeftSeconds | wiki_app/data/db.py:203-208 | seconds left plus seconds elapsed since the start equals the party's time limit |
| Db.Store.CheckIfTimeRanOut | wiki_app/data/db.py:248-259 | true exactly when no second is left (≤ 0) and the round is still marked running |
| Db.Store.HaveAllSolved | wiki_app/data/db.py:234-238 | true exactly when no row of the round has `solved_at` = -1 |
| Db.Store.InitialRoundInfo | wiki_app/data/db.py:122-128 | the round's start and end pages with the party's full time limit |
| Db.Store.TimeSpecificRoundInfo | wiki_app/data/db.py:131-138 | the initial info with the seconds left in place of the time limit |
| Db.Store.CreateParty | wiki_app/data/db.py:34-59 | errors in order: missing time limit, time limit outside [min, max], missing name; nothing changes on error. A form with a time limit in range and a name always succeeds. On success it adds exactly one party, one member with 0 points and one admin role, and the creator is then admin |
| Db.Store.JoinParty | wiki_app/data/db.py:62-80 | errors in order: missing game id, missing name, unknown party. A form with an id and a name always succeeds when the party exists. On success it appends exactly one member, with no duplicate check |
| Db.Store.NewRound | wiki_app/data/db.py:105-119 | appends one running round and the rows of `RowsFor(MembersOf(...))` (one unsolved row per member at the start page); nothing else changes |
| Db.Store.MemberClick | wiki_app/data/db.py:211-231 | the row and the member's points become those of `Click` with the seconds left; no other row or member changes |
| Db.Store.GetOrCreateMemberRound | wiki_app/data/db.py:241-245 | an existing row is returned with nothing changed; otherwise exactly one row at the start page is added |
| Db.Store.FinishRound | wiki_app/data/db.py:160-173 | the round stops, running or not, and the result is its solution with the party's leaderboard |
| Db.Store.GenerateLeaderboards | wiki_app/data/db.py:141-157 | the result is the party's rows (name, admin flag, points) in table order, sorted stably by points descending |
| Db.Store.LeaderboardRanksMembers | wiki_app/data/db.py:146-155 | the leaderboard has one row per party member, is ordered by points, is a permutation of the members' rows, and keeps ties in order |
| Db.Store.LeaderboardMarksAdmin | wiki_app/data/db.py:146-152 | a row is marked as the host's exactly when it is the admin member's; exactly one board row is marked |
| Db.Store.IsAdminOwnsMarkedRow | wiki_app/data/db.py:83-91 | `is_admin(party, user)` holds exactly when the user owns the leaderboard row marked as the host's |
| Db.Store.AdminRoleOneToOne | wiki_app/models.py:43-44 | two parties have different admin members |
| Protocol.ActionName | wiki_app/websockets/consumers.py:112-122 | error frames carry no `type`; every other frame carries one |
| Protocol.ActionNamesDistinct | wiki_app/websockets/consumers.py:118-122 | different kinds of frame carry different action names |
| Consumers.GameConsumer.ActiveRow | wiki_app/websockets/consumers.py:236-239 | the member's row in the latest round if that round runs: the result is then `LatestMemberRound(member)`. None exactly when there is no such row or the round has stopped |
| Consumers.GameConsumer.Connect | wiki_app/websockets/consumers.py:21-69 | an unknown party or a user who is not exactly one member closes the connection with nothing sent and nothing changed. Otherwise it opens with the member and admin flag, broadcasts the leaderboard, then sends the recovery frames |
| Consumers.GameConsumer.SendConnectedMember | wiki_app/websockets/consumers.py:165-189 | nothing without a running round. If the time ran out, it sends the round's end to the party. Otherwise it sends `new_round` with the seconds left, `force_redirect` to the member's page, then `solved` only if solved. A row is created only when none exists |
| Consumers.GameConsumer.ResumeRound | wiki_app/websockets/consumers.py:179-189 | a reconnecting member of a round still in time gets the round info with the time left, then a redirect to the row's current page, then `solved` if the row is solved; a member without a row gets a fresh one at the start page; no other table changes |
| Consumers.GameConsumer.UpdateLeaderboards | wiki_app/websockets/consumers.py:156-163 | appends one party frame with the leaderboard |
| Consumers.GameConsumer.AnnounceFinishRound | wiki_app/websockets/consumers.py:142-154 | a stopped round: nothing sent, nothing changed. A running round: it stops, and exactly one party frame `round_finished` with its solution and leaderboard is sent. Afterwards it is stopped, so a repeat does nothing |
| Consumers.GameConsumer.FinishIfAllSolved | wiki_app/websockets/consumers.py:191-197 | the round is announced finished exactly when every row of it is solved and the round is still running; otherwise nothing is sent or changed |
| Consumers.GameConsumer.Receive | wiki_app/websockets/consumers.py:82-95 | a frame without `type` closes the connection. An unknown type gets exactly one direct `notfound` error and changes nothing. Each known type runs its handler: the result satisfies `NewRoundOutcome`, `ClickOutcome` or `FinishEarlyOutcome`, which state the handlers' contracts. The connection stays open |
| Consumers.GameConsumer.NewRoundHandler | wiki_app/websockets/consumers.py:202-223 | non-host: `not admin`, nothing changed. The host's latest round still running: `another round is running`, nothing changed. Otherwise one round and its rows are created, and one party frame `new_round` carries start page, end page and the full time limit. Stated as `NewRoundOutcome` |
| Consumers.GameConsumer.ClickHandler | wiki_app/websockets/consumers.py:226-258 | errors in order, each changing nothing: `no destination`, `no active round`, `already solved`. An invalid move gets `force_redirect` to the unchanged page. Otherwise it records the click: a solve broadcasts the leaderboard, then sends `solved`, and the round ends only when all have solved. Stated as `ClickOutcome` |
| Consumers.GameConsumer.RecordClick | wiki_app/websockets/consumers.py:251-258 | the click's effect on row and points, then the round is stopped and announced exactly when all rows are solved |
| Consumers.GameConsumer.ClickAndReport | wiki_app/websockets/consumers.py:251-256 | `member_click`, and on a solve a party leaderboard frame followed by a direct `solved` |
| Consumers.GameConsumer.FinishEarlyHandler | wiki_app/websockets/consumers.py:263-277 | non-host: `not admin`, nothing changed. No round: `no active round`, nothing changed. Otherwise as `announce_finish_round` on the latest round. Stated as `FinishEarlyOutcome` |
| Links.StripPrefix | wiki_parser/page_formatter.py:15 | the rest after a literal prefix, present exactly when the prefix matches; prefix plus rest gives the input |
| Links.ClassStar | wiki_parser/page_formatter.py:15 | a negated character class matched over the whole string: true exactly when no character is excluded |
| Links.MatchTitleExact | wiki_parser/page_formatter.py:15-18 | the pattern matches with group `t` exactly when the address is `/wiki/` + `t` and `t` avoids the class |
| Links.MatchTitleRoundTrip | wiki_parser/page_formatter.py:15-18 | the prefix plus the matched title gives the address back, and every title that avoids the class is matched back to itself |
| WikiFormat.FormatLink | wiki_parser/page_formatter.py:8-18 | when defined, `/wiki/` + the result is the input and the result holds no '/' or ':' |
| WikiFormat.FormatLinkExact | wiki_parser/page_formatter.py:15-18 | `_format_link(u) = t` exactly when `u` = `/wiki/` + `t` with no '/' or ':' in `t` |
| WikiFormat.FormatLinkBarePrefix | wiki_parser/page_formatter.py:15-18 | the bare `/wiki/` is accepted and yields the empty title |
| WikiFormat.FormatLinkRejectsNamespaces | wiki_parser/page_formatter.py:15-18 | a title containing ':' is not an internal link |
| WikiFormat.FormatAnchor | wiki_parser/page_formatter.py:30-52 | skipped links are unchanged. A non-internal href is removed. An internal link's href becomes the bare title and it gains the click message for that title. No other attribute changes |
| WikiFormat.FormatAnchors | wiki_parser/page_formatter.py:29-54 | every link, in place and in order, becomes its rewritten form; their number is unchanged |
| RaceFormat.FilterLink | wiki_race/parser/page_formatter.py:7-13 | when defined, `/wiki/` + the result is the input and the result holds no '/' |
| RaceFormat.FilterLinkExact | wiki_race/parser/page_formatter.py:8-13 | `filter_link(d) = t` exactly when `d` = `/wiki/` + `t` with no '/' in `t` |
| RaceFormat.FilterLinkAllowsNamespaces | wiki_race/parser/page_formatter.py:8-13 | a title with ':', such as `File:...`, passes |
| RaceFormat.RaceAnchor | wiki_race/parser/page_formatter.py:20-28 | skipped links are unchanged. A non-internal href is removed. An internal link keeps its href and gains `onclick` = `console.log("<title>");`. No other attribute changes |
| RaceFormat.RaceAnchors | wiki_race/parser/page_formatter.py:16-29 | every link, in place and in order, becomes its rewritten form |
| RouteCheck.CheckNewRoundRoute | wiki_app/websockets/utils.py:8-20 | succeeds with exactly (origin, target) iff both keys exist, the pages differ and both exist. Failures in order: missing origin, missing target, same pages, missing start page, missing end page |
| RouteCheck.SamePagesSkipExistence | wiki_app/websockets/utils.py:14-15 | two titles naming the same page are refused whatever the existence check would say |
| WikiGame.DecimalRoundTrip | static/js/wikigame.js:5 | the decimal text of the minutes reads back as the number |
| WikiGame.SecondsToText | static/js/wikigame.js:4-9 | at least four characters ending in two digits. A leading '-' exactly for a negative count. For a count that is not negative, ':' comes right before the two digits; for a negative one, ':' and '-' come before them |
| WikiGame.TwoDigits | static/js/wikigame.js:5-8 | the seconds part is exactly two digits |
| WikiGame.SecondsToTextShape | static/js/wikigame.js:4-9 | for s ≥ 0: `floor(s/60)` in decimal, ':', then exactly two digits whose value is `s mod 60`, between 00 and 59 |
| WikiGame.ClockRoundTrip | static/js/wikigame.js:4-9 | for s ≥ 0, reading minutes·60 + seconds back from the text gives s |
| WikiGame.Route | static/js/wikigame.js:134-164 | frames with an error are only logged. Exactly the five types new_round, force_redirect, round_finished, leaderboard_update and solved reach a handler; any other type, or none, is unprocessed |
| WikiGame.ServerFramesRouted | static/js/wikigame.js:134-164 | every frame the server sends reaches the handler for its kind; none is unprocessed |
| WikiGame.Clock.Tick | static/js/wikigame.js:11-17 | the counter goes down by one only when above zero, so a non-negative counter stays non-negative; the shown text is that of the new count |
| WikiGame.Clock.Receive | static/js/wikigame.js:70-164 | the handler is the frame's route. `new_round` sets the counter to the frame's time limit and `round_finished` sets it to 0; nothing else touches it |

## Left out

- Channel-layer transport (`group_add`, `group_discard`, `group_send`) and `sync_to_async` are not modelled: a frame to the group is one log entry tagged with the party. Which connections belong to the group and delivery order across connections are not modelled.
- The round timer (`asyncio.sleep`, `ensure_future`): its expiry is a call of `GameConsumer.AnnounceFinishRound` on the round, so the model has no scheduled task.
- The base64 room name: the party id stands for it.
- The blanket `except` in the click handler: the modelled operations raise nothing, so there is nothing for it to log. Logging is not modelled either: the warning `check_if_time_ran_out` writes for a round found past its deadline (db.py:258) is dropped.
- `disconnect` is not modelled; it only leaves the channel group.
- The wiki service: `compare_titles`, `check_valid_transition`, `check_page_exists` and `generate_round` are not defined in the modelled code. They are uninterpreted parameters with no assumed normalisation. `load_wiki_article` is an HTTP request.
- BeautifulSoup parsing and `prettify`: links are abstract attribute maps. The `json.dumps` text of a link's click message is the value `ClickMessage(title)`.
- Django HTTP, cookies and `get_user`, the view modules, URL routing, ASGI setup, the admin registration and `protocol_handlers.py`: dispatch is the fixed set {new_round, click, finish_early}. As written, the registry's wrapper (protocol_handlers.py:22-24) calls each handler with three arguments, the consumer, the frame and a client session. The handlers take two (consumers.py:203, 227, 264), so every known action would raise `TypeError`. The model calls the handlers as evidently intended.
- `wiki_parser/tests.py` is not part of this model; it needs the network and imports a view that does not exist.
- Floating-point time: `timezone.now()` and `total_seconds()` are replaced by the integer `now`, and elapsed time is `now - start`.
- jQuery, the DOM, the iframe, `window.onmessage` and the socket of `wikigame.js`; of the handlers only their effect on `seconds` is modelled.
- Column widths are not modelled. The schema runs on PostgreSQL (wiki_app/models.py:64), where each `CharField(max_length=100)` is a `varchar(100)` that refuses a longer value when it is saved. The model has no such error. So every save of a name or title over 100 characters succeeds in the model, where the source raises. Among these saves:
  - `join_party` saves the member (db.py:78), so a name over 100 characters adds no member and the error propagates. `Db.Store.JoinParty` succeeds there.
  - `new_round` saves the round (db.py:113) and then each member round (db.py:116-117). A start page, end page or solution title over 100 characters from `generate_round` fails the first save. `Db.Store.NewRound` records the round.
  - `create_party` saves the party (db.py:51) before the member. A name over 100 characters then fails at db.py:54 and leaves a party with no member and no admin role.
  - `member_click` saves the points (db.py:225) before the row. A clicked title over 100 characters then fails at db.py:229, and the click handler logs the error (consumers.py:259-260).
- `WellFormedSolution` states the documented shape of a solution. The store does not check it: it keeps the shape of the route `generate_round` returned (`Db.NewRoundKeepsRouteShape`).
- Concurrency: each consumer method runs to completion on its own. Two connections can interleave between a check and an update; this race is not modelled. Because of it, the store does not promise at most one running round per party, and neither does the model.
- Db.Store.MemberClick: the store, and with it `ClickHandler`, `RecordClick` and `ClickAndReport`, uses the corrected click `Click`, not db.py:222-224 as written. With negative seconds left, the source stores that negative `solved_at` and adds the bonus plus that negative number; the model stores 0 and adds the full bonus. The code as written is `Db.ClickAsWritten`.
- Db.Store.JoinParty: the form's `game_id` is already a party id. A malformed id string is not modelled.
- Db.Store.CreateParty: `int(form["time_limit_seconds"])` on a string that is not a number raises `ValueError`; the form's field is already an integer.
- WikiGame.Clock.Receive: a `new_round` frame without `time_limit` would set the counter to `undefined`. It is required to carry one, as every server frame does.
- WikiGame.SecondsToTextShape, WikiGame.ClockRoundTrip: only stated for counts that are not negative. `SecondsToText` itself follows JavaScript for negative counts, including the "-0" remainder printed as "-00".

## Findings

| source | as written | input that shows it | evidently intended | confidence | as-written member | corrected member |
|---|---|---|---|---|---|---|
| wiki_app/data/db.py:222-224 | on a solving click `solved_at` is set to the seconds left, whatever their sign, and -1 is also the "not solved" mark | a solve with 1 second past the deadline in a round still marked running (its timer lost, e.g. by a restart), so `get_left_seconds` = -1: the row stays "not solved", `have_all_solved` stays false, and a second solving click adds the bonus again (0 → 99 → 198 with a bonus of 100) | a solve is always recorded as solved; the recorded seconds are clamped at 0 | not executed | Db.AsWrittenLateSolveScoresTwice | Db.SolveIsFinal |
