/**
 * The browser side of the game page, as far as it is not drawing: the clock
 * text, the `seconds` counter and how incoming frames are routed to their
 * handlers.
 */
module WikiGame {
  import opened Wrappers
  import Protocol

  // ----- clock text -----

  predicate IsDigit(c: char) { '0' <= c <= '9' }

  predicate AllDigits(s: string) { forall i :: 0 <= i < |s| ==> IsDigit(s[i]) }

  function DigitChar(d: nat): (c: char)
    requires d < 10
    ensures IsDigit(c) && c as int - '0' as int == d
  {
    ('0' as int + d) as char
  }

  /** The decimal text of a whole number, as `String` writes it. */
  function DecimalText(n: nat): (s: string)
    ensures |s| >= 1 && AllDigits(s)
    ensures n < 10 <==> |s| == 1
  {
    if n < 10 then [DigitChar(n)] else DecimalText(n / 10) + [DigitChar(n % 10)]
  }

  /** The number a digit string denotes. */
  function DigitsValue(s: string): nat
    requires AllDigits(s)
  {
    if s == [] then 0
    else DigitsValue(s[..|s| - 1]) * 10 + (s[|s| - 1] as int - '0' as int)
  }

  /** Reading a number's decimal text back gives the number. */
  lemma {:induction false} DecimalRoundTrip(n: nat)
    ensures DigitsValue(DecimalText(n)) == n
  {
    if n >= 10 {
      DecimalRoundTrip(n / 10);
      var s := DecimalText(n);
      assert s[..|s| - 1] == DecimalText(n / 10);
    }
  }

  /** An integer as JavaScript prints it: a minus sign before a negative one. */
  function IntText(n: int): string
  {
    if n < 0 then "-" + DecimalText(-n) else DecimalText(n)
  }

  /** `toLocaleString("en-US", {minimumIntegerDigits: 2, useGrouping: false})` of a number below 100. */
  function TwoDigits(r: nat): (s: string)
    requires r < 100
    ensures |s| == 2 && AllDigits(s)
  {
    if r < 10 then "0" + DecimalText(r) else DecimalText(r)
  }

  lemma TwoDigitsRoundTrip(r: nat)
    requires r < 100
    ensures DigitsValue(TwoDigits(r)) == r
  {
    DecimalRoundTrip(r);
    if r < 10 {
      var s := TwoDigits(r);
      assert s[..1] == "0";
      assert DigitsValue(s[..1]) == 0 by {
        assert s[..1][..0] == [];
      }
    }
  }

  /**
   * `secondsToText`: whole minutes by `Math.floor`, a colon, and the
   * remainder by JavaScript's `%`, which takes the sign of the dividend, in
   * at least two digits. A negative remainder keeps its minus sign, zero
   * included (`-0` prints as "-00").
   */
  function SecondsToText(s: int): (t: string)
    ensures |t| >= 4 && IsDigit(t[|t| - 1]) && IsDigit(t[|t| - 2])
    ensures t[0] == '-' <==> s < 0
    ensures s >= 0 ==> t[|t| - 3] == ':'
    ensures s < 0 ==> t[|t| - 4] == ':' && t[|t| - 3] == '-'
  {
    IntText(s / 60) + ":" + (if s < 0 then "-" else "") + TwoDigits(if s < 0 then (-s) % 60 else s % 60)
  }

  /** For a count that is not negative: the minutes in decimal, a colon, and exactly two digits for 00 to 59. */
  lemma SecondsToTextShape(s: nat)
    ensures var t := SecondsToText(s);
            && t == DecimalText(s / 60) + ":" + t[|t| - 2..]
            && AllDigits(t[|t| - 2..]) && DigitsValue(t[|t| - 2..]) == s % 60 < 60
  {
    TwoDigitsRoundTrip(s % 60);
    SecondsToTextParts(s);
    var t := SecondsToText(s);
    assert t[|t| - 2..] == TwoDigits(s % 60);
  }

  /** The position of the first ':' in `t` at or after `from`, if any. */
  function ColonFrom(t: string, from: nat): (o: Option<nat>)
    requires from <= |t|
    ensures o.Some? ==> from <= o.value < |t| && t[o.value] == ':' && forall i :: from <= i < o.value ==> t[i] != ':'
    ensures o.None? ==> forall i :: from <= i < |t| ==> t[i] != ':'
    decreases |t| - from
  {
    if from == |t| then None
    else if t[from] == ':' then Some(from)
    else ColonFrom(t, from + 1)
  }

  /** Reads a clock text back as seconds: minutes before the first colon, seconds after it. */
  function ReadClock(t: string): Option<nat>
  {
    match ColonFrom(t, 0)
    case None => None
    case Some(i) =>
      if AllDigits(t[..i]) && AllDigits(t[i + 1..])
      then Some(DigitsValue(t[..i]) * 60 + DigitsValue(t[i + 1..]))
      else None
  }

  /** The first ':' after a run of digits is the one right after them. */
  lemma {:induction false} ColonAfterDigits(t: string, m: nat, from: nat)
    requires from <= m < |t| && t[m] == ':'
    requires forall i :: from <= i < m ==> IsDigit(t[i])
    ensures ColonFrom(t, from) == Some(m)
    decreases m - from
  {
    if from < m {
      ColonAfterDigits(t, m, from + 1);
    }
  }

  /** A clock text made of digits, a colon and digits reads back as minutes and seconds. */
  lemma {:induction false} ReadClockOfParts(m: string, r: string)
    requires AllDigits(m) && AllDigits(r)
    ensures ReadClock(m + ":" + r) == Some(DigitsValue(m) * 60 + DigitsValue(r))
  {
    var t := m + ":" + r;
    ColonAfterDigits(t, |m|, 0);
    assert t[..|m|] == m;
    assert t[|m| + 1..] == r;
  }

  /** For a count that is not negative the clock text is the minutes, a colon and two digits. */
  lemma SecondsToTextParts(s: nat)
    ensures SecondsToText(s) == DecimalText(s / 60) + ":" + TwoDigits(s % 60)
  {
    assert IntText(s / 60) == DecimalText(s / 60);
    assert DecimalText(s / 60) + ":" + "" == DecimalText(s / 60) + ":";
  }

  /** Round trip: the clock text of a count that is not negative reads back as that count. */
  lemma ClockRoundTrip(s: nat)
    ensures ReadClock(SecondsToText(s)) == Some(s)
  {
    SecondsToTextParts(s);
    ReadClockOfParts(DecimalText(s / 60), TwoDigits(s % 60));
    DecimalRoundTrip(s / 60);
    TwoDigitsRoundTrip(s % 60);
  }

  // ----- incoming frames -----

  /** The keys of a parsed frame the page looks at: `error`, `type`, and `data.time_limit`. */
  datatype Incoming = Incoming(error: Option<string>, action: Option<string>, timeLimit: Option<int>)

  /** The frame the server puts on the wire for a message. */
  function Encode(m: Protocol.Message): Incoming
  {
    match m
    case ErrorMsg(e) => Incoming(Some(e), None, None)
    case NewRoundMsg(info) => Incoming(None, Protocol.ActionName(m), Some(info.timeLimit))
    case _ => Incoming(None, Protocol.ActionName(m), None)
  }

  /** What `receiveMessage` and `parseMessage` do with a frame. */
  datatype Handler = LogError | NewGame | ForceRedirect | RoundFinished | UpdateLeaderboards | Solved | Unprocessed

  /** The action names `parseMessage` handles. */
  const ClientActions: set<string> := {"new_round", "force_redirect", "round_finished", "leaderboard_update", "solved"}

  /** A frame with an `error` key is only logged; otherwise its `type` picks the handler. */
  function Route(f: Incoming): (h: Handler)
    ensures h == LogError <==> f.error.Some?
    ensures h == Unprocessed <==> f.error.None? && (f.action.None? || f.action.value !in ClientActions)
  {
    if f.error.Some? then LogError
    else if f.action == Some("new_round") then NewGame
    else if f.action == Some("force_redirect") then ForceRedirect
    else if f.action == Some("round_finished") then RoundFinished
    else if f.action == Some("leaderboard_update") then UpdateLeaderboards
    else if f.action == Some("solved") then Solved
    else Unprocessed
  }

  /** Every frame the server sends reaches the handler meant for it; none is left unprocessed. */
  lemma ServerFramesRouted(m: Protocol.Message)
    ensures Route(Encode(m)) != Unprocessed
    ensures m.ErrorMsg? <==> Route(Encode(m)) == LogError
    ensures m.NewRoundMsg? <==> Route(Encode(m)) == NewGame
    ensures m.ForceRedirectMsg? <==> Route(Encode(m)) == ForceRedirect
    ensures m.RoundFinishedMsg? <==> Route(Encode(m)) == RoundFinished
    ensures m.LeaderboardUpdateMsg? <==> Route(Encode(m)) == UpdateLeaderboards
    ensures m.SolvedMsg? <==> Route(Encode(m)) == Solved
  {
  }

  // ----- the clock -----

  /** The page's `seconds` counter. */
  class Clock {
    var seconds: int

    constructor ()
      ensures seconds == 0
    {
      seconds := 0;
    }

    /** One interval tick: count down while above zero, then show the text. */
    method Tick() returns (text: string)
      modifies this
      ensures seconds == if old(seconds) > 0 then old(seconds) - 1 else old(seconds)
      ensures old(seconds) >= 0 ==> seconds >= 0
      ensures text == SecondsToText(seconds)
    {
      if seconds > 0 {
        seconds := seconds - 1;
      }
      text := SecondsToText(seconds);
    }

    /**
     * `receiveMessage`: `newGame` sets the counter to the frame's time
     * limit, `roundFinished` sets it to zero, and nothing else touches it.
     */
    method Receive(f: Incoming) returns (h: Handler)
      requires Route(f) == NewGame ==> f.timeLimit.Some?
      modifies this
      ensures h == Route(f)
      ensures h == NewGame ==> seconds == f.timeLimit.value
      ensures h == RoundFinished ==> seconds == 0
      ensures h != NewGame && h != RoundFinished ==> seconds == old(seconds)
    {
      if f.error.Some? {
        return LogError;
      }
      h := Route(f);
      if h == NewGame {
        seconds := f.timeLimit.value;
      } else if h == RoundFinished {
        seconds := 0;
      }
    }
  }
}
