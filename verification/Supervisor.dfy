/**
  Keeping one hosted plugin up: launch it, and when it is gone wait a while and launch
  it again, longer each time it fails to stay up. Times are in milliseconds.
 */
module Supervisor {
  import opened Basics

  const MIN_BACKOFF: nat := 2
  const MAX_BACKOFF: nat := 60
  const HEALTHY_UPTIME: nat := 60_000
  const CRASH_LOOP_THRESHOLD: nat := 3

  function Min(a: nat, b: nat): nat {
    if a < b then a else b
  }

  function NextBackoff(current: nat, uptime: nat): nat {
    if uptime >= HEALTHY_UPTIME then MIN_BACKOFF else Min(current * 2, MAX_BACKOFF)
  }

  /** One launch that came to its end: the program could not be started, or it ran this long. */
  datatype Round = SpawnFails | Exits(uptime: nat)

  /** The supervisor at the head of its loop, with all the notices it has sent and the time it has taken. */
  datatype Head = Head(backoff: nat, failures: nat, reported: bool, notices: seq<bool>, elapsed: nat)

  const LAUNCHED := Head(MIN_BACKOFF, 0, false, [], 0)

  predicate Failing(r: Round) {
    r.SpawnFails? || r.uptime < HEALTHY_UPTIME
  }

  /** What is known before the wait: the failures counted and the notices sent. */
  function Judged(h: Head, r: Round): Head {
    if Failing(r) then
      var raise := h.failures + 1 >= CRASH_LOOP_THRESHOLD && !h.reported;
      h.(failures := h.failures + 1,
         reported := h.reported || raise,
         notices := h.notices + (if raise then [true] else []))
    else
      h.(failures := 0, reported := false, notices := h.notices + (if h.reported then [false] else []))
  }

  /** A failed start waits first and doubles afterwards; an exit doubles (or resets) first and then waits. */
  function Next(h: Head, r: Round): Head {
    match r
    case SpawnFails =>
      Judged(h, r).(backoff := Min(h.backoff * 2, MAX_BACKOFF), elapsed := h.elapsed + 1000 * h.backoff)
    case Exits(uptime) =>
      var b := NextBackoff(h.backoff, uptime);
      Judged(h, r).(backoff := b, elapsed := h.elapsed + uptime + 1000 * b)
  }

  function After(rounds: seq<Round>): Head {
    if rounds == [] then LAUNCHED else Next(After(rounds[..|rounds| - 1]), rounds[|rounds| - 1])
  }

  /** How many of the latest rounds, counted back from the last, were all failures. */
  function Streak(rounds: seq<Round>): (n: nat)
    ensures n <= |rounds|
    ensures forall i :: |rounds| - n <= i < |rounds| ==> Failing(rounds[i])
    ensures n < |rounds| ==> !Failing(rounds[|rounds| - n - 1])
  {
    if rounds == [] || !Failing(rounds[|rounds| - 1]) then 0 else Streak(rounds[..|rounds| - 1]) + 1
  }

  /** Raised, withdrawn, raised, withdrawn, and so on. */
  predicate Alternate(notices: seq<bool>) {
    forall i :: 0 <= i < |notices| ==> notices[i] == (i % 2 == 0)
  }

  predicate HeadOk(h: Head) {
    && h.backoff == Min(MAX_BACKOFF, Pow2(h.failures + 1))
    && (h.reported <==> h.failures >= CRASH_LOOP_THRESHOLD)
    && Alternate(h.notices)
    && (h.reported <==> |h.notices| % 2 == 1)
  }

  lemma {:induction false} BackoffAt(failures: nat)
    ensures var b := Min(MAX_BACKOFF, Pow2(failures + 1));
            && (failures == 0 ==> b == 2) && (failures == 1 ==> b == 4) && (failures == 2 ==> b == 8)
            && (failures == 3 ==> b == 16) && (failures == 4 ==> b == 32) && (failures >= 5 ==> b == 60)
  {
    if failures > 5 {
      BackoffAt(failures - 1);
    } else {
      assert Pow2(1) == 2 && Pow2(2) == 4 && Pow2(3) == 8 && Pow2(4) == 16 && Pow2(5) == 32 && Pow2(6) == 64;
    }
  }

  lemma {:induction false} NextKeepsHead(h: Head, r: Round)
    requires HeadOk(h)
    ensures HeadOk(Next(h, r)) && Alternate(Judged(h, r).notices)
  {
  }

  /**
    At every head of the loop the back-off and the notice follow from the number of
    failures in a row, and the notices sent so far strictly alternate.
   */
  lemma {:induction false} HeadFollowsStreak(rounds: seq<Round>)
    ensures After(rounds).failures == Streak(rounds) && HeadOk(After(rounds))
  {
    if rounds == [] {
      BackoffAt(0);
    } else {
      HeadFollowsStreak(rounds[..|rounds| - 1]);
      NextKeepsHead(After(rounds[..|rounds| - 1]), rounds[|rounds| - 1]);
    }
  }

  // ---------- It cannot spin ----------

  /** How far so many failures in a row can fall behind 18 seconds a round. */
  function Debt(failures: nat): nat {
    if failures < 4 then [0, 16, 30, 40][failures] else 42
  }

  /** The same in fifths of a second, against 92 seconds for five rounds. */
  function DebtInFifths(failures: nat): nat {
    if failures < 4 then [0, 82, 154, 206][failures] else 218
  }

  lemma {:induction false} NextPays(h: Head, r: Round)
    requires HeadOk(h)
    ensures var h' := Next(h, r);
            && h'.elapsed - h.elapsed >= 1000 * (18 + Debt(h.failures) - Debt(h'.failures))
            && 5 * (h'.elapsed - h.elapsed) >= 1000 * (92 + DebtInFifths(h.failures) - DebtInFifths(h'.failures))
  {
    BackoffAt(h.failures);
    NextKeepsHead(h, r);
    BackoffAt(Next(h, r).failures);
  }

  lemma {:induction false} PaidInFull(rounds: seq<Round>)
    ensures var h := After(rounds);
            && h.elapsed >= 1000 * (18 * |rounds| - Debt(h.failures))
            && 5 * h.elapsed >= 1000 * (92 * |rounds| - DebtInFifths(h.failures))
  {
    if rounds != [] {
      var before := rounds[..|rounds| - 1];
      PaidInFull(before);
      HeadFollowsStreak(before);
      NextPays(After(before), rounds[|rounds| - 1]);
    }
  }

  /** However the plugin behaves, n launches take at least 18n - 42 seconds, and in the long run five take 92. */
  lemma {:induction false} LaunchesTakeTime(rounds: seq<Round>)
    ensures After(rounds).elapsed >= 1000 * (18 * |rounds| - 42)
    ensures 5 * After(rounds).elapsed >= 1000 * (92 * |rounds| - 218)
  {
    PaidInFull(rounds);
  }

  /** Four failed starts and one run just long enough to count as healthy, over and over. */
  function FastestRounds(k: nat): seq<Round> {
    if k == 0 then []
    else FastestRounds(k - 1) + [SpawnFails, SpawnFails, SpawnFails, SpawnFails, Exits(HEALTHY_UPTIME)]
  }

  lemma {:induction false} AfterOne(rounds: seq<Round>, r: Round)
    ensures After(rounds + [r]) == Next(After(rounds), r)
  {
  }

  lemma {:induction false} AfterTwo(rounds: seq<Round>, a: Round, b: Round)
    ensures After(rounds + [a, b]) == Next(Next(After(rounds), a), b)
  {
    AfterOne(rounds, a);
    AfterOne(rounds + [a], b);
    assert rounds + [a, b] == rounds + [a] + [b];
  }

  function FourFailures(h: Head): (r: Head)
    requires h.backoff == MIN_BACKOFF
    ensures r.elapsed == h.elapsed + 30_000
  {
    Next(Next(Next(Next(h, SpawnFails), SpawnFails), SpawnFails), SpawnFails)
  }

  lemma {:induction false} FailsFourTimes(rounds: seq<Round>)
    requires After(rounds).backoff == MIN_BACKOFF
    ensures After(rounds + [SpawnFails, SpawnFails, SpawnFails, SpawnFails]) == FourFailures(After(rounds))
  {
    var r2 := rounds + [SpawnFails, SpawnFails];
    AfterTwo(rounds, SpawnFails, SpawnFails);
    AfterTwo(r2, SpawnFails, SpawnFails);
    TwoAndTwo(rounds, SpawnFails);
  }

  lemma TwoAndTwo<T>(s: seq<T>, a: T)
    ensures s + [a, a, a, a] == s + [a, a] + [a, a]
  {
  }

  /** That rate is exact: these rounds keep to it for ever. */
  lemma {:induction false} FastestIsReached(k: nat)
    ensures |FastestRounds(k)| == 5 * k
    ensures After(FastestRounds(k)).elapsed == 92_000 * k
    ensures After(FastestRounds(k)).backoff == MIN_BACKOFF
  {
    if k > 0 {
      var r := FastestRounds(k - 1);
      var fails := [SpawnFails, SpawnFails, SpawnFails, SpawnFails];
      FastestIsReached(k - 1);
      FailsFourTimes(r);
      AfterOne(r + fails, Exits(HEALTHY_UPTIME));
      assert FastestRounds(k) == r + fails + [Exits(HEALTHY_UPTIME)];
    }
  }

  // ---------- The loop ----------

  /** What the world does in one turn of the loop, and where, if anywhere, shutdown arrives in it. */
  datatype Turn = Turn(round: Round, shutdownAtHead: bool, shutdownWhileUp: bool, shutdownInWait: bool)

  function RoundsOf(turns: seq<Turn>): seq<Round> {
    seq(|turns|, i requires 0 <= i < |turns| => turns[i].round)
  }

  /** The turn in which shutdown takes effect. */
  predicate Stops(t: Turn) {
    t.shutdownAtHead || (t.round.Exits? && t.shutdownWhileUp) || t.shutdownInWait
  }

  /** The notices sent by the time this turn has brought shutdown. */
  function SentIn(h: Head, t: Turn): seq<bool> {
    if t.shutdownAtHead || (t.round.Exits? && t.shutdownWhileUp) then h.notices else Judged(h, t.round).notices
  }

  method CountFailure(failures: nat, reported: bool, notices: seq<bool>)
    returns (failures': nat, reported': bool, notices': seq<bool>)
    ensures failures' == failures + 1
    ensures reported' == (reported || failures' >= CRASH_LOOP_THRESHOLD)
    ensures notices' == if reported' && !reported then notices + [true] else notices
  {
    failures', reported', notices' := failures + 1, reported, notices;
    if failures' >= CRASH_LOOP_THRESHOLD && !reported {
      notices' := notices + [true];
      reported' := true;
    }
  }

  /** A run long enough clears the count and withdraws a notice that is out; a shorter one is a failure. */
  method JudgeExit(failures: nat, reported: bool, notices: seq<bool>, uptime: nat)
    returns (failures': nat, reported': bool, notices': seq<bool>)
    ensures var h := Judged(Head(0, failures, reported, notices, 0), Exits(uptime));
            failures' == h.failures && reported' == h.reported && notices' == h.notices
  {
    if uptime >= HEALTHY_UPTIME {
      failures', reported', notices' := 0, false, if reported then notices + [false] else notices;
    } else {
      failures', reported', notices' := CountFailure(failures, reported, notices);
    }
  }

  lemma {:induction false} OneMoreTurn(turns: seq<Turn>, n: nat)
    requires n < |turns|
    ensures var h := After(RoundsOf(turns[..n]));
            && After(RoundsOf(turns[..n + 1])) == Next(h, turns[n].round)
            && Alternate(h.notices) && Alternate(Judged(h, turns[n].round).notices)
  {
    AfterOne(RoundsOf(turns[..n]), turns[n].round);
    assert RoundsOf(turns[..n + 1]) == RoundsOf(turns[..n]) + [turns[n].round];
    HeadFollowsStreak(RoundsOf(turns[..n]));
    NextKeepsHead(After(RoundsOf(turns[..n])), turns[n].round);
  }

  /** One turn of the loop: to its end, or to where shutdown stops it. */
  method TakeTurn(t: Turn, h: Head) returns (stopped: bool, h': Head)
    ensures stopped == Stops(t)
    ensures !stopped ==> h' == Next(h, t.round)
    ensures stopped ==> h'.notices == SentIn(h, t) && h'.elapsed == h.elapsed
  {
    if t.shutdownAtHead { return true, h; }
    var backoff, failures, reported, notices := h.backoff, h.failures, h.reported, h.notices;
    match t.round {
      case SpawnFails =>
        failures, reported, notices := CountFailure(failures, reported, notices);
        if t.shutdownInWait { return true, Head(backoff, failures, reported, notices, h.elapsed); }
        return false, Head(Min(backoff * 2, MAX_BACKOFF), failures, reported, notices, h.elapsed + 1000 * backoff);
      case Exits(uptime) =>
        if t.shutdownWhileUp { return true, h; }
        failures, reported, notices := JudgeExit(failures, reported, notices, uptime);
        backoff := NextBackoff(backoff, uptime);
        if t.shutdownInWait { return true, Head(backoff, failures, reported, notices, h.elapsed); }
        return false, Head(backoff, failures, reported, notices, h.elapsed + uptime + 1000 * backoff);
    }
  }

  /**
    The supervisor's own loop. It goes through the turns up to the first that brings
    shutdown, and a notice sent at that turn's beginning still keeps the alternation.
   */
  method Supervise(turns: seq<Turn>) returns (completed: nat, notices: seq<bool>, elapsed: nat)
    ensures completed <= |turns|
    ensures forall i :: 0 <= i < completed ==> !Stops(turns[i])
    ensures completed < |turns| ==> Stops(turns[completed])
    ensures var h := After(RoundsOf(turns[..completed]));
            && elapsed == h.elapsed
            && notices == if completed == |turns| then h.notices else SentIn(h, turns[completed])
    ensures Alternate(notices)
  {
    var h := LAUNCHED;
    completed := 0;
    while completed < |turns|
      invariant completed <= |turns|
      invariant forall i :: 0 <= i < completed ==> !Stops(turns[i])
      invariant h == After(RoundsOf(turns[..completed])) && Alternate(h.notices)
    {
      OneMoreTurn(turns, completed);
      var stopped, next := TakeTurn(turns[completed], h);
      if stopped { return completed, next.notices, next.elapsed; }
      h := next;
      completed := completed + 1;
    }
    return completed, h.notices, h.elapsed;
  }
}
