/**
  The sliding-window limiter in front of the unauthenticated endpoints. It keeps, per
  address, only the accepted attempts young enough to matter, and forgets addresses with
  none; the reference it is held against keeps every accepted attempt for ever. Times
  are in nanoseconds.
 */
module RateLimit {
  type Ip = string

  const MAX_ATTEMPTS: nat := 5
  const SECOND: nat := 1_000_000_000
  const WINDOW: nat := 60 * SECOND

  datatype Attempt = Attempt(ip: Ip, at: nat)
  datatype Verdict = Accepted | Refused(retryAfter: nat)

  type Buckets = map<Ip, seq<nat>>

  /** Elapsed time, zero when the clock readings are out of order. */
  function Age(now: nat, t: nat): nat {
    if now >= t then now - t else 0
  }

  function Young(times: seq<nat>, now: nat): seq<nat> {
    if times == [] then []
    else
      var young := Young(times[..|times| - 1], now);
      if Age(now, times[|times| - 1]) < WINDOW then young + [times[|times| - 1]] else young
  }

  // ---------- The limiter ----------

  function Pruned(b: Buckets, now: nat): Buckets {
    map ip | ip in b && Young(b[ip], now) != [] :: Young(b[ip], now)
  }

  function Bucket(b: Buckets, ip: Ip): seq<nat> {
    if ip in b then b[ip] else []
  }

  function RetryAfter(oldest: nat, now: nat): nat {
    (if WINDOW >= Age(now, oldest) then WINDOW - Age(now, oldest) else 0) / SECOND + 1
  }

  function VerdictOn(b: Buckets, a: Attempt): Verdict {
    var entry := Bucket(Pruned(b, a.at), a.ip);
    if |entry| >= MAX_ATTEMPTS then Refused(RetryAfter(entry[0], a.at)) else Accepted
  }

  function Recorded(b: Buckets, a: Attempt): Buckets {
    var p := Pruned(b, a.at);
    if VerdictOn(b, a).Refused? then p else p[a.ip := Bucket(p, a.ip) + [a.at]]
  }

  function BucketsAfter(attempts: seq<Attempt>): Buckets {
    if attempts == [] then map[] else Recorded(BucketsAfter(attempts[..|attempts| - 1]), attempts[|attempts| - 1])
  }

  // ---------- The reference ----------

  /** All accepted attempts of one address, when an attempt is accepted if fewer than five accepted ones are young. */
  function Log(attempts: seq<Attempt>, ip: Ip): seq<nat> {
    if attempts == [] then []
    else
      var before, a := attempts[..|attempts| - 1], attempts[|attempts| - 1];
      var log := Log(before, ip);
      if a.ip == ip && |Young(log, a.at)| < MAX_ATTEMPTS then log + [a.at] else log
  }

  predicate InOrder(attempts: seq<Attempt>) {
    forall i, j :: 0 <= i < j < |attempts| ==> attempts[i].at <= attempts[j].at
  }

  predicate Sorted(times: seq<nat>) {
    forall i, j :: 0 <= i < j < |times| ==> times[i] <= times[j]
  }

  // ---------- Young ones ----------

  lemma {:induction false} YoungOfYoung(times: seq<nat>, now: nat, later: nat)
    requires now <= later
    ensures Young(Young(times, now), later) == Young(times, later)
  {
    if times != [] {
      var front, t := times[..|times| - 1], times[|times| - 1];
      YoungOfYoung(front, now, later);
      if Age(now, t) < WINDOW {
        assert (Young(front, now) + [t])[..|Young(front, now)|] == Young(front, now);
      }
    }
  }

  lemma {:induction false} YoungSnoc(times: seq<nat>, t: nat, now: nat)
    ensures Young(times + [t], now) == if Age(now, t) < WINDOW then Young(times, now) + [t] else Young(times, now)
  {
  }

  lemma {:induction false} YoungFrom(times: seq<nat>, now: nat, k: nat)
    requires k <= |times|
    requires forall i :: 0 <= i < |times| ==> (Age(now, times[i]) < WINDOW <==> k <= i)
    ensures Young(times, now) == times[k..]
  {
    if times != [] {
      var front := times[..|times| - 1];
      YoungFrom(front, now, if k == |times| then k - 1 else k);
      assert k < |times| ==> times[k..] == front[k..] + [times[|times| - 1]];
    }
  }

  /** Of times in order, the young ones are the last so many. */
  lemma {:induction false} YoungIsSuffix(times: seq<nat>, now: nat)
    requires Sorted(times)
    ensures |Young(times, now)| <= |times|
    ensures Young(times, now) == times[|times| - |Young(times, now)|..]
    ensures forall i :: 0 <= i < |times| ==> (Age(now, times[i]) < WINDOW <==> |times| - |Young(times, now)| <= i)
  {
    var k := 0;
    while k < |times| && Age(now, times[k]) >= WINDOW
      invariant k <= |times|
      invariant forall i :: 0 <= i < k ==> Age(now, times[i]) >= WINDOW
    {
      k := k + 1;
    }
    YoungFrom(times, now, k);
  }

  // ---------- The limiter agrees with the reference ----------

  /** No later than this. */
  predicate UpTo(times: seq<nat>, now: nat) {
    forall i :: 0 <= i < |times| ==> times[i] <= now
  }

  lemma SortedSnoc(times: seq<nat>, t: nat)
    requires Sorted(times) && UpTo(times, t)
    ensures Sorted(times + [t]) && UpTo(times + [t], t)
  {
  }

  lemma {:induction false} LogInOrder(attempts: seq<Attempt>, ip: Ip, now: nat)
    requires InOrder(attempts) && (attempts != [] ==> attempts[|attempts| - 1].at <= now)
    ensures Sorted(Log(attempts, ip)) && UpTo(Log(attempts, ip), now)
  {
    if attempts != [] {
      var before, a := attempts[..|attempts| - 1], attempts[|attempts| - 1];
      LogInOrder(before, ip, a.at);
      SortedSnoc(Log(before, ip), a.at);
    }
  }

  lemma BucketPruned(b: Buckets, now: nat, ip: Ip)
    ensures Bucket(Pruned(b, now), ip) == Young(Bucket(b, ip), now)
  {
  }

  /** Nothing that could still matter is ever pruned, for any address, at any later time. */
  lemma {:induction false} BucketsHoldTheYoung(attempts: seq<Attempt>, ip: Ip, now: nat)
    requires InOrder(attempts) && (attempts != [] ==> attempts[|attempts| - 1].at <= now)
    ensures Young(Bucket(BucketsAfter(attempts), ip), now) == Young(Log(attempts, ip), now)
  {
    if attempts != [] {
      var before, a := attempts[..|attempts| - 1], attempts[|attempts| - 1];
      var b := BucketsAfter(before);
      BucketsHoldTheYoung(before, ip, a.at);
      BucketPruned(b, a.at, ip);
      var entry := Bucket(Pruned(b, a.at), ip);
      YoungOfYoung(Log(before, ip), a.at, now);
      if a.ip == ip && |entry| < MAX_ATTEMPTS {
        assert Bucket(BucketsAfter(attempts), ip) == entry + [a.at];
        YoungSnoc(entry, a.at, now);
        YoungSnoc(Log(before, ip), a.at, now);
      } else {
        assert Bucket(BucketsAfter(attempts), ip) == entry;
      }
    }
  }

  /**
    The verdict is the reference's: accept exactly when fewer than five accepted attempts of
    this address are young.
   */
  lemma {:induction false} LimiterAgrees(attempts: seq<Attempt>, a: Attempt)
    requires InOrder(attempts + [a])
    ensures VerdictOn(BucketsAfter(attempts), a).Accepted? <==> |Young(Log(attempts, a.ip), a.at)| < MAX_ATTEMPTS
    ensures Bucket(Pruned(BucketsAfter(attempts), a.at), a.ip) == Young(Log(attempts, a.ip), a.at)
  {
    InOrderFront(attempts, a);
    BucketsHoldTheYoung(attempts, a.ip, a.at);
    BucketPruned(BucketsAfter(attempts), a.at, a.ip);
  }

  lemma {:induction false} InOrderFront(attempts: seq<Attempt>, a: Attempt)
    requires InOrder(attempts + [a])
    ensures InOrder(attempts) && (attempts != [] ==> attempts[|attempts| - 1].at <= a.at)
  {
    var all := attempts + [a];
    assert forall i :: 0 <= i < |attempts| ==> all[i] == attempts[i];
    assert all[|attempts|] == a;
  }

  // ---------- What that means ----------

  /** Six accepted attempts in a row of one address span at least the window. */
  lemma {:induction false} AcceptsAreSpaced(attempts: seq<Attempt>, ip: Ip, i: nat)
    requires InOrder(attempts) && i + MAX_ATTEMPTS < |Log(attempts, ip)|
    ensures Log(attempts, ip)[i + MAX_ATTEMPTS] - Log(attempts, ip)[i] >= WINDOW
  {
    if attempts != [] {
      var before, a := attempts[..|attempts| - 1], attempts[|attempts| - 1];
      var log := Log(before, ip);
      LogInOrder(before, ip, a.at);
      if i + MAX_ATTEMPTS < |log| {
        AcceptsAreSpaced(before, ip, i);
      } else {
        YoungIsSuffix(log, a.at);
      }
    }
  }

  /** The times that fall in the half-open window beginning here. */
  function Within(times: seq<nat>, from: nat): seq<nat> {
    if times == [] then []
    else
      var within := Within(times[..|times| - 1], from);
      if from <= times[|times| - 1] < from + WINDOW then within + [times[|times| - 1]] else within
  }

  /** The times of a sorted list in a window stand next to each other. */
  lemma {:induction false} WithinIsSlice(times: seq<nat>, from: nat) returns (lo: nat)
    requires Sorted(times)
    ensures lo + |Within(times, from)| <= |times|
    ensures forall i :: lo <= i < lo + |Within(times, from)| ==> from <= times[i] < from + WINDOW
    ensures forall i :: 0 <= i < lo ==> times[i] < from
    ensures forall i :: lo + |Within(times, from)| <= i < |times| ==> times[i] >= from + WINDOW
  {
    lo := 0;
    if times != [] {
      var front := times[..|times| - 1];
      lo := WithinIsSlice(front, from);
      if times[|times| - 1] < from {
        assert |Within(front, from)| == 0;
        lo := |times|;
      }
    }
  }

  // ---------- The limiter's own accepts ----------

  /** The times at which the limiter, working through all attempts of all addresses, accepts this one. */
  function Accepts(attempts: seq<Attempt>, ip: Ip): seq<nat> {
    if attempts == [] then []
    else
      var before, a := attempts[..|attempts| - 1], attempts[|attempts| - 1];
      var accepts := Accepts(before, ip);
      if a.ip == ip && VerdictOn(BucketsAfter(before), a).Accepted? then accepts + [a.at] else accepts
  }

  /** What the limiter accepts is exactly what the never-pruned reference does. */
  lemma {:induction false} AcceptsAreTheLog(attempts: seq<Attempt>, ip: Ip)
    requires InOrder(attempts)
    ensures Accepts(attempts, ip) == Log(attempts, ip)
  {
    if attempts != [] {
      var before, a := attempts[..|attempts| - 1], attempts[|attempts| - 1];
      assert attempts == before + [a];
      AcceptsAreTheLog(before, ip);
      LimiterAgrees(before, a);
    }
  }

  /** In any half-open minute, wherever it begins, the limiter accepts at most five attempts of one address. */
  lemma {:induction false} AtMostFivePerWindow(attempts: seq<Attempt>, ip: Ip, from: nat)
    requires InOrder(attempts)
    ensures |Within(Accepts(attempts, ip), from)| <= MAX_ATTEMPTS
  {
    AcceptsAreTheLog(attempts, ip);
    LogInOrder(attempts, ip, if attempts == [] then 0 else attempts[|attempts| - 1].at);
    var lo := WithinIsSlice(Log(attempts, ip), from);
    if |Within(Log(attempts, ip), from)| > MAX_ATTEMPTS {
      AcceptsAreSpaced(attempts, ip, lo);
      assert false;
    }
  }

  function Only(attempts: seq<Attempt>, ip: Ip): seq<Attempt> {
    if attempts == [] then []
    else
      var only, a := Only(attempts[..|attempts| - 1], ip), attempts[|attempts| - 1];
      if a.ip == ip then only + [a] else only
  }

  lemma {:induction false} OnlyKeepsLog(attempts: seq<Attempt>, ip: Ip)
    ensures Log(attempts, ip) == Log(Only(attempts, ip), ip)
  {
    if attempts != [] {
      var before, a := attempts[..|attempts| - 1], attempts[|attempts| - 1];
      OnlyKeepsLog(before, ip);
      if a.ip == ip {
        assert (Only(before, ip) + [a])[..|Only(before, ip)|] == Only(before, ip);
      }
    }
  }

  lemma {:induction false} OnlyKeepsOrder(attempts: seq<Attempt>, ip: Ip, now: nat)
    requires InOrder(attempts) && (attempts != [] ==> attempts[|attempts| - 1].at <= now)
    ensures InOrder(Only(attempts, ip)) && forall i :: 0 <= i < |Only(attempts, ip)| ==> Only(attempts, ip)[i].at <= now
  {
    if attempts != [] {
      OnlyKeepsOrder(attempts[..|attempts| - 1], ip, attempts[|attempts| - 1].at);
    }
  }

  /**
    Other addresses never matter: the shared buckets give an attempt the very verdict,
    wait included, that they would give it had its address been alone from the start.
   */
  lemma {:induction false} OthersDoNotMatter(attempts: seq<Attempt>, a: Attempt)
    requires InOrder(attempts + [a])
    ensures VerdictOn(BucketsAfter(attempts), a) == VerdictOn(BucketsAfter(Only(attempts, a.ip)), a)
  {
    var only := Only(attempts, a.ip);
    InOrderFront(attempts, a);
    OnlyKeepsOrder(attempts, a.ip, a.at);
    assert InOrder(only + [a]);
    OnlyKeepsLog(attempts, a.ip);
    LimiterAgrees(attempts, a);
    LimiterAgrees(only, a);
  }

  lemma {:induction false} AtMostFiveYoung(attempts: seq<Attempt>, ip: Ip, now: nat)
    requires InOrder(attempts) && (attempts != [] ==> attempts[|attempts| - 1].at <= now)
    ensures |Young(Log(attempts, ip), now)| <= MAX_ATTEMPTS
  {
    LogInOrder(attempts, ip, now);
    var log := Log(attempts, ip);
    YoungIsSuffix(log, now);
    var n := |Young(log, now)|;
    if n > MAX_ATTEMPTS {
      AcceptsAreSpaced(attempts, ip, |log| - n);
      assert false;
    }
  }

  /**
    A refusal's Retry-After is enough, and at most a second too long: if the address has
    no accepted attempt in between, the attempt made after exactly that wait is accepted,
    and any made more than a second before it is still refused.
   */
  lemma {:induction false} RetryAfterIsRight(attempts: seq<Attempt>, a: Attempt, more: seq<Attempt>, again: Attempt)
    requires InOrder(attempts + [a] + more + [again]) && again.ip == a.ip
    requires VerdictOn(BucketsAfter(attempts), a).Refused?
    requires Log(attempts + [a] + more, a.ip) == Log(attempts, a.ip)
    ensures var retry := VerdictOn(BucketsAfter(attempts), a).retryAfter;
            var verdict := VerdictOn(BucketsAfter(attempts + [a] + more), again);
            && (again.at >= a.at + retry * SECOND ==> verdict.Accepted?)
            && (again.at + SECOND < a.at + retry * SECOND ==> verdict.Refused?)
  {
    var log := Log(attempts, a.ip);
    InOrderFront(attempts + [a] + more, again);
    var sofar := attempts + [a];
    assert InOrder(sofar) by {
      assert forall i :: 0 <= i < |sofar| ==> (sofar + more)[i] == sofar[i];
    }
    InOrderFront(attempts, a);
    assert a.at <= again.at by {
      assert (attempts + [a] + more + [again])[|attempts|] == a;
      assert (attempts + [a] + more + [again])[|attempts| + 1 + |more|] == again;
    }
    LimiterAgrees(attempts, a);
    LimiterAgrees(attempts + [a] + more, again);
    LogInOrder(attempts, a.ip, a.at);
    AtMostFiveYoung(attempts, a.ip, a.at);
    WaitIsRight(log, a.at, again.at);
  }

  lemma {:induction false} WaitIsRight(log: seq<nat>, now: nat, later: nat)
    requires Sorted(log) && now <= later && |Young(log, now)| == MAX_ATTEMPTS
    requires UpTo(log, now)
    ensures var retry := RetryAfter(Young(log, now)[0], now);
            && (later >= now + retry * SECOND ==> |Young(log, later)| < MAX_ATTEMPTS)
            && (later + SECOND < now + retry * SECOND ==> |Young(log, later)| >= MAX_ATTEMPTS)
  {
    YoungIsSuffix(log, now);
    YoungIsSuffix(log, later);
    var first := |log| - MAX_ATTEMPTS;
    assert Young(log, now)[0] == log[first];
    var left := WINDOW - Age(now, log[first]);
    assert left / SECOND * SECOND <= left < (left / SECOND + 1) * SECOND;
  }

  // ---------- The limiter as it runs ----------

  class Limiter {
    var buckets: Buckets

    constructor ()
      ensures buckets == BucketsAfter([])
    {
      buckets := map[];
    }

    /** Prune every address, then judge this one; an accepted attempt is noted. */
    method Record(ip: Ip, now: nat) returns (v: Verdict)
      modifies this
      ensures v == VerdictOn(old(buckets), Attempt(ip, now))
      ensures buckets == Recorded(old(buckets), Attempt(ip, now))
    {
      Retain(now);
      var entry := if ip in buckets then buckets[ip] else [];
      if |entry| >= MAX_ATTEMPTS {
        var age := if now >= entry[0] then now - entry[0] else 0;
        v := Refused((if WINDOW >= age then WINDOW - age else 0) / SECOND + 1);
      } else {
        buckets := buckets[ip := entry + [now]];
        v := Accepted;
      }
    }

    method Retain(now: nat)
      modifies this
      ensures buckets == Pruned(old(buckets), now)
    {
      var left, kept := buckets.Keys, map[];
      while left != {}
        invariant left <= buckets.Keys && buckets == old(buckets)
        invariant forall ip :: ip in kept <==> ip in buckets && ip !in left && Young(buckets[ip], now) != []
        invariant forall ip :: ip in kept ==> kept[ip] == Young(buckets[ip], now)
        decreases left
      {
        var ip :| ip in left;
        left := left - {ip};
        var young := RetainYoung(buckets[ip], now);
        if young != [] {
          kept := kept[ip := young];
        }
      }
      buckets := kept;
    }
  }

  method RetainYoung(times: seq<nat>, now: nat) returns (young: seq<nat>)
    ensures young == Young(times, now)
  {
    young := [];
    for i := 0 to |times|
      invariant young == Young(times[..i], now)
    {
      assert times[..i + 1][..i] == times[..i];
      if (if now >= times[i] then now - times[i] else 0) < WINDOW {
        young := young + [times[i]];
      }
    }
    assert times[..|times|] == times;
  }
}
