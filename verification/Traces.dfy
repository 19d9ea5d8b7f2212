/** Runs of a machine whose every turn passes through a list of states. */
module Traces {
  function LastOr<T>(xs: seq<T>, x: T): T {
    if xs == [] then x else xs[|xs| - 1]
  }

  lemma Joined<T>(t0: seq<T>, a: seq<T>, t1: seq<T>, b: seq<T>, t2: seq<T>)
    requires t1 == t0 + a && t2 == t1 + b
    ensures t2 == t0 + (a + b)
  {
  }

  /** Every state passed through while the turns are taken in order. */
  function Passed<S, D>(turn: (S, D) -> seq<S>, s: S, ds: seq<D>): seq<S>
    decreases ds
  {
    if ds == [] then [] else turn(s, ds[0]) + Passed(turn, LastOr(turn(s, ds[0]), s), ds[1..])
  }

  function Final<S, D>(turn: (S, D) -> seq<S>, s: S, ds: seq<D>): S {
    LastOr(Passed(turn, s, ds), s)
  }

  /** What each turn reports, judged in the state it is taken in. */
  function Reported<S, D, O>(turn: (S, D) -> seq<S>, out: (S, D) -> O, s: S, ds: seq<D>): (r: seq<O>)
    ensures |r| == |ds|
    decreases ds
  {
    if ds == [] then [] else [out(s, ds[0])] + Reported(turn, out, LastOr(turn(s, ds[0]), s), ds[1..])
  }

  lemma FinalCons<S, D>(turn: (S, D) -> seq<S>, s: S, ds: seq<D>)
    requires ds != []
    ensures Final(turn, s, ds) == Final(turn, LastOr(turn(s, ds[0]), s), ds[1..])
  {
  }

  lemma {:induction false} TakeOneMore<S, D, O>(turn: (S, D) -> seq<S>, out: (S, D) -> O, s: S, ds: seq<D>, i: nat)
    requires i < |ds|
    ensures var mid := Final(turn, s, ds[..i]);
            && Passed(turn, s, ds[..i + 1]) == Passed(turn, s, ds[..i]) + turn(mid, ds[i])
            && Final(turn, s, ds[..i + 1]) == LastOr(turn(mid, ds[i]), mid)
            && Reported(turn, out, s, ds[..i + 1]) == Reported(turn, out, s, ds[..i]) + [out(mid, ds[i])]
    decreases ds
  {
    if i > 0 {
      var s1 := LastOr(turn(s, ds[0]), s);
      assert ds[..i][1..] == ds[1..][..i - 1] && ds[..i + 1][1..] == ds[1..][..i];
      TakeOneMore(turn, out, s1, ds[1..], i - 1);
      FinalCons(turn, s, ds[..i]);
      FinalCons(turn, s, ds[..i + 1]);
    }
  }

  /** What every turn keeps in each state it passes through holds throughout. */
  lemma {:induction false} PassedKeep<S, D>(turn: (S, D) -> seq<S>, ok: S -> bool, s: S, ds: seq<D>)
    requires ok(s)
    requires forall s, d, x :: ok(s) && x in turn(s, d) ==> ok(x)
    ensures forall x :: x in Passed(turn, s, ds) ==> ok(x)
    ensures ok(Final(turn, s, ds))
    decreases ds
  {
    if ds != [] {
      var one := turn(s, ds[0]);
      assert one != [] ==> one[|one| - 1] in one;
      PassedKeep(turn, ok, LastOr(one, s), ds[1..]);
      FinalCons(turn, s, ds);
    }
  }

  /** What every step keeps, a stretch of steps keeps. */
  lemma {:induction false} StretchKeeps<S>(step: (S, S) -> bool, ok: S -> bool, run: seq<S>, a: nat, b: nat)
    requires a <= b < |run| && ok(run[a])
    requires forall i :: 0 <= i < |run| - 1 ==> step(run[i], run[i + 1])
    requires forall s, s' :: ok(s) && step(s, s') ==> ok(s')
    ensures ok(run[b])
    decreases b - a
  {
    if a < b {
      assert step(run[a], run[a + 1]);
      StretchKeeps(step, ok, run, a + 1, b);
    }
  }

  /** Going on from where a run ends. */
  function Continued<S>(run: seq<S>, more: seq<S>): seq<S>
    requires more != []
  {
    run + more[1..]
  }

  lemma ContinuedEnds<S>(run: seq<S>, more: seq<S>)
    requires run != [] && more != [] && more[0] == run[|run| - 1]
    ensures |Continued(run, more)| == |run| + |more| - 1 && Continued(run, more)[0] == run[0]
    ensures Continued(run, more)[|run| + |more| - 2] == more[|more| - 1]
  {
  }

  lemma ContinuedAt<S>(run: seq<S>, more: seq<S>)
    requires run != [] && more != [] && more[0] == run[|run| - 1]
    ensures |Continued(run, more)| == |run| + |more| - 1
    ensures forall i :: 0 <= i < |run| ==> Continued(run, more)[i] == run[i]
    ensures forall i :: 0 <= i < |more| ==> Continued(run, more)[|run| - 1 + i] == more[i]
  {
  }
}
