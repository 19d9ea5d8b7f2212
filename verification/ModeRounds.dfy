/**
  Rounds can be had: whatever is under way, the scheduler, the engine and the mode manager
  can always go on to complete one, so every engine has a run that settles its modes.
 */
module ModeRounds {
  import opened Conditions
  import opened ManagedModes
  import opened ModeTargets
  import opened ModeCascade
  import opened ModeBus
  import opened Traces

  // ---------- Putting runs together ----------

  lemma {:induction false} ContinuedIsRun(rules: seq<Rule>, run: seq<Engine>, more: seq<Engine>)
    requires ModeBus.IsRun(rules, run) && ModeBus.IsRun(rules, more) && more[0] == run[|run| - 1]
    ensures ModeBus.IsRun(rules, Continued(run, more))
  {
    var whole := Continued(run, more);
    ContinuedAt(run, more);
    forall i | 0 <= i < |whole| - 1 ensures ModeBus.Step(rules, whole[i], whole[i + 1]) {
      if i >= |run| - 1 {
        var k := i - (|run| - 1);
        assert whole[|run| - 1 + k] == more[k] && whole[|run| - 1 + (k + 1)] == more[k + 1];
      }
    }
  }

  lemma {:induction false} TickedWithin(rules: seq<Rule>, run: seq<Engine>, whole: seq<Engine>, k: nat, a: nat, b: nat,
                                        a': nat, b': nat, r: Rule)
    requires a <= b < |run| && Ticked(rules, run, a, b, r) && k + |run| <= |whole|
    requires a' <= k + a && k + b <= b' < |whole| && forall i :: 0 <= i < |run| ==> whole[k + i] == run[i]
    ensures Ticked(rules, whole, a', b', r)
  {
    var i :| a <= i < b && TicksAt(rules, run, i, r);
    assert whole[k + i] == run[i] && whole[k + (i + 1)] == run[i + 1];
    assert TicksAt(rules, whole, k + i, r);
  }

  /** A round of one run is a round of any run it is a stretch of. */
  lemma {:induction false} RoundWithin(defs: seq<Definition>, rules: seq<Rule>, run: seq<Engine>, whole: seq<Engine>,
                                       k: nat, a: nat, b: nat)
    requires IsRound(defs, rules, run, a, b) && k + |run| <= |whole|
    requires forall i :: 0 <= i < |run| ==> whole[k + i] == run[i]
    ensures IsRound(defs, rules, whole, k + a, k + b)
  {
    forall d, on | d in defs ensures Ticked(rules, whole, k + a, k + b, PeriodicRule(d, on)) {
      TickedWithin(rules, run, whole, k, a, b, k + a, k + b, PeriodicRule(d, on));
    }
  }

  // ---------- A round from anywhere ----------

  /** A tick for both periodic rules of every definition. */
  function Ticks(defs: seq<Definition>): seq<Message> {
    if defs == [] then []
    else [Note(SchedulerTick(PeriodicRule(defs[0], true))), Note(SchedulerTick(PeriodicRule(defs[0], false)))]
         + Ticks(defs[1..])
  }

  lemma {:induction false} TicksAreThere(defs: seq<Definition>, d: Definition, on: bool)
    requires d in defs
    ensures Note(SchedulerTick(PeriodicRule(d, on))) in Ticks(defs)
  {
    if d != defs[0] {
      TicksAreThere(defs[1..], d, on);
    }
  }

  lemma {:induction false} TicksAreNotes(defs: seq<Definition>)
    ensures forall x :: x in Ticks(defs) ==> x.Note?
  {
    if defs != [] {
      TicksAreNotes(defs[1..]);
    }
  }

  /** The scheduler publishes, one note after the other. */
  lemma {:induction false} PublishAll(rules: seq<Rule>, s: Engine, notes: seq<Message>) returns (run: seq<Engine>)
    requires forall x :: x in notes ==> x.Note?
    ensures ModeBus.IsRun(rules, run) && run[0] == s && run[|run| - 1] == s.(queue := s.queue + notes)
    decreases notes
  {
    if notes == [] {
      run := [s];
    } else {
      assert notes[0] in notes;
      var s' := Publish(s, notes[0].event);
      var rest := PublishAll(rules, s', notes[1..]);
      run := [s] + rest;
      assert s'.queue + notes[1..] == s.queue + notes;
    }
  }

  /** The engine after the first n waiting messages. */
  function Handled(s: Engine, rules: seq<Rule>, n: nat): (r: Engine)
    requires n <= |s.queue|
    ensures r.queue == s.queue[n..] && r.handled == s.handled + n
  {
    if n == 0 then s
    else
      var before := Handled(s, rules, n - 1);
      JudgeShape(Taken(before), rules, EventOf(before.queue[0]));
      Handle(before, rules)
  }

  function HandleRun(s: Engine, rules: seq<Rule>): seq<Engine> {
    seq(|s.queue| + 1, i requires 0 <= i < |s.queue| + 1 => Handled(s, rules, i))
  }

  lemma {:induction false} HandlesAll(s: Engine, rules: seq<Rule>)
    ensures ModeBus.IsRun(rules, HandleRun(s, rules)) && HandleRun(s, rules)[0] == s
    ensures forall r :: Note(SchedulerTick(r)) in s.queue ==> Ticked(rules, HandleRun(s, rules), 0, |s.queue|, r)
  {
    var run := HandleRun(s, rules);
    forall i | 0 <= i < |run| - 1 ensures run[i].queue != [] && run[i + 1] == Handle(run[i], rules) {
      assert run[i + 1] == Handled(s, rules, i + 1);
    }
    forall r | Note(SchedulerTick(r)) in s.queue ensures Ticked(rules, run, 0, |s.queue|, r) {
      var i :| 0 <= i < |s.queue| && s.queue[i] == Note(SchedulerTick(r));
      assert TicksAt(rules, run, i, r);
    }
  }

  /** Commands numbered before n. */
  ghost function Early(s: Engine, n: nat): set<Command> {
    set c | c in s.commands && c.id < n
  }

  lemma {:induction false} DeliverOneEarly(s: Engine, n: nat, c: Command)
    requires c in Early(s, n)
    ensures |Early(Deliver(s, c), n)| < |Early(s, n)|
  {
    assert Early(Deliver(s, c), n) == Early(s, n) - {c};
  }

  /** The mode manager carries out whatever was sent before number n. */
  lemma {:induction false} DeliverEarly(rules: seq<Rule>, s: Engine, n: nat) returns (run: seq<Engine>)
    ensures ModeBus.IsRun(rules, run) && run[0] == s && run[|run| - 1].handled == s.handled
    ensures forall c :: c in run[|run| - 1].commands ==> c.id >= n
    decreases |Early(s, n)|
  {
    if c :| c in Early(s, n) {
      DeliverOneEarly(s, n, c);
      var rest := DeliverEarly(rules, Deliver(s, c), n);
      assert ModeBus.Step(rules, s, Deliver(s, c));
      run := [s] + rest;
    } else {
      run := [s];
      assert forall c :: c in s.commands ==> c !in Early(s, n);
    }
  }

  lemma {:induction false} AllTicked(defs: seq<Definition>, rules: seq<Rule>, s: Engine)
    requires forall x :: x in Ticks(defs) ==> x in s.queue
    ensures forall d, on :: d in defs ==> Ticked(rules, HandleRun(s, rules), 0, |s.queue|, PeriodicRule(d, on))
  {
    HandlesAll(s, rules);
    forall d, on | d in defs ensures Ticked(rules, HandleRun(s, rules), 0, |s.queue|, PeriodicRule(d, on)) {
      TicksAreThere(defs, d, on);
    }
  }

  /** Publish the ticks and handle all there is: every periodic rule is tried. */
  lemma {:induction false} TickRound(defs: seq<Definition>, rules: seq<Rule>, s: Engine) returns (run: seq<Engine>)
    ensures ModeBus.IsRun(rules, run) && run[0] == s && run[|run| - 1].handled >= s.handled + |s.queue|
    ensures forall d, on :: d in defs ==> Ticked(rules, run, 0, |run| - 1, PeriodicRule(d, on))
  {
    TicksAreNotes(defs);
    var published := PublishAll(rules, s, Ticks(defs));
    var full := published[|published| - 1];
    var handled := HandleRun(full, rules);
    HandlesAll(full, rules);
    AllTicked(defs, rules, full);
    ContinuedIsRun(rules, published, handled);
    ContinuedEnds(published, handled);
    AllTickedLater(defs, rules, published, handled);
    run := Continued(published, handled);
  }

  lemma {:induction false} AllTickedLater(defs: seq<Definition>, rules: seq<Rule>, run: seq<Engine>, more: seq<Engine>)
    requires run != [] && more != [] && more[0] == run[|run| - 1]
    requires forall d, on :: d in defs ==> Ticked(rules, more, 0, |more| - 1, PeriodicRule(d, on))
    ensures var whole := Continued(run, more);
            forall d, on :: d in defs ==> Ticked(rules, whole, 0, |whole| - 1, PeriodicRule(d, on))
  {
    forall d, on | d in defs
      ensures Ticked(rules, Continued(run, more), 0, |Continued(run, more)| - 1, PeriodicRule(d, on)) {
      TickedLater(rules, run, more, PeriodicRule(d, on));
    }
  }

  lemma {:induction false} TickedLater(rules: seq<Rule>, run: seq<Engine>, more: seq<Engine>, r: Rule)
    requires run != [] && more != [] && more[0] == run[|run| - 1]
    requires Ticked(rules, more, 0, |more| - 1, r)
    ensures Ticked(rules, Continued(run, more), 0, |Continued(run, more)| - 1, r)
  {
    ContinuedAt(run, more);
    TickedWithin(rules, more, Continued(run, more), |run| - 1, 0, |more| - 1, 0, |run| + |more| - 2, r);
  }

  lemma {:induction false} TickedBefore(rules: seq<Rule>, run: seq<Engine>, more: seq<Engine>, r: Rule)
    requires run != [] && more != [] && more[0] == run[|run| - 1]
    requires Ticked(rules, run, 0, |run| - 1, r)
    ensures Ticked(rules, Continued(run, more), 0, |Continued(run, more)| - 1, r)
  {
    ContinuedAt(run, more);
    TickedWithin(rules, run, Continued(run, more), 0, 0, |run| - 1, 0, |run| + |more| - 2, r);
  }

  /** From every engine, with whatever under way, there is a run that is a round. */
  lemma {:induction false} RoundExists(defs: seq<Definition>, rules: seq<Rule>, s: Engine) returns (run: seq<Engine>)
    ensures ModeBus.IsRun(rules, run) && run[0] == s && IsRound(defs, rules, run, 0, |run| - 1)
  {
    var ticked := TickRound(defs, rules, s);
    var delivered := DeliverEarly(rules, ticked[|ticked| - 1], s.issued);
    ContinuedIsRun(rules, ticked, delivered);
    ContinuedEnds(ticked, delivered);
    run := Continued(ticked, delivered);
    forall d, on | d in defs ensures Ticked(rules, run, 0, |run| - 1, PeriodicRule(d, on)) {
      TickedBefore(rules, ticked, delivered, PeriodicRule(d, on));
    }
  }

  /** And as many rounds as are wanted. */
  lemma {:induction false} RoundsExist(defs: seq<Definition>, rules: seq<Rule>, s: Engine, n: nat)
    returns (run: seq<Engine>, bounds: seq<nat>)
    ensures ModeBus.IsRun(rules, run) && run[0] == s && AreRounds(defs, rules, run, bounds)
    ensures |bounds| == n + 1 && bounds[0] == 0 && bounds[n] == |run| - 1
  {
    if n == 0 {
      run, bounds := [s], [0];
    } else {
      var run0, bounds0 := RoundsExist(defs, rules, s, n - 1);
      var more := RoundExists(defs, rules, run0[|run0| - 1]);
      ContinuedIsRun(rules, run0, more);
      run, bounds := Continued(run0, more), bounds0 + [|run0| + |more| - 2];
      OneMoreRound(defs, rules, run0, bounds0, more);
    }
  }

  lemma {:induction false} OneMoreRound(defs: seq<Definition>, rules: seq<Rule>, run: seq<Engine>, bounds: seq<nat>,
                                        more: seq<Engine>)
    requires run != [] && more != [] && more[0] == run[|run| - 1] && bounds != []
    requires AreRounds(defs, rules, run, bounds) && bounds[|bounds| - 1] == |run| - 1
    requires IsRound(defs, rules, more, 0, |more| - 1)
    ensures AreRounds(defs, rules, Continued(run, more), bounds + [|run| + |more| - 2])
  {
    var whole, longer := Continued(run, more), bounds + [|run| + |more| - 2];
    ContinuedAt(run, more);
    forall i | 0 <= i < |longer| - 1 ensures IsRound(defs, rules, whole, longer[i], longer[i + 1]) {
      if i < |bounds| - 1 {
        RoundAt(defs, rules, run, bounds, i);
        RoundWithin(defs, rules, run, whole, 0, bounds[i], bounds[i + 1]);
      } else {
        RoundWithin(defs, rules, more, whole, |run| - 1, 0, |more| - 1);
      }
    }
  }

  /** So from every consistent engine, with whatever under way, the modes can come to rest where their criteria say. */
  lemma {:induction false} SettlingRunExists(defs: seq<Definition>, rules: seq<Rule>, w: World, s: Engine)
    returns (run: seq<Engine>, goal: World)
    requires WellBehaved(defs) && NoModeTimed(defs) && Installed(defs, rules) && Consistent(defs, w, s)
    ensures ModeBus.IsRun(rules, run) && run[0] == s && RestsAt(defs, goal, run[|run| - 1])
    ensures SameSurroundings(w, goal, Ids(defs)) && AllRight(defs, goal)
  {
    var bounds;
    run, bounds := RoundsExist(defs, rules, s, 5 * |Ids(defs)|);
    var n := 5 * |Ids(defs)|;
    assert run[bounds[0]] == s && bounds[n] == |run| - 1;
    goal := BusSettles(defs, rules, w, run, bounds);
    assert RestsAt(defs, goal, run[bounds[n]]);
  }
}
