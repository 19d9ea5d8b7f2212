/**
  Why the bus engine needs its periodic rules: the event that says a mode changed is
  handled before the cache knows, so a mode that reads it is judged too early, and
  nothing judges it again.
 */
module ModeBusStall {
  import opened Options
  import opened Conditions
  import opened Graphs
  import opened ManagedModes
  import opened ModeTargets
  import opened ModeCascade
  import opened ModeBus
  import opened Traces

  const FIRST := Definition("a", HubVariable("h", Eq, Bool(true)), Inverse, None, 1)
  const SECOND := Definition("b", ModeIs("a", true), Inverse, None, 1)

  /** Mode a follows a hub variable; mode b follows mode a. */
  function Pair(): seq<Definition> {
    [FIRST, SECOND]
  }

  /** The variable is set, both modes are off, and the system has just started. */
  function Start(): Engine {
    Engine(World(map[], map["h" := Bool(true)], 0, {}), map["a" := false, "b" := false],
           [Note(SystemStarted)], {}, 0, 0)
  }

  lemma {:induction false} PairReads()
    ensures CriteriaRefs(FIRST) == Refs({}, {}, {"h"}) && CriteriaRefs(SECOND) == Refs({}, {"a"}, {})
    ensures TimedReadsOf(FIRST) == {} && TimedReadsOf(SECOND) == {}
    ensures Ids(Pair()) == {"a", "b"} && forall d :: d in Pair() <==> d == FIRST || d == SECOND
  {
    assert FIRST in Pair() && SECOND in Pair();
  }

  lemma {:induction false} PairGraphs()
    ensures Dependencies(Pair()) == map["a" := {}, "b" := {"a"}]
    ensures ReadGraph(Pair()) == map["a" := {}, "b" := {"a"}]
  {
    PairReads();
    DependenciesShape(Pair());
    ReadGraphAt(Pair(), FIRST);
    ReadGraphAt(Pair(), SECOND);
    assert DistinctIds(Pair());
    assert FIRST.modeId == "a" && SECOND.modeId == "b";
    assert Dependencies(Pair())["a"] == {} && Dependencies(Pair())["b"] == {"a"};
  }

  lemma {:induction false} PairIsSound()
    ensures Sound(Pair()) && Acyclic(ReadGraph(Pair()))
  {
    PairReads();
    PairGraphs();
    RankedIsAcyclic(map["a" := {}, "b" := {"a"}], map["a" := 0, "b" := 1]);
  }

  lemma {:induction false} PairIsWellBehaved()
    ensures WellBehaved(Pair()) && AllInverse(Pair())
  {
    PairIsSound();
    PairReads();
  }

  /** The engine works on its own: messages handled and commands delivered, in any order, with no ticks. */
  ghost predicate OwnStep(rules: seq<Rule>, s: Engine, s': Engine) {
    || (s.queue != [] && s' == Handle(s, rules))
    || (exists c :: c in s.commands && s' == Deliver(s, c))
  }

  /** Whatever would have b judged again is handled before the cache learns of a. */
  ghost predicate Stalled(s: Engine) {
    && s.cache.hub == map["h" := Bool(true)]
    && s.store.Keys == {"a", "b"} && !s.store["b"] && !ModeOn(s.cache, "b")
    && (forall c :: c in s.commands ==> c.mode == "a" && c.on)
    && (forall x :: x in s.queue ==> x == Note(SystemStarted) || x == Note(ModeChanged("a")) || x == Report("a", true))
    && (ModeOn(s.cache, "a") ==> forall x :: x in s.queue ==> x.Report?)
    && (forall i, j :: 0 <= i < j < |s.queue| && s.queue[i].Report? ==> s.queue[j].Report?)
    && (!s.store["a"] ==> !ModeOn(s.cache, "a") && forall x :: x in s.queue ==> !x.Report?)
  }

  lemma {:induction false} TriggersOfPair(r: Rule)
    ensures r in ManagedRules(FIRST) ==> r.mode == "a"
    ensures r in ManagedRules(SECOND) ==> r.trigger in {OnSystemStarted, OnPeriod(1), OnModeChanged("a")}
  {
    assert CriteriaRefs(SECOND) == Refs({}, {"a"}, {});
    assert TriggersFor(SECOND) == {OnSystemStarted, OnPeriod(1), OnModeChanged("a")};
  }

  /** Only a's on-rule ever applies: b is judged only while the cache says a is off. */
  lemma {:induction false} OnlyFirstApplies(rules: seq<Rule>, cache: World, e: Event, r: Rule)
    requires Installed(Pair(), rules) && r in rules && Starts(e, r) && ConditionsHold(r, cache)
    requires cache.hub == map["h" := Bool(true)] && !ModeOn(cache, "b")
    requires e == SystemStarted || e == ModeChanged("a") || e == DeviceChanged("a")
    requires e != DeviceChanged("a") ==> !ModeOn(cache, "a")
    ensures r.mode == "a" && r.turnOn
  {
    PairReads();
    var d := RuleOwner(Pair(), rules, r);
    TriggersOfPair(r);
    InverseRight(d, cache);
    assert d == FIRST || d == SECOND;
    assert Holds(FIRST.onCondition, cache);
    assert Holds(SECOND.onCondition, cache) == ModeOn(cache, "a");
  }

  lemma {:induction false} TakenStalled(s: Engine)
    requires Stalled(s) && s.queue != []
    ensures Stalled(Taken(s))
    ensures EventOf(s.queue[0]) in {SystemStarted, ModeChanged("a"), DeviceChanged("a")}
    ensures EventOf(s.queue[0]) != DeviceChanged("a") ==> !ModeOn(Taken(s).cache, "a")
  {
    var x, t := s.queue[0], Taken(s);
    assert s.queue == [x] + s.queue[1..];
    assert x in s.queue;
    assert forall j :: 0 <= j < |t.queue| ==> t.queue[j] == s.queue[j + 1];
    assert forall y :: y in t.queue ==> y in s.queue;
    if x.Report? {
      SetModeEffect(s.cache, "a", true);
      assert Lookup(t.cache.devices, "b") == Lookup(s.cache.devices, "b");
    }
  }

  lemma {:induction false} HandleStalled(rules: seq<Rule>, s: Engine)
    requires Installed(Pair(), rules) && Stalled(s) && s.queue != []
    ensures Stalled(Handle(s, rules))
  {
    var t, e := Taken(s), EventOf(s.queue[0]);
    TakenStalled(s);
    JudgeShape(t, rules, e);
    var s' := Judge(t, rules, e);
    forall c | c in s'.commands ensures c.mode == "a" && c.on {
      if c !in t.commands {
        var r :| r in rules && Starts(e, r) && r.mode == c.mode && r.turnOn == c.on && ConditionsHold(r, t.cache);
        OnlyFirstApplies(rules, t.cache, e, r);
      }
    }
    assert s' == t.(commands := s'.commands, issued := s'.issued);
  }

  lemma DeliverStalled(s: Engine, c: Command)
    requires Stalled(s) && c in s.commands
    ensures Stalled(Deliver(s, c))
  {
  }

  /** However long it goes on and in whatever order, mode b, which should be on, is never turned on. */
  lemma {:induction false} CascadeAloneStalls(rules: seq<Rule>, run: seq<Engine>, goal: World)
    requires Installed(Pair(), rules) && run != [] && run[0] == Start()
    requires forall i :: 0 <= i < |run| - 1 ==> OwnStep(rules, run[i], run[i + 1])
    requires AllRight(Pair(), goal) && SameSurroundings(Start().cache, goal, Ids(Pair()))
    ensures "b" in run[|run| - 1].store && !run[|run| - 1].store["b"] && ModeOn(goal, "b")
    ensures Stalled(run[|run| - 1])
  {
    assert FIRST in Pair() && SECOND in Pair();
    assert !Wrong(FIRST, goal) && !Wrong(SECOND, goal);
    if |run| > 1 {
      CascadeAloneStalls(rules, run[..|run| - 1], goal);
      var s, s' := run[|run| - 2], run[|run| - 2 + 1];
      if s.queue != [] && s' == Handle(s, rules) {
        HandleStalled(rules, s);
      } else {
        var c :| c in s.commands && s' == Deliver(s, c);
        DeliverStalled(s, c);
      }
    }
  }

  // ---------- Where the events suffice ----------

  /** No criterion reads a managed mode, in either way. */
  predicate Independent(defs: seq<Definition>) {
    forall d :: d in defs ==> ReadsOf(d) !! Ids(defs)
  }

  lemma {:induction false} IndependentIsUntimed(defs: seq<Definition>)
    requires Independent(defs)
    ensures NoModeTimed(defs)
  {
    forall d, id | d in defs && id in TimedReadsOf(d) ensures id !in Ids(defs) {
      TimedReadIsRead(d, id);
    }
  }

  /**
    Every command and report for a mode says what its criterion does, and it is right, about to
    be, or start-up is still to be handled.
   */
  ghost predicate OnCourse(s: Engine, m: string, v: bool) {
    && Reached(s, m, v, Progress(0, Some(0), None, None))
    && (s.store[m] == v || OnItsWay(s, m, v, s.issued) || Note(SystemStarted) in s.queue)
  }

  ghost predicate AllOnCourse(defs: seq<Definition>, goal: World, s: Engine) {
    Consistent(defs, goal, s) && forall m :: m in Ids(defs) ==> OnCourse(s, m, ModeOn(goal, m))
  }

  ghost predicate Simple(defs: seq<Definition>, rules: seq<Rule>, goal: World) {
    && DistinctIds(defs) && AllInverse(defs) && Independent(defs)
    && Installed(defs, rules) && AllRight(defs, goal) && Known(defs, goal)
  }

  /** With nothing managed to read, every criterion is judged as the goal has it. */
  lemma {:induction false} JudgedAlone(defs: seq<Definition>, rules: seq<Rule>, goal: World, s: Engine, m: string)
    requires Simple(defs, rules, goal) && Consistent(defs, goal, s) && m in Ids(defs)
    ensures Holds(DefinitionOf(defs, m).onCondition, s.cache) == ModeOn(goal, m)
  {
    var d := DefinitionOf(defs, m);
    IndependentIsUntimed(defs);
    CriterionDependsOnModes(defs, d, s.cache, goal);
    InverseRight(d, goal);
    assert !Wrong(d, goal);
  }

  lemma {:induction false} SentAlone(defs: seq<Definition>, rules: seq<Rule>, goal: World, s: Engine, r: Rule)
    requires Simple(defs, rules, goal) && Consistent(defs, goal, s) && r in rules && ConditionsHold(r, s.cache)
    ensures r.turnOn == ModeOn(goal, r.mode)
  {
    RuleSays(defs, rules, r, s.cache);
    JudgedAlone(defs, rules, goal, s, r.mode);
  }

  /** Handling start-up sends what is needed. */
  lemma {:induction false} StartSends(defs: seq<Definition>, rules: seq<Rule>, goal: World, s: Engine, m: string)
    requires Simple(defs, rules, goal) && Consistent(defs, goal, s) && m in Ids(defs)
    requires Reached(s, m, ModeOn(goal, m), Progress(0, Some(0), None, None))
    ensures var s' := Judge(s, rules, SystemStarted);
            s.store[m] == ModeOn(goal, m) || OnItsWay(s', m, ModeOn(goal, m), s'.issued)
  {
    var d, v := DefinitionOf(defs, m), ModeOn(goal, m);
    if s.store[m] != v {
      StoredWrongIsCachedWrong(defs, goal, s, m, v);
      JudgedAlone(defs, rules, goal, s, m);
      var r := Remedy(d, s.cache, SystemStarted);
      RemedyIsManaged(d, s.cache, SystemStarted);
      InverseRight(d, s.cache);
      assert r in rules && Starts(SystemStarted, r) && ConditionsHold(r, s.cache);
    }
    JudgeShape(s, rules, SystemStarted);
  }

  lemma {:induction false} HandleOnCourse(defs: seq<Definition>, rules: seq<Rule>, goal: World, s: Engine, m: string)
    requires Simple(defs, rules, goal) && Consistent(defs, goal, s) && s.queue != []
    requires m in Ids(defs) && OnCourse(s, m, ModeOn(goal, m))
    ensures OnCourse(Handle(s, rules), m, ModeOn(goal, m))
  {
    var v, t, e := ModeOn(goal, m), Taken(s), EventOf(s.queue[0]);
    TakenConsistent(defs, goal, s);
    TakenKeepsReached(s, m, v, Progress(0, Some(0), None, None));
    forall r | r in rules && r.mode == m && ConditionsHold(r, t.cache) ensures r.turnOn == v {
      SentAlone(defs, rules, goal, t, r);
    }
    JudgeSends(t, rules, e, m, v, 0);
    JudgeKeepsReached(t, rules, e, m, v, Progress(0, Some(0), None, None));
    if e == SystemStarted {
      StartSends(defs, rules, goal, t, m);
    }
    StillComing(s, rules, m, v);
  }

  lemma {:induction false} StillComing(s: Engine, rules: seq<Rule>, m: string, v: bool)
    requires s.queue != []
    ensures var s' := Handle(s, rules);
            && s'.store == s.store
            && (OnItsWay(s, m, v, s.issued) ==> OnItsWay(s', m, v, s'.issued))
            && (Note(SystemStarted) in s.queue && s.queue[0] != Note(SystemStarted) ==> Note(SystemStarted) in s'.queue)
  {
    JudgeShape(Taken(s), rules, EventOf(s.queue[0]));
    assert s.queue == [s.queue[0]] + s.queue[1..];
    if c :| c in s.commands && c.mode == m && c.on == v && c.id < s.issued {
      assert c in Handle(s, rules).commands;
    }
  }

  lemma {:induction false} DeliverOnCourse(defs: seq<Definition>, goal: World, s: Engine, c: Command, m: string)
    requires Consistent(defs, goal, s) && c in s.commands && m in Ids(defs) && OnCourse(s, m, ModeOn(goal, m))
    ensures OnCourse(Deliver(s, c), m, ModeOn(goal, m))
  {
    var v, s' := ModeOn(goal, m), Deliver(s, c);
    DeliverKeepsReached(s, m, v, Progress(0, Some(0), None, None), c);
    if s.store[m] != v && OnItsWay(s, m, v, s.issued) && c.mode != m {
      var sent :| sent in s.commands && sent.mode == m && sent.on == v && sent.id < s.issued;
      assert sent in s'.commands;
    }
  }

  lemma {:induction false} OwnStepOnCourse(defs: seq<Definition>, rules: seq<Rule>, goal: World, s: Engine, s': Engine)
    requires Simple(defs, rules, goal) && AllOnCourse(defs, goal, s) && OwnStep(rules, s, s')
    ensures AllOnCourse(defs, goal, s')
  {
    StepConsistent(defs, goal, rules, s, s');
    forall m | m in Ids(defs) ensures OnCourse(s', m, ModeOn(goal, m)) {
      if s.queue != [] && s' == Handle(s, rules) {
        HandleOnCourse(defs, rules, goal, s, m);
      } else {
        var c :| c in s.commands && s' == Deliver(s, c);
        DeliverOnCourse(defs, goal, s, c, m);
      }
    }
  }

  lemma {:induction false} StartsOnCourse(defs: seq<Definition>, goal: World, s: Engine)
    requires Consistent(defs, goal, s) && s.commands == {}
    requires Note(SystemStarted) in s.queue && forall x :: x in s.queue ==> x.Note?
    ensures AllOnCourse(defs, goal, s)
  {
    forall m | m in Ids(defs) ensures RightReports(s, m, ModeOn(goal, m), 0) {
      assert forall j :: 0 <= j < |s.queue| ==> s.queue[j] in s.queue;
    }
  }

  /**
    Left to its own events from start-up, with nothing else under way, the engine does
    settle criteria that read no managed mode: once it is idle, store and cache meet every one.
   */
  lemma {:induction false} EventsSettleIndependentModes(defs: seq<Definition>, rules: seq<Rule>, goal: World,
                                                        run: seq<Engine>)
    requires Simple(defs, rules, goal) && run != [] && Consistent(defs, goal, run[0])
    requires run[0].commands == {} && Note(SystemStarted) in run[0].queue && forall x :: x in run[0].queue ==> x.Note?
    requires forall i :: 0 <= i < |run| - 1 ==> OwnStep(rules, run[i], run[i + 1])
    ensures AllOnCourse(defs, goal, run[|run| - 1])
    ensures run[|run| - 1].queue == [] && run[|run| - 1].commands == {} ==>
              forall m :: m in Ids(defs) ==>
                        run[|run| - 1].store[m] == ModeOn(goal, m) == ModeOn(run[|run| - 1].cache, m)
  {
    StartsOnCourse(defs, goal, run[0]);
    forall s, s' | AllOnCourse(defs, goal, s) && OwnStep(rules, s, s') ensures AllOnCourse(defs, goal, s') {
      OwnStepOnCourse(defs, rules, goal, s, s');
    }
    StretchKeeps((s, s') => OwnStep(rules, s, s'), s => AllOnCourse(defs, goal, s), run, 0, |run| - 1);
  }

  // ---------- And they come to an end ----------

  /** What is still to come of a message: one that may start rules may cost a command for each. */
  function Cost(x: Message, managed: set<string>, n: nat): nat {
    if x.Report? || (x.event.ModeChanged? && x.event.modeId in managed) then 1 else 1 + 3 * n
  }

  function Load(queue: seq<Message>, managed: set<string>, n: nat): nat {
    if queue == [] then 0 else Cost(queue[0], managed, n) + Load(queue[1..], managed, n)
  }

  lemma {:induction false} LoadJoin(a: seq<Message>, b: seq<Message>, managed: set<string>, n: nat)
    ensures Load(a + b, managed, n) == Load(a, managed, n) + Load(b, managed, n)
  {
    if a == [] {
      assert a + b == b;
    } else {
      assert (a + b)[1..] == a[1..] + b;
      LoadJoin(a[1..], b, managed, n);
    }
  }

  ghost function Outstanding(s: Engine, managed: set<string>, n: nat): nat {
    Load(s.queue, managed, n) + 3 * |s.commands|
  }

  lemma {:induction false} JudgeCounts(s: Engine, rules: seq<Rule>, e: Event)
    ensures |Judge(s, rules, e).commands| <= |s.commands| + |rules|
    ensures Judge(s, rules, e).queue == s.queue
    ensures (forall r :: r in rules ==> !Starts(e, r)) ==> Judge(s, rules, e) == s
    decreases rules
  {
    if rules != [] {
      var r := rules[0];
      if Starts(e, r) && ConditionsHold(r, s.cache) {
        assert r in rules;
        var sent := Command(s.issued, r.mode, r.turnOn);
        JudgeCounts(s.(commands := s.commands + {sent}, issued := s.issued + 1), rules[1..], e);
      } else {
        JudgeCounts(s, rules[1..], e);
      }
    }
  }

  lemma ManagedTrigger(d: Definition, r: Rule)
    requires EffectiveOff(d).Ok? && r in ManagedRules(d)
    ensures r.trigger in TriggersFor(d)
  {
  }

  lemma TriggersRead(d: Definition, t: Trigger)
    requires t in TriggersFor(d)
    ensures t.OnModeChanged? ==> t.modeId in ReadsOf(d)
    ensures t.OnDeviceChanged? ==> t.deviceIds <= ReadsOf(d)
  {
  }

  /** What a managed mode publishes starts nothing when no criterion reads one. */
  lemma {:induction false} ModesStartNothing(defs: seq<Definition>, rules: seq<Rule>, e: Event, r: Rule)
    requires Independent(defs) && Installed(defs, rules) && r in rules
    requires (e.ModeChanged? && e.modeId in Ids(defs)) || (e.DeviceChanged? && e.deviceId in Ids(defs))
    ensures !Starts(e, r)
  {
    var d :| d in defs && r in ManagedRules(d);
    ManagedTrigger(d, r);
    TriggersRead(d, r.trigger);
  }

  lemma {:induction false} HandleSpends(defs: seq<Definition>, rules: seq<Rule>, s: Engine)
    requires Independent(defs) && Installed(defs, rules) && s.queue != []
    requires forall x :: x in s.queue && x.Report? ==> x.mode in Ids(defs)
    ensures Outstanding(Handle(s, rules), Ids(defs), |rules|) < Outstanding(s, Ids(defs), |rules|)
  {
    var x, e := s.queue[0], EventOf(s.queue[0]);
    assert x in s.queue;
    JudgeCounts(Taken(s), rules, e);
    if x.Report? || (x.event.ModeChanged? && x.event.modeId in Ids(defs)) {
      forall r | r in rules ensures !Starts(e, r) {
        ModesStartNothing(defs, rules, e, r);
      }
    }
  }

  lemma {:induction false} DeliverSpends(s: Engine, c: Command, n: nat)
    requires c in s.commands
    ensures Outstanding(Deliver(s, c), s.store.Keys, n) < Outstanding(s, s.store.Keys, n)
  {
    var noted := if c.mode in s.store && s.store[c.mode] != c.on then [Note(ModeChanged(c.mode))] else [];
    if c.mode in s.store {
      LoadJoin(s.queue + noted, [Report(c.mode, c.on)], s.store.Keys, n);
      LoadJoin(s.queue, noted, s.store.Keys, n);
      assert [Report(c.mode, c.on)][1..] == [] && (noted != [] ==> noted[1..] == []);
    }
  }

  lemma {:induction false} OwnStepSpends(defs: seq<Definition>, rules: seq<Rule>, goal: World, s: Engine, s': Engine)
    requires Independent(defs) && Installed(defs, rules) && Consistent(defs, goal, s) && OwnStep(rules, s, s')
    ensures Outstanding(s', Ids(defs), |rules|) < Outstanding(s, Ids(defs), |rules|)
  {
    if s.queue != [] && s' == Handle(s, rules) {
      HandleSpends(defs, rules, s);
    } else {
      var c :| c in s.commands && s' == Deliver(s, c);
      DeliverSpends(s, c, |rules|);
    }
  }

  /** Such a run has no more steps than were outstanding at its start. */
  lemma {:induction false} EventsRunOut(defs: seq<Definition>, rules: seq<Rule>, goal: World, run: seq<Engine>)
    requires Independent(defs) && Installed(defs, rules) && run != [] && Consistent(defs, goal, run[0])
    requires forall i :: 0 <= i < |run| - 1 ==> OwnStep(rules, run[i], run[i + 1])
    ensures Consistent(defs, goal, run[|run| - 1])
    ensures |run| - 1 + Outstanding(run[|run| - 1], Ids(defs), |rules|) <= Outstanding(run[0], Ids(defs), |rules|)
    decreases |run|
  {
    if |run| > 1 {
      var shorter := run[..|run| - 1];
      EventsRunOut(defs, rules, goal, shorter);
      var s, s' := shorter[|shorter| - 1], run[|run| - 1];
      assert OwnStep(rules, s, s');
      OwnStepSpends(defs, rules, goal, s, s');
      StepConsistent(defs, goal, rules, s, s');
    }
  }
}
