/**
  The exact reach of the events alone: left to them, the engine settles every list of
  definitions with the same references exactly when no criterion reads a managed mode.
 */
module ModeEventsDecide {
  import opened Options
  import opened Conditions
  import opened Graphs
  import opened ManagedModes
  import opened ModeTargets
  import opened ModeCascade
  import opened ModeBus
  import opened ModeBusStall
  import opened ModeReadGraph
  import opened Traces

  /** Just started, with nothing under way but notes. */
  ghost predicate FreshStart(defs: seq<Definition>, goal: World, s: Engine) {
    && Consistent(defs, goal, s) && s.commands == {}
    && Note(SystemStarted) in s.queue && forall x :: x in s.queue ==> x.Note?
  }

  ghost predicate IsOwnRun(rules: seq<Rule>, run: seq<Engine>) {
    run != [] && forall i :: 0 <= i < |run| - 1 ==> OwnStep(rules, run[i], run[i + 1])
  }

  predicate Idle(s: Engine) {
    s.queue == [] && s.commands == {}
  }

  ghost predicate AtGoal(defs: seq<Definition>, goal: World, s: Engine) {
    forall m :: m in Ids(defs) ==> m in s.store && s.store[m] == ModeOn(goal, m) == ModeOn(s.cache, m)
  }

  /** From start-up, with no ticks, the engine comes to rest at the goal or not at all. */
  ghost predicate EventsSettle(defs: seq<Definition>) {
    forall rules, goal, run |
      && Installed(defs, rules) && AllRight(defs, goal) && Known(defs, goal)
      && IsOwnRun(rules, run) && FreshStart(defs, goal, run[0]) && Idle(run[|run| - 1])
      :: AtGoal(defs, goal, run[|run| - 1])
  }

  // ---------- Nothing managed is read ----------

  lemma {:induction false} SameReferencesSimple(defs: seq<Definition>, defs': seq<Definition>)
    requires DistinctIds(defs) && AllInverse(defs) && SameReferences(defs, defs')
    ensures DistinctIds(defs') && AllInverse(defs') && Ids(defs') == Ids(defs)
    ensures Independent(defs) ==> Independent(defs')
  {
    SameReferencesSameIds(defs, defs');
    forall d' | d' in defs'
      ensures d'.offBehavior == Inverse
      ensures Independent(defs) ==> ReadsOf(d') !! Ids(defs') {
      var i :| 0 <= i < |defs'| && defs'[i] == d';
      assert SameReads(defs[i], d') && defs[i] in defs;
    }
  }

  lemma {:induction false} IndependentEventsSettle(defs: seq<Definition>)
    requires DistinctIds(defs) && AllInverse(defs) && Independent(defs)
    ensures EventsSettle(defs)
  {
    forall rules, goal, run |
      && Installed(defs, rules) && AllRight(defs, goal) && Known(defs, goal)
      && IsOwnRun(rules, run) && FreshStart(defs, goal, run[0]) && Idle(run[|run| - 1])
      ensures AtGoal(defs, goal, run[|run| - 1]) {
      EventsSettleIndependentModes(defs, rules, goal, run);
    }
  }

  // ---------- A list rigged to go wrong ----------

  /** On in every world, and reading on as before. */
  function Always(d: Definition): Definition {
    d.(onCondition := Vacuous(d.onCondition))
  }

  lemma {:induction false} AlwaysMeans(d: Definition, w: World)
    requires d.offBehavior == Inverse
    ensures Wrong(Always(d), w) <==> !ModeOn(w, d.modeId)
  {
    var vac := [d.onCondition, Not(d.onCondition)];
    assert d.onCondition in vac && Not(d.onCondition) in vac;
    assert Holds(Vacuous(d.onCondition), w);
    InverseRight(Always(d), w);
  }

  lemma {:induction false} AlwaysReads(d: Definition)
    ensures SameReads(d, Always(d))
  {
    RefsOfTwo(d.onCondition, Not(d.onCondition));
    assert TimedReads(Vacuous(d.onCondition)) == TimedReads(d.onCondition);
  }

  /** One definition follows a mode it reads; all others are always on. */
  function Rigged(defs: seq<Definition>, d: Definition, m: string): seq<Definition> {
    seq(|defs|, i requires 0 <= i < |defs| => if defs[i] == d then Follow(d, m, false) else Always(defs[i]))
  }

  lemma {:induction false} RiggedReadsTheSame(defs: seq<Definition>, d: Definition, m: string)
    requires m in ReadsOf(d)
    ensures SameReferences(defs, Rigged(defs, d, m))
  {
    forall i | 0 <= i < |defs| ensures SameReads(defs[i], Rigged(defs, d, m)[i]) {
      AlwaysReads(defs[i]);
      FollowReads(d, m, false);
    }
  }

  /** Who is wrong where: the follower when it differs from what it follows, any other mode when it is off. */
  lemma {:induction false} RiggedWrong(defs: seq<Definition>, d: Definition, m: string, x: Definition, w: World)
    requires DistinctIds(defs) && AllInverse(defs) && d in defs && x in Rigged(defs, d, m)
    ensures x.offBehavior == Inverse && x.modeId in Ids(defs)
    ensures Wrong(x, w) <==> ModeOn(w, x.modeId) != (if x.modeId == d.modeId then ModeOn(w, m) else true)
  {
    var i :| 0 <= i < |defs| && Rigged(defs, d, m)[i] == x;
    assert defs[i] in defs;
    DefinitionOfIs(defs, defs[i]);
    DefinitionOfIs(defs, d);
    AlwaysMeans(defs[i], w);
    FollowMeans(d, m, false, w);
    InverseRight(Follow(d, m, false), w);
  }

  lemma {:induction false} RiggedHas(defs: seq<Definition>, d: Definition, m: string, mode: string)
    returns (x: Definition)
    requires mode in Ids(defs)
    ensures x in Rigged(defs, d, m) && x.modeId == mode
  {
    var i :| 0 <= i < |defs| && defs[i].modeId == mode;
    x := Rigged(defs, d, m)[i];
  }

  // ---------- Where it starts and where it should end ----------

  function Switch(on: bool): Device {
    Device(map["on" := Bool(on)], map[], None)
  }

  /** Every managed mode is known, and on unless it is the one left out. */
  function AllOnBut(ids: set<string>, off: Option<string>): World {
    World(map m | m in ids :: Switch(Some(m) != off), map[], 0, {})
  }

  function FreshBut(ids: set<string>, off: string): Engine {
    Engine(AllOnBut(ids, Some(off)), map m | m in ids :: m != off, [Note(SystemStarted)], {}, 0, 0)
  }

  lemma {:induction false} AllOnIsKnown(defs: seq<Definition>, off: Option<string>)
    ensures Known(defs, AllOnBut(Ids(defs), off))
    ensures SameSurroundings(AllOnBut(Ids(defs), off), AllOnBut(Ids(defs), None), Ids(defs))
    ensures forall m :: m in Ids(defs) ==> ModeOn(AllOnBut(Ids(defs), off), m) == (Some(m) != off)
  {
    var w, w' := AllOnBut(Ids(defs), off), AllOnBut(Ids(defs), None);
    forall m | m in Ids(defs) ensures HasSwitch(w, m) && SameApartFromOn(w, w', m) {
      assert AttributesOf(w, m) - {"on"} == map[] && AttributesOf(w', m) - {"on"} == map[];
    }
    forall d | d in defs ensures SwitchesKnown(d, Ids(defs), w) {
    }
  }

  lemma {:induction false} FreshButStarts(defs: seq<Definition>, off: string)
    requires off in Ids(defs)
    ensures FreshStart(defs, AllOnBut(Ids(defs), None), FreshBut(Ids(defs), off))
  {
    AllOnIsKnown(defs, Some(off));
    var s := FreshBut(Ids(defs), off);
    assert [Note(SystemStarted)][1..] == [];
    assert forall m :: m in Ids(defs) ==> Latest(s.queue, m, ModeOn(s.cache, m)) == ModeOn(s.cache, m);
  }

  lemma {:induction false} RiggedGoal(defs: seq<Definition>, d: Definition, m: string)
    requires DistinctIds(defs) && AllInverse(defs) && d in defs && m in Ids(defs)
    ensures AllRight(Rigged(defs, d, m), AllOnBut(Ids(defs), None))
  {
    AllOnIsKnown(defs, None);
    forall x | x in Rigged(defs, d, m) ensures !Wrong(x, AllOnBut(Ids(defs), None)) {
      RiggedWrong(defs, d, m, x, AllOnBut(Ids(defs), None));
    }
  }

  lemma {:induction false} Listed<T>(s: set<T>) returns (q: seq<T>)
    ensures forall x :: x in q <==> x in s
  {
    if s == {} {
      q := [];
    } else {
      var x :| x in s;
      var rest := Listed(s - {x});
      q := [x] + rest;
    }
  }

  /** The rules of any inverse-off list can be installed. */
  lemma {:induction false} RulesExist(defs: seq<Definition>) returns (rules: seq<Rule>)
    requires AllInverse(defs)
    ensures Installed(defs, rules)
  {
    if defs == [] {
      rules := [];
    } else {
      var own := Listed(ManagedRules(defs[0]));
      var rest := RulesExist(defs[1..]);
      rules := own + rest;
      forall r ensures r in rules <==> exists d :: d in defs && r in ManagedRules(d) {
        assert r in rest <==> exists d :: d in defs[1..] && r in ManagedRules(d);
        assert forall d :: d in defs <==> d == defs[0] || d in defs[1..];
      }
    }
  }

  // ---------- A mode that reads itself ----------

  /** Off, it is right to stay off: start-up is handled and nothing is sent. */
  lemma {:induction false} SelfReaderStaysOff(defs: seq<Definition>, d: Definition, rules: seq<Rule>)
    returns (run: seq<Engine>)
    requires DistinctIds(defs) && AllInverse(defs) && d in defs && Installed(Rigged(defs, d, d.modeId), rules)
    ensures IsOwnRun(rules, run) && run[0] == FreshBut(Ids(defs), d.modeId) && Idle(run[|run| - 1])
    ensures run[|run| - 1].store == run[0].store
  {
    var s := FreshBut(Ids(defs), d.modeId);
    run := [s, Handle(s, rules)];
    var t := Taken(s);
    AllOnIsKnown(defs, Some(d.modeId));
    RulesAtStart(defs, d, d.modeId, rules, t.cache);
    JudgeShape(t, rules, SystemStarted);
    assert Handle(s, rules).commands == {};
  }

  // ---------- A mode that reads another ----------

  /** Stored as told, or soon to be. */
  ghost predicate Told(s: Engine, m: string, v: bool) {
    m in s.store && (s.store[m] == v || OnItsWay(s, m, v, s.issued))
  }

  /**
    Only mode x is moving, to v: every other mode is cached on. Whatever else is under way
    turns mode d off.
   */
  ghost predicate Moving(defs: seq<Definition>, goal: World, d: string, x: string, v: bool, s: Engine) {
    && Consistent(defs, goal, s)
    && (forall m :: m in Ids(defs) && m != x ==> ModeOn(s.cache, m))
    && (forall e :: e in s.queue ==> e == Note(ModeChanged(x)) || e == Report(x, v))
    && (forall c :: c in s.commands ==> (c.mode == x && c.on == v) || (c.mode == d && !c.on))
    && Told(s, x, v) && Told(s, d, false)
  }

  ghost predicate NoneReadsItself(defs: seq<Definition>) {
    forall d :: d in defs ==> d.modeId !in ReadsOf(d)
  }

  /** Where all modes but x are on, an event of x sends nothing but commands that turn mode d off. */
  ghost predicate Quiet(ids: set<string>, rules: seq<Rule>, d: string, x: string) {
    forall w, e, r :: r in rules && Starts(e, r) && ConditionsHold(r, w) ==> SentQuietly(ids, d, x, w, e, r)
  }

  predicate SentQuietly(ids: set<string>, d: string, x: string, w: World, e: Event, r: Rule) {
    (e == ModeChanged(x) || e == DeviceChanged(x)) && (forall y :: y in ids && y != x ==> ModeOn(w, y)) ==>
      r.mode == d && d != x && !r.turnOn
  }

  /** A rigged list is quiet: modes that are always on have nothing to do, and none reads itself. */
  lemma {:induction false} RiggedIsQuiet(defs: seq<Definition>, d: Definition, m: string, rules: seq<Rule>, x: string)
    requires DistinctIds(defs) && AllInverse(defs) && d in defs && m in ReadsOf(d) && NoneReadsItself(defs)
    requires Installed(Rigged(defs, d, m), rules)
    ensures Quiet(Ids(defs), rules, d.modeId, x)
  {
    forall w, e, r | r in rules && Starts(e, r) && ConditionsHold(r, w)
      ensures SentQuietly(Ids(defs), d.modeId, x, w, e, r) {
      if (e == ModeChanged(x) || e == DeviceChanged(x)) && (forall y :: y in Ids(defs) && y != x ==> ModeOn(w, y)) {
        var o := RuleOwner(Rigged(defs, d, m), rules, r);
        RiggedWrong(defs, d, m, o, w);
        StartedByRead(defs, d, m, o, r, e, x);
      }
    }
  }

  lemma {:induction false} StartedByRead(defs: seq<Definition>, d: Definition, m: string, o: Definition, r: Rule,
                                         e: Event, x: string)
    requires m in ReadsOf(d) && NoneReadsItself(defs) && o in Rigged(defs, d, m)
    requires EffectiveOff(o).Ok? && r in ManagedRules(o) && Starts(e, r)
    requires e == ModeChanged(x) || e == DeviceChanged(x)
    ensures o.modeId != x
  {
    ManagedTrigger(o, r);
    TriggersRead(o, r.trigger);
    RiggedReadsTheSame(defs, d, m);
    var i :| 0 <= i < |defs| && Rigged(defs, d, m)[i] == o;
    assert SameReads(defs[i], o) && defs[i] in defs;
  }

  lemma {:induction false} TakenMoving(defs: seq<Definition>, goal: World, d: string, x: string, v: bool, s: Engine)
    requires Moving(defs, goal, d, x, v, s) && s.queue != []
    ensures Moving(defs, goal, d, x, v, Taken(s)) && EventOf(s.queue[0]) in {ModeChanged(x), DeviceChanged(x)}
  {
    var t := Taken(s);
    assert s.queue[0] in s.queue && forall y :: y in t.queue ==> y in s.queue;
    TakenConsistent(defs, goal, s);
    SetModeEffect(s.cache, x, v);
    forall y | y in Ids(defs) && y != x ensures ModeOn(t.cache, y) {
      assert Lookup(SetMode(s.cache, x, v).devices, y) == Lookup(s.cache.devices, y);
    }
    assert OnItsWay(s, x, v, s.issued) ==> OnItsWay(t, x, v, t.issued);
    assert OnItsWay(s, d, false, s.issued) ==> OnItsWay(t, d, false, t.issued);
  }

  lemma {:induction false} JudgedQuietly(defs: seq<Definition>, goal: World, rules: seq<Rule>, d: string, x: string,
                                         v: bool, s: Engine, e: Event)
    requires Quiet(Ids(defs), rules, d, x) && (e == ModeChanged(x) || e == DeviceChanged(x))
    requires Moving(defs, goal, d, x, v, s)
    ensures forall c :: c in Judge(s, rules, e).commands && c !in s.commands ==> c.mode == d && d != x && !c.on
  {
    JudgeShape(s, rules, e);
    forall c | c in Judge(s, rules, e).commands && c !in s.commands ensures c.mode == d && d != x && !c.on {
      var r :| r in rules && Starts(e, r) && r.mode == c.mode && r.turnOn == c.on && ConditionsHold(r, s.cache);
      assert SentQuietly(Ids(defs), d, x, s.cache, e, r);
    }
  }

  lemma {:induction false} HandleMoving(defs: seq<Definition>, goal: World, rules: seq<Rule>, d: string, x: string,
                                        v: bool, s: Engine)
    requires Quiet(Ids(defs), rules, d, x) && Moving(defs, goal, d, x, v, s) && s.queue != []
    ensures Moving(defs, goal, d, x, v, Handle(s, rules))
    ensures Left(Handle(s, rules), x) < Left(s, x)
  {
    var t, e, s' := Taken(s), EventOf(s.queue[0]), Handle(s, rules);
    TakenMoving(defs, goal, d, x, v, s);
    JudgedQuietly(defs, goal, rules, d, x, v, t, e);
    JudgeShape(t, rules, e);
    assert CommandsFor(s', x) == CommandsFor(s, x);
    StillComing(s, rules, x, v);
    StillComing(s, rules, d, false);
  }

  ghost function CommandsFor(s: Engine, x: string): set<Command> {
    set c | c in s.commands && c.mode == x
  }

  /** What is left to do before mode x has come to rest. */
  ghost function Left(s: Engine, x: string): nat {
    3 * |CommandsFor(s, x)| + |s.queue|
  }

  lemma {:induction false} DeliverLeavesLess(s: Engine, x: string, c: Command)
    requires c in CommandsFor(s, x)
    ensures Left(Deliver(s, c), x) < Left(s, x)
  {
    assert CommandsFor(Deliver(s, c), x) == CommandsFor(s, x) - {c};
  }

  lemma {:induction false} DeliverMoving(defs: seq<Definition>, goal: World, d: string, x: string, v: bool, s: Engine,
                                         c: Command)
    requires Moving(defs, goal, d, x, v, s) && c in CommandsFor(s, x) && (x == d ==> !v)
    ensures Moving(defs, goal, d, x, v, Deliver(s, c))
    ensures Left(Deliver(s, c), x) < Left(s, x)
  {
    var s' := Deliver(s, c);
    DeliverConsistent(defs, goal, s, c);
    DeliverLeavesLess(s, x, c);
    if x != d && s.store[d] {
      var sent :| sent in s.commands && sent.mode == d && !sent.on && sent.id < s.issued;
      assert sent in s'.commands;
    }
  }

  ghost predicate Rested(s: Engine, x: string) {
    s.queue == [] && CommandsFor(s, x) == {}
  }

  /** The moving mode comes to rest while what turns mode d off waits. */
  lemma {:induction false} ComesToRest(defs: seq<Definition>, goal: World, rules: seq<Rule>, d: string, x: string,
                                       v: bool, s: Engine) returns (run: seq<Engine>)
    requires Quiet(Ids(defs), rules, d, x) && Moving(defs, goal, d, x, v, s) && (x == d ==> !v)
    ensures IsOwnRun(rules, run) && run[0] == s && Rested(run[|run| - 1], x)
    ensures Moving(defs, goal, d, x, v, run[|run| - 1])
    decreases Left(s, x)
  {
    if Rested(s, x) {
      run := [s];
    } else {
      var s' := MovesOn(defs, goal, rules, d, x, v, s);
      var rest := ComesToRest(defs, goal, rules, d, x, v, s');
      run := OneStepMore(rules, s, s', rest);
    }
  }

  lemma {:induction false} MovesOn(defs: seq<Definition>, goal: World, rules: seq<Rule>, d: string, x: string, v: bool,
                                   s: Engine) returns (s': Engine)
    requires Quiet(Ids(defs), rules, d, x) && Moving(defs, goal, d, x, v, s) && (x == d ==> !v) && !Rested(s, x)
    ensures OwnStep(rules, s, s') && Moving(defs, goal, d, x, v, s') && Left(s', x) < Left(s, x)
  {
    if s.queue != [] {
      HandleMoving(defs, goal, rules, d, x, v, s);
      s' := Handle(s, rules);
    } else {
      var c :| c in CommandsFor(s, x);
      DeliverMoving(defs, goal, d, x, v, s, c);
      s' := Deliver(s, c);
    }
  }

  /** Start-up has the mode turned on and, as the cache has it off, its follower turned off. */
  lemma {:induction false} StartMoves(defs: seq<Definition>, d: Definition, m: string, rules: seq<Rule>)
    requires DistinctIds(defs) && AllInverse(defs) && d in defs && m in ReadsOf(d) && m in Ids(defs) && m != d.modeId
    requires Installed(Rigged(defs, d, m), rules) && Ids(Rigged(defs, d, m)) == Ids(defs)
    ensures Moving(Rigged(defs, d, m), AllOnBut(Ids(defs), None), d.modeId, m, true,
                   Handle(FreshBut(Ids(defs), m), rules))
  {
    var s, goal, defs' := FreshBut(Ids(defs), m), AllOnBut(Ids(defs), None), Rigged(defs, d, m);
    var t, s' := Taken(s), Handle(s, rules);
    FreshButStarts(defs', m);
    StepConsistent(defs', goal, rules, s, s');
    AllOnIsKnown(defs, Some(m));
    StartJudged(defs, d, m, rules, t);
    JudgeShape(t, rules, SystemStarted);
  }

  lemma {:induction false} StartJudged(defs: seq<Definition>, d: Definition, m: string, rules: seq<Rule>, t: Engine)
    requires DistinctIds(defs) && AllInverse(defs) && d in defs && m in Ids(defs) && m != d.modeId
    requires Installed(Rigged(defs, d, m), rules) && t.commands == {} && t.store.Keys == Ids(defs)
    requires forall x :: x in Ids(defs) ==> ModeOn(t.cache, x) == (x != m)
    ensures var s' := Judge(t, rules, SystemStarted);
            && (forall c :: c in s'.commands ==> if c.on then c.mode == m else c.mode == d.modeId)
            && Told(s', m, true) && Told(s', d.modeId, false)
  {
    assert d.modeId in Ids(defs);
    RulesAtStart(defs, d, m, rules, t.cache);
    StartSendsNoMore(m, d.modeId, rules, t);
    StartTells(defs, d, m, rules, t, m);
    StartTells(defs, d, m, rules, t, d.modeId);
  }

  /** With one mode off and the rest on, that mode has to go on and its follower off; no rule says anything else. */
  lemma {:induction false} RulesAtStart(defs: seq<Definition>, d: Definition, m: string, rules: seq<Rule>, w: World)
    requires DistinctIds(defs) && AllInverse(defs) && d in defs && m in Ids(defs)
    requires Installed(Rigged(defs, d, m), rules)
    requires forall x :: x in Ids(defs) ==> ModeOn(w, x) == (x != m)
    ensures forall r :: r in rules && ConditionsHold(r, w) ==>
                          if r.turnOn then r.mode == m != d.modeId else r.mode == d.modeId != m
  {
    forall r | r in rules && ConditionsHold(r, w)
      ensures if r.turnOn then r.mode == m != d.modeId else r.mode == d.modeId != m {
      var o := RuleOwner(Rigged(defs, d, m), rules, r);
      RiggedWrong(defs, d, m, o, w);
    }
  }

  lemma {:induction false} StartSendsNoMore(m: string, d: string, rules: seq<Rule>, t: Engine)
    requires t.commands == {}
    requires forall r :: r in rules && ConditionsHold(r, t.cache) ==> if r.turnOn then r.mode == m else r.mode == d
    ensures forall c :: c in Judge(t, rules, SystemStarted).commands ==> if c.on then c.mode == m else c.mode == d
  {
    JudgeShape(t, rules, SystemStarted);
  }

  lemma {:induction false} StartTells(defs: seq<Definition>, d: Definition, m: string, rules: seq<Rule>, t: Engine,
                                      x: string)
    requires DistinctIds(defs) && AllInverse(defs) && d in defs && m != d.modeId && x in Ids(defs) && x in t.store
    requires Installed(Rigged(defs, d, m), rules) && !ModeOn(t.cache, m) && ModeOn(t.cache, d.modeId)
    requires x == m || x == d.modeId
    ensures Told(Judge(t, rules, SystemStarted), x, x == m)
  {
    var o := RiggedHas(defs, d, m, x);
    RiggedWrong(defs, d, m, o, t.cache);
    RemedyIsManaged(o, t.cache, SystemStarted);
    var r := Remedy(o, t.cache, SystemStarted);
    assert r in rules && r.mode == x && r.turnOn == (x == m);
    JudgeShape(t, rules, SystemStarted);
  }

  /** A mode that is stored right and no longer moving is cached right. */
  lemma {:induction false} RestedIsCached(defs: seq<Definition>, goal: World, d: string, x: string, v: bool, s: Engine)
    requires Moving(defs, goal, d, x, v, s) && Rested(s, x) && x in Ids(defs)
    ensures s.store[x] == v == ModeOn(s.cache, x)
  {
    if c :| c in s.commands && c.mode == x && c.on == v && c.id < s.issued {
      assert c in CommandsFor(s, x);
    }
  }

  lemma {:induction false} OwnRunsJoin(rules: seq<Rule>, run: seq<Engine>, more: seq<Engine>)
    requires IsOwnRun(rules, run) && IsOwnRun(rules, more) && more[0] == run[|run| - 1]
    ensures IsOwnRun(rules, Continued(run, more)) && Continued(run, more)[0] == run[0]
    ensures Continued(run, more)[|Continued(run, more)| - 1] == more[|more| - 1]
  {
    var whole := Continued(run, more);
    ContinuedAt(run, more);
    assert whole[|run| - 1 + (|more| - 1)] == more[|more| - 1];
    forall i | 0 <= i < |whole| - 1 ensures OwnStep(rules, whole[i], whole[i + 1]) {
      if i >= |run| - 1 {
        var k := i - (|run| - 1);
        assert whole[|run| - 1 + k] == more[k] && whole[|run| - 1 + (k + 1)] == more[k + 1];
      }
    }
  }

  /** First the mode moves on; then what was sent before it did is carried out, and nothing takes it back. */
  lemma {:induction false} FollowerIsLeftOff(defs: seq<Definition>, goal: World, rules: seq<Rule>, d: string, m: string,
                                             s: Engine) returns (run: seq<Engine>)
    requires Quiet(Ids(defs), rules, d, m) && Quiet(Ids(defs), rules, d, d)
    requires Moving(defs, goal, d, m, true, s) && m != d && m in Ids(defs) && d in Ids(defs)
    ensures IsOwnRun(rules, run) && run[0] == s && Idle(run[|run| - 1])
    ensures d in run[|run| - 1].store && !run[|run| - 1].store[d]
  {
    var first := ComesToRest(defs, goal, rules, d, m, true, s);
    var s1 := first[|first| - 1];
    RestedIsCached(defs, goal, d, m, true, s1);
    FollowerMoves(defs, goal, d, m, s1);
    var second := ComesToRest(defs, goal, rules, d, d, false, s1);
    var s2 := second[|second| - 1];
    RestedIsCached(defs, goal, d, d, false, s2);
    assert s2.commands == CommandsFor(s2, d);
    OwnRunsJoin(rules, first, second);
    run := Continued(first, second);
  }

  /** Once the mode has come to rest, on, the follower alone is moving. */
  lemma {:induction false} FollowerMoves(defs: seq<Definition>, goal: World, d: string, m: string, s: Engine)
    requires Moving(defs, goal, d, m, true, s) && Rested(s, m) && m != d && ModeOn(s.cache, m)
    ensures Moving(defs, goal, d, d, false, s)
  {
    forall c | c in s.commands ensures c.mode == d && !c.on {
      assert c !in CommandsFor(s, m);
    }
  }

  // ---------- The exact condition ----------

  /** From start-up to rest, with the follower left off. */
  lemma {:induction false} StalledRun(defs: seq<Definition>, d: Definition, m: string, rules: seq<Rule>)
    returns (run: seq<Engine>)
    requires DistinctIds(defs) && AllInverse(defs) && d in defs && m in ReadsOf(d) && m in Ids(defs)
    requires m != d.modeId && NoneReadsItself(defs)
    requires Installed(Rigged(defs, d, m), rules) && Ids(Rigged(defs, d, m)) == Ids(defs)
    ensures IsOwnRun(rules, run) && run[0] == FreshBut(Ids(defs), m) && Idle(run[|run| - 1])
    ensures d.modeId in run[|run| - 1].store && !run[|run| - 1].store[d.modeId]
  {
    var s := FreshBut(Ids(defs), m);
    var s' := Handle(s, rules);
    StartMoves(defs, d, m, rules);
    RiggedIsQuiet(defs, d, m, rules, m);
    RiggedIsQuiet(defs, d, m, rules, d.modeId);
    assert d.modeId in Ids(defs);
    var rest := FollowerIsLeftOff(Rigged(defs, d, m), AllOnBut(Ids(defs), None), rules, d.modeId, m, s');
    run := OneStepMore(rules, s, s', rest);
  }

  lemma {:induction false} OneStepMore(rules: seq<Rule>, s: Engine, s': Engine, rest: seq<Engine>)
    returns (run: seq<Engine>)
    requires OwnStep(rules, s, s') && IsOwnRun(rules, rest) && rest[0] == s'
    ensures IsOwnRun(rules, run) && run[0] == s && run[|run| - 1] == rest[|rest| - 1]
  {
    run := [s] + rest;
  }

  /** Where a managed mode is read, a list with these references can come to rest with a mode wrong. */
  lemma {:induction false} ReadModesCanStall(defs: seq<Definition>, d: Definition, m: string)
    returns (defs': seq<Definition>)
    requires DistinctIds(defs) && AllInverse(defs) && d in defs && m in ReadsOf(d) && m in Ids(defs)
    requires m == d.modeId || NoneReadsItself(defs)
    ensures SameReferences(defs, defs') && !EventsSettle(defs')
  {
    defs' := Rigged(defs, d, m);
    RiggedReadsTheSame(defs, d, m);
    SameReferencesSimple(defs, defs');
    var rules := RulesExist(defs');
    var run;
    if m == d.modeId {
      run := SelfReaderStaysOff(defs, d, rules);
    } else {
      run := StalledRun(defs, d, m, rules);
    }
    RiggedGoal(defs, d, m);
    assert d.modeId in Ids(defs');
    RestsElsewhere(defs', rules, run, m, d.modeId);
  }

  lemma {:induction false} RestsElsewhere(defs: seq<Definition>, rules: seq<Rule>, run: seq<Engine>, off: string,
                                          m: string)
    requires Installed(defs, rules) && AllRight(defs, AllOnBut(Ids(defs), None))
    requires IsOwnRun(rules, run) && off in Ids(defs) && run[0] == FreshBut(Ids(defs), off) && Idle(run[|run| - 1])
    requires m in Ids(defs) && m in run[|run| - 1].store && !run[|run| - 1].store[m]
    ensures !EventsSettle(defs)
  {
    var goal := AllOnBut(Ids(defs), None);
    AllOnIsKnown(defs, None);
    FreshButStarts(defs, off);
    assert !AtGoal(defs, goal, run[|run| - 1]);
  }

  /**
    What is read decides here too: left to its own events from start-up, the engine settles
    every list with these references exactly when none of them names a managed mode.
   */
  lemma {:induction false} EventsSettleIff(defs: seq<Definition>)
    requires DistinctIds(defs) && AllInverse(defs)
    ensures Independent(defs) <==> forall defs' :: SameReferences(defs, defs') ==> EventsSettle(defs')
  {
    if Independent(defs) {
      forall defs' | SameReferences(defs, defs') ensures EventsSettle(defs') {
        SameReferencesSimple(defs, defs');
        IndependentEventsSettle(defs');
      }
    } else if !NoneReadsItself(defs) {
      var d :| d in defs && d.modeId in ReadsOf(d);
      var defs' := ReadModesCanStall(defs, d, d.modeId);
    } else {
      var d :| d in defs && !(ReadsOf(d) !! Ids(defs));
      var m :| m in ReadsOf(d) && m in Ids(defs);
      var defs' := ReadModesCanStall(defs, d, m);
    }
  }
}
