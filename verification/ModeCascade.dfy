/**
  The generated rules under an engine whose mode commands take effect at once: setting
  a mode publishes events, events wait in a queue, and taking one runs the rules it
  starts, in order, each seeing what the ones before it did. Events are taken in any
  order. This is the ideal the definitions are written for; module ModeBus has the
  engine as it publishes.
 */
module ModeCascade {
  import opened Basics
  import opened Options
  import opened Conditions
  import opened Graphs
  import opened ManagedModes
  import opened ModeTargets

  datatype State = State(world: World, queue: seq<Event>)

  function Fire(s: State, r: Rule): State {
    if ConditionsHold(r, s.world)
    then State(SetMode(s.world, r.mode, r.turnOn), s.queue + [ModeChanged(r.mode), DeviceChanged(r.mode)])
    else s
  }

  function RunRule(s: State, r: Rule, e: Event): State {
    if Starts(e, r) then Fire(s, r) else s
  }

  function RunRules(s: State, rules: seq<Rule>, e: Event): State
    decreases rules
  {
    if rules == [] then s
    else RunRules(RunRule(s, rules[0], e), rules[1..], e)
  }

  /** Taking the `k`-th waiting event. */
  function Process(s: State, rules: seq<Rule>, k: nat): State
    requires k < |s.queue|
  {
    RunRules(State(s.world, s.queue[..k] + s.queue[k + 1..]), rules, s.queue[k])
  }

  /** All rules of all definitions, in whatever order they were installed. */
  ghost predicate Installed(defs: seq<Definition>, rules: seq<Rule>) {
    && (forall d :: d in defs ==> EffectiveOff(d).Ok?)
    && forall r :: r in rules <==> exists d :: d in defs && r in ManagedRules(d)
  }

  ghost function End(run: seq<State>): State
    requires run != []
  {
    run[|run| - 1]
  }

  /** Some waiting event is taken. */
  ghost predicate Step(rules: seq<Rule>, s: State, s': State) {
    exists k :: 0 <= k < |s.queue| && s' == Process(s, rules, k)
  }

  ghost predicate IsRun(rules: seq<Rule>, run: seq<State>) {
    && run != []
    && forall i :: 0 <= i < |run| - 1 ==> Step(rules, run[i], run[i + 1])
  }

  // ---------- Every wrong mode has its wake-up call waiting ----------

  predicate Wakes(e: Event, d: Definition) {
    || e == SystemStarted
    || (e.ModeChanged? && e.modeId in CriteriaRefs(d).modes)
    || (e.DeviceChanged? && e.deviceId in CriteriaRefs(d).devices)
  }

  function WakeTrigger(e: Event, d: Definition): Trigger {
    match e
    case ModeChanged(id) => OnModeChanged(id)
    case DeviceChanged(_) => OnDeviceChanged(CriteriaRefs(d).devices)
    case _ => OnSystemStarted
  }

  /** The rule that would put the mode right, started by `e`. */
  function Remedy(d: Definition, w: World, e: Event): Rule
    requires EffectiveOff(d).Ok?
  {
    var on := !ModeOn(w, d.modeId);
    BuildRule(d.modeId, if on then d.onCondition else EffectiveOff(d).value, on, WakeTrigger(e, d))
  }

  predicate Waiting(d: Definition, queue: seq<Event>) {
    exists e :: e in queue && Wakes(e, d)
  }

  ghost predicate Covered(defs: seq<Definition>, s: State) {
    forall d :: d in defs ==> Wrong(d, s.world) ==> Waiting(d, s.queue)
  }

  /** The same while `e` is being handled and `rules` are still to run. */
  predicate CoveredOne(d: Definition, s: State, rules: seq<Rule>, e: Event)
    requires EffectiveOff(d).Ok?
  {
    Wrong(d, s.world) ==> Waiting(d, s.queue) || (Wakes(e, d) && Remedy(d, s.world, e) in rules)
  }

  lemma {:induction false} RemedyIsManaged(d: Definition, w: World, e: Event)
    requires EffectiveOff(d).Ok? && Wakes(e, d)
    ensures Remedy(d, w, e) in ManagedRules(d) && Starts(e, Remedy(d, w, e))
    ensures Wrong(d, w) ==> ConditionsHold(Remedy(d, w, e), w)
  {
    assert WakeTrigger(e, d) in TriggersFor(d);
  }

  /** A rule applies only when its mode is wrong, and then turns it round. */
  lemma {:induction false} RuleApplies(d: Definition, r: Rule, w: World)
    requires EffectiveOff(d).Ok? && r in ManagedRules(d) && ConditionsHold(r, w)
    ensures Wrong(d, w) && r.turnOn == !ModeOn(w, d.modeId)
  {
    assert r.conditions[0] in r.conditions && r.conditions[1] in r.conditions;
    assert Holds(r.conditions[0], w) && Holds(r.conditions[1], w);
  }

  lemma {:induction false} RuleOwner(defs: seq<Definition>, rules: seq<Rule>, r: Rule) returns (d: Definition)
    requires Installed(defs, rules) && r in rules
    ensures d in defs && r in ManagedRules(d) && r.mode == d.modeId
    ensures forall w :: ConditionsHold(r, w) ==> Wrong(d, w) && r.turnOn == !ModeOn(w, d.modeId)
  {
    d :| d in defs && r in ManagedRules(d);
    forall w | ConditionsHold(r, w) ensures Wrong(d, w) && r.turnOn == !ModeOn(w, d.modeId) {
      RuleApplies(d, r, w);
    }
  }

  /** With no cycle, no definition reads its own mode. */
  lemma {:induction false} NotReadByItself(defs: seq<Definition>, d: Definition)
    requires WellBehaved(defs) && d in defs
    ensures d.modeId in Ids(defs) && d.modeId !in ReadsOf(d)
  {
    ReadGraphAt(defs, d);
    assert !IsCycle(ReadGraph(defs), [d.modeId, d.modeId]);
    assert Edge(ReadGraph(defs), d.modeId, d.modeId) ==> IsPath(ReadGraph(defs), [d.modeId, d.modeId]);
  }

  /** Firing puts the rule's mode right and leaves alone every mode that does not read it. */
  lemma {:induction false} FireEffect(defs: seq<Definition>, d: Definition, s: State, r: Rule)
    requires WellBehaved(defs) && d in defs && r.mode == d.modeId
    requires ConditionsHold(r, s.world) && Wrong(d, s.world) && r.turnOn == !ModeOn(s.world, d.modeId)
    ensures SameSurroundings(s.world, Fire(s, r).world, Ids(defs))
    ensures !Wrong(d, Fire(s, r).world)
    ensures forall x :: x in defs && x != d && d.modeId !in ReadsOf(x) ==>
                          && Wrong(x, Fire(s, r).world) == Wrong(x, s.world)
                          && ModeOn(Fire(s, r).world, x.modeId) == ModeOn(s.world, x.modeId)
  {
    NotReadByItself(defs, d);
    SetModeKeepsSurroundings(s.world, r.mode, r.turnOn, Ids(defs));
    CorrectingWorks(d, s.world, r.turnOn);
    SetModeEffect(s.world, r.mode, r.turnOn);
    forall x | x in defs && x != d && d.modeId !in ReadsOf(x)
      ensures Wrong(x, Fire(s, r).world) == Wrong(x, s.world)
      ensures ModeOn(Fire(s, r).world, x.modeId) == ModeOn(s.world, x.modeId)
    {
      DefinitionOfIs(defs, x);
      DefinitionOfIs(defs, d);
      OthersStay(x, s.world, r.mode, r.turnOn);
      assert Lookup(Fire(s, r).world.devices, x.modeId) == Lookup(s.world.devices, x.modeId);
    }
  }

  /** The rule did nothing: it was nobody's remedy. */
  lemma {:induction false} IdleRuleKeepsCovered(defs: seq<Definition>, d: Definition, s: State, rules: seq<Rule>,
                                                e: Event)
    requires WellBehaved(defs) && d in defs && rules != []
    requires CoveredOne(d, s, rules, e)
    requires !Starts(e, rules[0]) || !ConditionsHold(rules[0], s.world)
    ensures CoveredOne(d, s, rules[1..], e)
  {
  }

  /** The rule fired: its own mode is right, modes that read it are woken, the rest are as they were. */
  lemma {:induction false} FiringKeepsCovered(defs: seq<Definition>, owner: Definition, d: Definition, s: State,
                                              rules: seq<Rule>, e: Event)
    requires WellBehaved(defs) && d in defs && owner in defs && rules != [] && rules[0].mode == owner.modeId
    requires ConditionsHold(rules[0], s.world)
    requires Wrong(owner, s.world) && rules[0].turnOn == !ModeOn(s.world, owner.modeId)
    requires CoveredOne(d, s, rules, e)
    ensures CoveredOne(d, Fire(s, rules[0]), rules[1..], e)
  {
    var r, s' := rules[0], Fire(s, rules[0]);
    FireEffect(defs, owner, s, r);
    if owner.modeId in CriteriaRefs(d).modes {
      assert Wakes(ModeChanged(r.mode), d);
      assert s'.queue[|s.queue|] == ModeChanged(r.mode);
    } else if owner.modeId in CriteriaRefs(d).devices {
      assert Wakes(DeviceChanged(r.mode), d);
      assert s'.queue[|s.queue| + 1] == DeviceChanged(r.mode);
    } else if d != owner {
      DefinitionOfIs(defs, d);
      DefinitionOfIs(defs, owner);
      UntouchedStaysCovered(d, s, s', rules, e);
    }
  }

  lemma {:induction false} UntouchedStaysCovered(d: Definition, s: State, s': State, rules: seq<Rule>, e: Event)
    requires EffectiveOff(d).Ok? && rules != [] && rules[0].mode != d.modeId && CoveredOne(d, s, rules, e)
    requires s.queue <= s'.queue && Wrong(d, s'.world) == Wrong(d, s.world)
    requires ModeOn(s'.world, d.modeId) == ModeOn(s.world, d.modeId)
    ensures CoveredOne(d, s', rules[1..], e)
  {
    if w :| w in s.queue && Wakes(w, d) {
      assert w in s'.queue;
    }
    assert rules == [rules[0]] + rules[1..];
  }

  lemma {:induction false} RunRuleKeepsCovered(defs: seq<Definition>, all: seq<Rule>, s: State, rules: seq<Rule>,
                                               e: Event)
    requires WellBehaved(defs) && Installed(defs, all)
    requires rules != [] && rules[0] in all
    requires forall d :: d in defs ==> CoveredOne(d, s, rules, e)
    ensures forall d :: d in defs ==> CoveredOne(d, RunRule(s, rules[0], e), rules[1..], e)
  {
    var owner := RuleOwner(defs, all, rules[0]);
    forall d | d in defs ensures CoveredOne(d, RunRule(s, rules[0], e), rules[1..], e) {
      if Starts(e, rules[0]) && ConditionsHold(rules[0], s.world) {
        FiringKeepsCovered(defs, owner, d, s, rules, e);
      } else {
        IdleRuleKeepsCovered(defs, d, s, rules, e);
      }
    }
  }

  lemma {:induction false} RunRulesKeepsCovered(defs: seq<Definition>, all: seq<Rule>, s: State, rules: seq<Rule>,
                                                e: Event)
    requires WellBehaved(defs) && Installed(defs, all)
    requires forall r :: r in rules ==> r in all
    requires forall d :: d in defs ==> CoveredOne(d, s, rules, e)
    ensures Covered(defs, RunRules(s, rules, e))
    decreases rules
  {
    if rules != [] {
      assert rules[0] in rules;
      RunRuleKeepsCovered(defs, all, s, rules, e);
      RunRulesKeepsCovered(defs, all, RunRule(s, rules[0], e), rules[1..], e);
    }
  }

  lemma {:induction false} ProcessKeepsCovered(defs: seq<Definition>, rules: seq<Rule>, s: State, k: nat)
    requires WellBehaved(defs) && Installed(defs, rules)
    requires k < |s.queue| && Covered(defs, s)
    ensures Covered(defs, Process(s, rules, k))
  {
    var e := s.queue[k];
    var taken := State(s.world, s.queue[..k] + s.queue[k + 1..]);
    assert s.queue == s.queue[..k] + [e] + s.queue[k + 1..];
    forall d | d in defs ensures CoveredOne(d, taken, rules, e) {
      if Wrong(d, s.world) {
        var w :| w in s.queue && Wakes(w, d);
        if w == e {
          RemedyIsManaged(d, s.world, e);
        } else {
          assert w in taken.queue;
        }
      }
    }
    RunRulesKeepsCovered(defs, rules, taken, rules, e);
  }

  // ---------- Every event taken is progress ----------

  /** Wrong modes from the `i`-th on, weighted so that one mode outweighs all that come after it. */
  ghost function Weight(defs: seq<Definition>, order: seq<string>, w: World, i: nat): nat
    requires i <= |order| && forall m :: m in order ==> m in Ids(defs)
    decreases |order| - i
  {
    if i == |order| then 0
    else (if Wrong(DefinitionOf(defs, order[i]), w) then Pow2(|order| - i - 1) else 0) + Weight(defs, order, w, i + 1)
  }

  lemma {:induction false} WeightBound(defs: seq<Definition>, order: seq<string>, w: World, i: nat)
    requires i <= |order| && forall m :: m in order ==> m in Ids(defs)
    ensures Weight(defs, order, w, i) < Pow2(|order| - i)
    decreases |order| - i
  {
    if i < |order| {
      WeightBound(defs, order, w, i + 1);
    }
  }

  /** If the `j`-th mode is put right and nothing before it changes, the weight falls. */
  lemma {:induction false} WeightFalls(defs: seq<Definition>, order: seq<string>, w: World, w': World, i: nat, j: nat)
    requires i <= j < |order| && forall m :: m in order ==> m in Ids(defs)
    requires forall k :: i <= k < j ==>
              Wrong(DefinitionOf(defs, order[k]), w') == Wrong(DefinitionOf(defs, order[k]), w)
    requires Wrong(DefinitionOf(defs, order[j]), w) && !Wrong(DefinitionOf(defs, order[j]), w')
    ensures Weight(defs, order, w', i) < Weight(defs, order, w, i)
    decreases j - i
  {
    if i == j {
      WeightBound(defs, order, w', j + 1);
    } else {
      WeightFalls(defs, order, w, w', i + 1, j);
    }
  }

  /** Each mode change costs two events and buys at least one unit of weight. */
  ghost function Budget(defs: seq<Definition>, order: seq<string>, s: State): nat
    requires forall m :: m in order ==> m in Ids(defs)
  {
    2 * Weight(defs, order, s.world, 0) + |s.queue|
  }

  ghost predicate InOrder(defs: seq<Definition>, order: seq<string>) {
    && WellBehaved(defs)
    && TopologicalOrder(ReadGraph(defs), order)
    && forall m :: m in order <==> m in Ids(defs)
  }

  /** The modes can be put in an order in which each reads only those before it. */
  lemma {:induction false} DependencyOrder(defs: seq<Definition>) returns (order: seq<string>)
    requires WellBehaved(defs)
    ensures InOrder(defs, order) && |order| == |Ids(defs)|
  {
    AcyclicHasOrder(ReadGraph(defs));
    order :| TopologicalOrder(ReadGraph(defs), order);
    assert forall m :: m in order <==> m in Ids(defs);
    DistinctLength(order, Ids(defs));
  }

  lemma {:induction false} FireSpendsNothing(defs: seq<Definition>, order: seq<string>, rules: seq<Rule>, s: State,
                                             r: Rule)
    requires InOrder(defs, order) && Installed(defs, rules) && r in rules
    ensures Budget(defs, order, Fire(s, r)) <= Budget(defs, order, s)
    ensures SameSurroundings(s.world, Fire(s, r).world, Ids(defs))
  {
    if ConditionsHold(r, s.world) {
      var d := RuleOwner(defs, rules, r);
      FireEffect(defs, d, s, r);
      assert d.modeId in Ids(defs);
      var j :| 0 <= j < |order| && order[j] == d.modeId;
      DefinitionOfIs(defs, d);
      forall k | 0 <= k < j
        ensures Wrong(DefinitionOf(defs, order[k]), Fire(s, r).world) == Wrong(DefinitionOf(defs, order[k]), s.world)
      {
        OrderedReads(defs, order, k, j);
      }
      WeightFalls(defs, order, s.world, Fire(s, r).world, 0, j);
    }
  }

  lemma {:induction false} RunRuleSpendsNothing(defs: seq<Definition>, order: seq<string>, rules: seq<Rule>, s: State,
                                                r: Rule, e: Event)
    requires InOrder(defs, order) && Installed(defs, rules) && r in rules
    ensures Budget(defs, order, RunRule(s, r, e)) <= Budget(defs, order, s)
    ensures SameSurroundings(s.world, RunRule(s, r, e).world, Ids(defs))
  {
    SurroundingsStay(s.world, Ids(defs));
    FireSpendsNothing(defs, order, rules, s, r);
  }

  lemma {:induction false} RunRulesSpendsNothing(defs: seq<Definition>, order: seq<string>, all: seq<Rule>, s: State,
                                                 rules: seq<Rule>, e: Event)
    requires InOrder(defs, order) && Installed(defs, all)
    requires forall r :: r in rules ==> r in all
    ensures Budget(defs, order, RunRules(s, rules, e)) <= Budget(defs, order, s)
    ensures SameSurroundings(s.world, RunRules(s, rules, e).world, Ids(defs))
    decreases rules
  {
    SurroundingsStay(s.world, Ids(defs));
    if rules != [] {
      assert rules[0] in rules;
      var next := RunRule(s, rules[0], e);
      RunRuleSpendsNothing(defs, order, all, s, rules[0], e);
      RunRulesSpendsNothing(defs, order, all, next, rules[1..], e);
      SurroundingsCarry(s.world, next.world, RunRules(next, rules[1..], e).world, Ids(defs));
    }
  }

  lemma {:induction false} StepSpends(defs: seq<Definition>, order: seq<string>, rules: seq<Rule>, s: State, s': State)
    requires InOrder(defs, order) && Installed(defs, rules) && Step(rules, s, s') && Covered(defs, s)
    ensures 1 + Budget(defs, order, s') <= Budget(defs, order, s)
    ensures Covered(defs, s')
    ensures SameSurroundings(s.world, s'.world, Ids(defs))
  {
    var k :| 0 <= k < |s.queue| && s' == Process(s, rules, k);
    RunRulesSpendsNothing(defs, order, rules, State(s.world, s.queue[..k] + s.queue[k + 1..]), rules, s.queue[k]);
    ProcessKeepsCovered(defs, rules, s, k);
  }

  lemma {:induction false} RunSpends(defs: seq<Definition>, order: seq<string>, rules: seq<Rule>, run: seq<State>)
    requires InOrder(defs, order) && Installed(defs, rules) && IsRun(rules, run)
    requires Covered(defs, run[0])
    ensures |run| - 1 + Budget(defs, order, End(run)) <= Budget(defs, order, run[0])
    ensures Covered(defs, End(run))
    ensures SameSurroundings(run[0].world, End(run).world, Ids(defs))
  {
    if |run| > 1 {
      var shorter := run[..|run| - 1];
      RunSpends(defs, order, rules, shorter);
      StepSpends(defs, order, rules, End(shorter), End(run));
    }
  }

  lemma {:induction false} StartCovers(defs: seq<Definition>, s: State)
    requires SystemStarted in s.queue
    ensures Covered(defs, s)
  {
    forall d | d in defs ensures Waiting(d, s.queue) {
      assert Wakes(SystemStarted, d);
    }
  }

  lemma {:induction false} DrainedIsRight(defs: seq<Definition>, s: State)
    requires Covered(defs, s) && s.queue == []
    ensures AllRight(defs, s.world)
  {
  }

  /**
    From a start-up event, however the waiting events are taken: the number of events
    handled is bounded in advance; at every point each wrong mode has an event waiting
    that starts its rules; and once nothing waits, every mode is right.
   */
  lemma {:induction false} CascadeSettles(defs: seq<Definition>, rules: seq<Rule>, run: seq<State>)
    requires WellBehaved(defs) && Installed(defs, rules) && IsRun(rules, run)
    requires SystemStarted in run[0].queue
    ensures |run| - 1 < 2 * Pow2(|Ids(defs)|) + |run[0].queue|
    ensures Covered(defs, End(run))
    ensures SameSurroundings(run[0].world, End(run).world, Ids(defs))
    ensures End(run).queue == [] ==> AllRight(defs, End(run).world)
  {
    var order := DependencyOrder(defs);
    StartCovers(defs, run[0]);
    RunSpends(defs, order, rules, run);
    WeightBound(defs, order, run[0].world, 0);
    if End(run).queue == [] {
      DrainedIsRight(defs, End(run));
    }
  }

  lemma {:induction false} DistinctLength(order: seq<string>, s: set<string>)
    requires forall i, j :: 0 <= i < j < |order| ==> order[i] != order[j]
    requires forall m :: m in order <==> m in s
    ensures |order| == |s|
  {
    if order == [] {
      assert s == {};
    } else {
      var last := order[|order| - 1];
      assert forall m :: m in order[..|order| - 1] <==> m in s - {last} by {
        assert order == order[..|order| - 1] + [last];
      }
      DistinctLength(order[..|order| - 1], s - {last});
    }
  }

  lemma {:induction false} RunRulesKeepsKnown(defs: seq<Definition>, s: State, rules: seq<Rule>, e: Event)
    requires Known(defs, s.world)
    ensures Known(defs, RunRules(s, rules, e).world)
    decreases rules
  {
    if rules != [] {
      SetModeKeepsKnown(defs, s.world, rules[0].mode, rules[0].turnOn);
      RunRulesKeepsKnown(defs, RunRule(s, rules[0], e), rules[1..], e);
    }
  }

  lemma {:induction false} RunKeepsKnown(defs: seq<Definition>, rules: seq<Rule>, run: seq<State>)
    requires IsRun(rules, run) && Known(defs, run[0].world)
    ensures Known(defs, End(run).world)
  {
    if |run| > 1 {
      var shorter := run[..|run| - 1];
      RunKeepsKnown(defs, rules, shorter);
      var s := End(shorter);
      assert Step(rules, s, End(run));
      var k :| 0 <= k < |s.queue| && End(run) == Process(s, rules, k);
      RunRulesKeepsKnown(defs, State(s.world, s.queue[..k] + s.queue[k + 1..]), rules, s.queue[k]);
    }
  }

  /**
    Any two orders of handling the events end with the same modes on, as long as they leave
    the same histories where a criterion asks for one.
   */
  lemma {:induction false} CascadeIsDeterminate(defs: seq<Definition>, rules: seq<Rule>, run: seq<State>,
                                                run': seq<State>)
    requires WellBehaved(defs) && Installed(defs, rules) && IsRun(rules, run) && IsRun(rules, run')
    requires AllInverse(defs) && Known(defs, run[0].world)
    requires run[0] == run'[0] && SystemStarted in run[0].queue
    requires End(run).queue == [] && End(run').queue == []
    requires SameHistories(defs, End(run).world, End(run').world)
    ensures forall m :: ModeOn(End(run).world, m) == ModeOn(End(run').world, m)
  {
    CascadeSettles(defs, rules, run);
    CascadeSettles(defs, rules, run');
    RunKeepsKnown(defs, rules, run);
    RunKeepsKnown(defs, rules, run');
    SurroundingsTurn(run[0].world, End(run).world, Ids(defs));
    SurroundingsCarry(End(run).world, run[0].world, End(run').world, Ids(defs));
    SettledStateIsUnique(defs, End(run).world, End(run').world);
  }
}
