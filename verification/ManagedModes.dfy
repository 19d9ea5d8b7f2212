/**
  Criteria-driven modes: the rules generated from a definition, and the check a
  definition passes before it is accepted.
 */
module ManagedModes {
  import opened Basics
  import opened Options
  import opened Conditions
  import opened Graphs

  datatype OffBehavior = Inverse | Explicit

  datatype Definition = Definition(
    modeId: string,
    onCondition: Condition,
    offBehavior: OffBehavior,
    offCondition: Option<Condition>,
    everyMinutes: nat)

  datatype ModeKind = Solar | Manual

  datatype ModeConfig = ModeConfig(id: string, kind: ModeKind)

  /** Everything both conditions read; an off condition counts even when it is not used. */
  function CriteriaRefs(d: Definition): Refs {
    RefsOf(d.onCondition).Union(if d.offCondition.Some? then RefsOf(d.offCondition.value) else NO_REFS)
  }

  method CollectCriteriaRefs(d: Definition) returns (refs: Refs)
    ensures refs == CriteriaRefs(d)
  {
    var collected := new ConditionRefs();
    collected.Collect(d.onCondition);
    if d.offCondition.Some? {
      collected.Collect(d.offCondition.value);
    }
    return collected.View();
  }

  function EffectiveOff(d: Definition): Result<Condition> {
    match d.offBehavior
    case Inverse => Ok(Not(d.onCondition))
    case Explicit =>
      if d.offCondition.Some? then Ok(d.offCondition.value)
      else Err("explicit off behavior requires off_condition")
  }

  // ---------- Rules ----------

  datatype Trigger =
    | OnSystemStarted
    | OnPeriod(everyN: nat)
    | OnDeviceChanged(deviceIds: set<string>)
    | OnModeChanged(modeId: string)
    | OnHubVariableChanged(name: string)

  /** One rule: what starts it, what must hold, and the mode command it sends. */
  datatype Rule = Rule(trigger: Trigger, conditions: seq<Condition>, mode: string, turnOn: bool)

  datatype Event =
    | SystemStarted
    | SchedulerTick(rule: Rule)
    | DeviceChanged(deviceId: string)
    | ModeChanged(modeId: string)
    | HubVariableChanged(name: string)

  /** Which events start a rule. A period is the scheduler's business: it names the rule itself. */
  predicate Starts(e: Event, r: Rule) {
    match e
    case SystemStarted => r.trigger.OnSystemStarted?
    case SchedulerTick(ticked) => ticked == r
    case DeviceChanged(id) => r.trigger.OnDeviceChanged? && id in r.trigger.deviceIds
    case ModeChanged(id) => r.trigger == OnModeChanged(id)
    case HubVariableChanged(name) => r.trigger == OnHubVariableChanged(name)
  }

  predicate ConditionsHold(r: Rule, w: World) {
    forall c :: c in r.conditions ==> Holds(c, w)
  }

  function BuildRule(mode: string, criterion: Condition, turnOn: bool, trigger: Trigger): Rule {
    Rule(trigger, [ModeIs(mode, !turnOn), criterion], mode, turnOn)
  }

  /** Everything that can start a definition's rules. */
  function TriggersFor(d: Definition): set<Trigger> {
    var refs := CriteriaRefs(d);
    {OnSystemStarted, OnPeriod(AtLeastOne(d.everyMinutes))}
    + (if refs.devices == {} then {} else {OnDeviceChanged(refs.devices)})
    + (set m | m in refs.modes :: OnModeChanged(m))
    + (set h | h in refs.hub :: OnHubVariableChanged(h))
  }

  /** For each trigger, one rule that turns the mode on and one that turns it off. */
  function RulesFrom(mode: string, on: Condition, off: Condition, triggers: set<Trigger>): set<Rule> {
    (set t | t in triggers :: BuildRule(mode, on, true, t)) + (set t | t in triggers :: BuildRule(mode, off, false, t))
  }

  function ManagedRules(d: Definition): set<Rule>
    requires EffectiveOff(d).Ok?
  {
    RulesFrom(d.modeId, d.onCondition, EffectiveOff(d).value, TriggersFor(d))
  }

  lemma {:induction false} RulesFromOneMore(mode: string, on: Condition, off: Condition, done: set<Trigger>,
                                            t: Trigger, rules: seq<Rule>)
    requires (set x | x in rules) == RulesFrom(mode, on, off, done)
    ensures (set x | x in rules + [BuildRule(mode, on, true, t), BuildRule(mode, off, false, t)])
            == RulesFrom(mode, on, off, done + {t})
  {
    var pair := [BuildRule(mode, on, true, t), BuildRule(mode, off, false, t)];
    assert (set x | x in rules + pair) == (set x | x in rules) + {pair[0], pair[1]};
    assert RulesFrom(mode, on, off, done + {t}) == RulesFrom(mode, on, off, done) + {pair[0], pair[1]};
  }

  method CollectTriggers(d: Definition) returns (triggers: set<Trigger>)
    ensures triggers == TriggersFor(d)
  {
    var refs := CollectCriteriaRefs(d);
    triggers := {OnSystemStarted, OnPeriod(AtLeastOne(d.everyMinutes))};
    if refs.devices != {} {
      triggers := triggers + {OnDeviceChanged(refs.devices)};
    }
    triggers := triggers + (set m | m in refs.modes :: OnModeChanged(m));
    triggers := triggers + (set h | h in refs.hub :: OnHubVariableChanged(h));
  }

  /** The generating loop produces exactly those rules, each once, or fails as the off condition does. */
  method BuildManagedRules(mode: ModeConfig, d: Definition) returns (r: Result<seq<Rule>>)
    ensures r.Ok? <==> EffectiveOff(d).Ok?
    ensures r.Ok? ==> (set x | x in r.value) == RulesFrom(mode.id, d.onCondition, EffectiveOff(d).value, TriggersFor(d))
    ensures r.Ok? && mode.id == d.modeId ==> (set x | x in r.value) == ManagedRules(d)
    ensures r.Ok? ==> |r.value| == 2 * |TriggersFor(d)|
  {
    var triggers := CollectTriggers(d);
    if EffectiveOff(d).Err? {
      return Err(EffectiveOff(d).error);
    }
    var rules := BuildRulePairs(mode.id, d.onCondition, EffectiveOff(d).value, triggers);
    return Ok(rules);
  }

  method BuildRulePairs(mode: string, on: Condition, off: Condition, triggers: set<Trigger>) returns (rules: seq<Rule>)
    ensures (set x | x in rules) == RulesFrom(mode, on, off, triggers)
    ensures |rules| == 2 * |triggers|
  {
    rules := [];
    var left, done := triggers, {};
    while left != {}
      invariant left + done == triggers && left !! done
      invariant |rules| == 2 * |done|
      invariant (set x | x in rules) == RulesFrom(mode, on, off, done)
      decreases left
    {
      var t :| t in left;
      RulesFromOneMore(mode, on, off, done, t, rules);
      rules := rules + [BuildRule(mode, on, true, t), BuildRule(mode, off, false, t)];
      left, done := left - {t}, done + {t};
    }
  }

  // ---------- Every change that matters starts the rules ----------

  datatype Entity = DeviceEntity(id: string) | HubEntity(name: string)

  ghost predicate DifferOnlyIn(w: World, w': World, e: Entity) {
    && w.now == w'.now
    && w.ambient == w'.ambient
    && (forall id :: e != DeviceEntity(id) ==> Lookup(w.devices, id) == Lookup(w'.devices, id))
    && (forall name :: e != HubEntity(name) ==> Lookup(w.hub, name) == Lookup(w'.hub, name))
  }

  /** The events published when an entity changes: a mode's device also says when it turned on or off. */
  function ChangeEvents(e: Entity, w: World, w': World): set<Event> {
    match e
    case DeviceEntity(id) => {DeviceChanged(id)} + (if ModeOn(w, id) != ModeOn(w', id) then {ModeChanged(id)} else {})
    case HubEntity(name) => {HubVariableChanged(name)}
  }

  predicate Collected(e: Entity, refs: Refs) {
    match e
    case DeviceEntity(id) => id in refs.devices || id in refs.modes
    case HubEntity(name) => name in refs.hub
  }

  /**
    If changing one device, mode or hub variable changes what a mode's on or off
    condition says, then that entity was collected, and one of the events its change
    publishes starts both an on-rule and an off-rule of the mode.
   */
  lemma {:induction false} ChangesStartRules(d: Definition, w: World, w': World, e: Entity)
    requires EffectiveOff(d).Ok?
    requires DifferOnlyIn(w, w', e)
    requires || Holds(d.onCondition, w) != Holds(d.onCondition, w')
             || Holds(EffectiveOff(d).value, w) != Holds(EffectiveOff(d).value, w')
    ensures Collected(e, CriteriaRefs(d))
    ensures exists event, on, off ::
              && event in ChangeEvents(e, w, w')
              && on in ManagedRules(d) && on.turnOn && Starts(event, on)
              && off in ManagedRules(d) && !off.turnOn && Starts(event, off)
  {
    var refs := CriteriaRefs(d);
    if AgreeOn(w, w', refs) {
      HoldsDependsOnRefs(d.onCondition, w, w');
      HoldsDependsOnRefs(EffectiveOff(d).value, w, w');
      assert false;
    }
    var trigger, event;
    match e {
      case HubEntity(name) =>
        trigger, event := OnHubVariableChanged(name), HubVariableChanged(name);
      case DeviceEntity(id) =>
        if id in refs.devices {
          trigger, event := OnDeviceChanged(refs.devices), DeviceChanged(id);
        } else {
          trigger, event := OnModeChanged(id), ModeChanged(id);
        }
    }
    var on := BuildRule(d.modeId, d.onCondition, true, trigger);
    var off := BuildRule(d.modeId, EffectiveOff(d).value, false, trigger);
    assert trigger in TriggersFor(d);
    assert on in ManagedRules(d) && off in ManagedRules(d);
    assert Starts(event, on) && Starts(event, off);
  }

  // ---------- The graph of managed modes ----------

  function Ids(defs: seq<Definition>): set<string> {
    set d | d in defs :: d.modeId
  }

  /** Dependencies of the first `n` definitions, a later definition of a mode replacing an earlier one. */
  function AdjacencyPrefix(defs: seq<Definition>, managed: set<string>, n: nat): Graph
    requires n <= |defs|
  {
    if n == 0 then map[]
    else AdjacencyPrefix(defs, managed, n - 1)[defs[n - 1].modeId := CriteriaRefs(defs[n - 1]).modes * managed]
  }

  /** Each managed mode and the managed modes its criteria read. */
  function Dependencies(defs: seq<Definition>): Graph {
    AdjacencyPrefix(defs, Ids(defs), |defs|)
  }

  predicate DistinctIds(defs: seq<Definition>) {
    forall i, j :: 0 <= i < j < |defs| ==> defs[i].modeId != defs[j].modeId
  }

  lemma {:induction false} AdjacencyPrefixShape(defs: seq<Definition>, managed: set<string>, n: nat)
    requires n <= |defs|
    ensures forall m :: m in AdjacencyPrefix(defs, managed, n) <==> exists i :: 0 <= i < n && defs[i].modeId == m
    ensures forall m :: m in AdjacencyPrefix(defs, managed, n) ==> AdjacencyPrefix(defs, managed, n)[m] <= managed
  {
    if n > 0 {
      AdjacencyPrefixShape(defs, managed, n - 1);
    }
  }

  lemma {:induction false} AdjacencyPrefixAt(defs: seq<Definition>, managed: set<string>, n: nat, i: nat)
    requires i < n <= |defs| && DistinctIds(defs)
    ensures defs[i].modeId in AdjacencyPrefix(defs, managed, n)
    ensures AdjacencyPrefix(defs, managed, n)[defs[i].modeId] == CriteriaRefs(defs[i]).modes * managed
  {
    if i < n - 1 {
      AdjacencyPrefixAt(defs, managed, n - 1, i);
    }
  }

  lemma {:induction false} DependenciesShape(defs: seq<Definition>)
    ensures Dependencies(defs).Keys == Ids(defs)
    ensures Closed(Dependencies(defs))
    ensures DistinctIds(defs) ==>
              forall d :: d in defs ==> Dependencies(defs)[d.modeId] == CriteriaRefs(d).modes * Ids(defs)
  {
    AdjacencyPrefixShape(defs, Ids(defs), |defs|);
    if DistinctIds(defs) {
      forall d | d in defs
        ensures d.modeId in Dependencies(defs) && Dependencies(defs)[d.modeId] == CriteriaRefs(d).modes * Ids(defs) {
        var i :| 0 <= i < |defs| && defs[i] == d;
        AdjacencyPrefixAt(defs, Ids(defs), |defs|, i);
      }
    }
  }

  /** The check accepts exactly the definition lists whose dependency graph has no cycle. */
  method EnsureAcyclic(defs: seq<Definition>) returns (ok: bool)
    ensures ok <==> Acyclic(Dependencies(defs))
  {
    var managed := set d | d in defs :: d.modeId;
    var adjacency: Graph := map[];
    for i := 0 to |defs|
      invariant adjacency == AdjacencyPrefix(defs, managed, i)
    {
      var refs := CollectCriteriaRefs(defs[i]);
      adjacency := adjacency[defs[i].modeId := refs.modes * managed];
    }
    DependenciesShape(defs);
    var search := new CycleSearch(adjacency);
    ok := search.Run();
  }

  // ---------- Accepting a definition ----------

  /** The list with the candidate in place of the first definition of its mode, or at the end. */
  function Replaced(defs: seq<Definition>, candidate: Definition): (r: seq<Definition>)
    ensures candidate in r
  {
    if defs == [] then [candidate]
    else if defs[0].modeId == candidate.modeId then [candidate] + defs[1..]
    else [defs[0]] + Replaced(defs[1..], candidate)
  }

  ghost predicate Acceptable(mode: ModeConfig, allModes: set<string>, existing: seq<Definition>,
                             candidate: Definition) {
    && mode.kind == Manual
    && candidate.modeId == mode.id
    && candidate.everyMinutes > 0
    && EffectiveOff(candidate).Ok?
    && candidate.modeId !in CriteriaRefs(candidate).modes
    && CriteriaRefs(candidate).modes <= allModes
    && Acyclic(Dependencies(Replaced(existing, candidate)))
  }

  method ValidateDefinition(mode: ModeConfig, allModes: set<string>, existing: seq<Definition>, candidate: Definition)
    returns (r: Result<()>)
    ensures r.Ok? <==> Acceptable(mode, allModes, existing, candidate)
  {
    if mode.kind != Manual {
      return Err("criteria-driven definitions can only target manual modes");
    }
    if candidate.modeId != mode.id {
      return Err("definition mode_id does not match target mode");
    }
    if candidate.everyMinutes == 0 {
      return Err("reevaluate_every_n_minutes must be at least 1");
    }
    if candidate.offBehavior == Explicit && candidate.offCondition.None? {
      return Err("explicit off behavior requires off_condition");
    }
    var refs := CollectCriteriaRefs(candidate);
    if candidate.modeId in refs.modes {
      return Err("criteria-driven mode cannot reference itself");
    }
    if !(refs.modes <= allModes) {
      return Err("criteria references unknown mode");
    }
    var ok := EnsureAcyclic(Replaced(existing, candidate));
    if !ok {
      return Err("criteria-driven mode cycle detected");
    }
    return Ok(());
  }

  // ---------- Any run of accepted updates ----------

  function Without(defs: seq<Definition>, id: string): seq<Definition> {
    if defs == [] then []
    else if defs[0].modeId == id then Without(defs[1..], id)
    else [defs[0]] + Without(defs[1..], id)
  }

  /** Saving a definition: the old one of that mode goes, the new one goes last. */
  function Saved(defs: seq<Definition>, d: Definition): seq<Definition> {
    Without(defs, d.modeId) + [d]
  }

  datatype Update = Put(mode: ModeConfig, allModes: set<string>, definition: Definition) | Delete(id: string)

  ghost function Updated(defs: seq<Definition>, u: Update): seq<Definition> {
    match u
    case Put(mode, allModes, d) => if Acceptable(mode, allModes, defs, d) then Saved(defs, d) else defs
    case Delete(id) => Without(defs, id)
  }

  ghost function UpdatedAll(defs: seq<Definition>, us: seq<Update>): seq<Definition>
    decreases us
  {
    if us == [] then defs else UpdatedAll(Updated(defs, us[0]), us[1..])
  }

  /** What the saved definitions always satisfy. */
  ghost predicate Sound(defs: seq<Definition>) {
    && DistinctIds(defs)
    && (forall d :: d in defs ==> EffectiveOff(d).Ok? && d.modeId !in CriteriaRefs(d).modes)
    && Acyclic(Dependencies(defs))
  }

  lemma {:induction false} WithoutShape(defs: seq<Definition>, id: string)
    ensures forall d :: d in Without(defs, id) <==> d in defs && d.modeId != id
    ensures DistinctIds(defs) ==> DistinctIds(Without(defs, id))
  {
    if defs != [] {
      WithoutShape(defs[1..], id);
      assert forall d :: d in defs <==> d == defs[0] || d in defs[1..];
      assert DistinctIds(defs) ==> forall d :: d in defs[1..] ==> d.modeId != defs[0].modeId;
    }
  }

  lemma {:induction false} ReplacedShape(defs: seq<Definition>, c: Definition)
    requires DistinctIds(defs)
    ensures forall d :: d in Replaced(defs, c) <==> d == c || (d in defs && d.modeId != c.modeId)
    ensures DistinctIds(Replaced(defs, c))
  {
    if defs != [] {
      assert forall d :: d in defs <==> d == defs[0] || d in defs[1..];
      assert forall d :: d in defs[1..] ==> d.modeId != defs[0].modeId;
      if defs[0].modeId != c.modeId {
        ReplacedShape(defs[1..], c);
      }
    }
  }

  /** With distinct ids the graph depends on the set of definitions, not on their order. */
  lemma {:induction false} DependenciesOfSet(defs: seq<Definition>, defs': seq<Definition>)
    requires DistinctIds(defs) && DistinctIds(defs')
    requires forall d :: d in defs <==> d in defs'
    ensures Dependencies(defs) == Dependencies(defs')
  {
    DependenciesShape(defs);
    DependenciesShape(defs');
    assert Ids(defs) == Ids(defs');
    forall m | m in Ids(defs) ensures Dependencies(defs)[m] == Dependencies(defs')[m] {
      var d :| d in defs && d.modeId == m;
    }
  }

  lemma {:induction false} SubgraphAcyclic(g: Graph, h: Graph)
    requires Acyclic(g)
    requires forall a, b :: Edge(h, a, b) ==> Edge(g, a, b)
    ensures Acyclic(h)
  {
    forall p ensures IsCycle(h, p) ==> IsCycle(g, p) {
    }
  }

  lemma {:induction false} UpdateKeepsSound(defs: seq<Definition>, u: Update)
    requires Sound(defs)
    ensures Sound(Updated(defs, u))
  {
    match u {
      case Put(mode, allModes, d) =>
        if Acceptable(mode, allModes, defs, d) {
          WithoutShape(defs, d.modeId);
          ReplacedShape(defs, d);
          var saved, replaced := Saved(defs, d), Replaced(defs, d);
          assert DistinctIds(saved) by {
            forall i, j | 0 <= i < j < |saved| ensures saved[i].modeId != saved[j].modeId {
              var rest := Without(defs, d.modeId);
              assert saved[i] == rest[i] && rest[i] in rest;
            }
          }
          assert forall x :: x in saved <==> x in replaced;
          DependenciesOfSet(saved, replaced);
        }
      case Delete(id) =>
        WithoutShape(defs, id);
        var rest := Without(defs, id);
        DependenciesShape(defs);
        DependenciesShape(rest);
        forall a, b | Edge(Dependencies(rest), a, b) ensures Edge(Dependencies(defs), a, b) {
          var d :| d in rest && d.modeId == a;
        }
        SubgraphAcyclic(Dependencies(defs), Dependencies(rest));
    }
  }

  /** Whatever is put, refused and deleted, the saved definitions never form a cycle. */
  lemma {:induction false} UpdatesKeepSound(defs: seq<Definition>, us: seq<Update>)
    requires Sound(defs)
    ensures Sound(UpdatedAll(defs, us))
    decreases us
  {
    if us != [] {
      UpdateKeepsSound(defs, us[0]);
      UpdatesKeepSound(Updated(defs, us[0]), us[1..]);
    }
  }

  lemma {:induction false} NothingSavedIsSound()
    ensures Sound([])
  {
    RankedIsAcyclic(Dependencies([]), map[]);
  }
}
