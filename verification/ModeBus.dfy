/**
  The generated rules under the engine as it publishes. A rule is judged against the
  engine's device cache; the command it sends is carried out later, in no particular
  order, by the mode manager, which publishes first that the mode changed and then the
  mode's new device state; the cache follows the published device states, in order.
 */
module ModeBus {
  import opened Basics
  import opened Options
  import opened Conditions
  import opened Graphs
  import opened ManagedModes
  import opened ModeTargets
  import opened ModeCascade
  import opened Traces

  /** On the bus: something that only starts rules, or a mode's device state. */
  datatype Message = Note(event: Event) | Report(mode: string, on: bool)

  /** A mode command on its way, numbered in the order of sending. */
  datatype Command = Command(id: nat, mode: string, on: bool)

  datatype Engine = Engine(
    cache: World,
    store: map<string, bool>,
    queue: seq<Message>,
    commands: set<Command>,
    issued: nat,
    handled: nat)

  /** The rules an event starts send their commands; the cache does not move. */
  function Judge(s: Engine, rules: seq<Rule>, e: Event): Engine
    decreases rules
  {
    if rules == [] then s
    else if Starts(e, rules[0]) && ConditionsHold(rules[0], s.cache) then
      Judge(s.(commands := s.commands + {Command(s.issued, rules[0].mode, rules[0].turnOn)}, issued := s.issued + 1),
            rules[1..], e)
    else Judge(s, rules[1..], e)
  }

  function Taken(s: Engine): Engine
    requires s.queue != []
  {
    s.(cache := if s.queue[0].Report? then SetMode(s.cache, s.queue[0].mode, s.queue[0].on) else s.cache,
       queue := s.queue[1..],
       handled := s.handled + 1)
  }

  function EventOf(m: Message): Event {
    match m
    case Note(e) => e
    case Report(mode, _) => DeviceChanged(mode)
  }

  /** The engine handles the message at the head of the bus. */
  function Handle(s: Engine, rules: seq<Rule>): Engine
    requires s.queue != []
  {
    Judge(Taken(s), rules, EventOf(s.queue[0]))
  }

  /** The mode manager carries out a command and publishes. Commands for modes it does not have are dropped. */
  function Deliver(s: Engine, c: Command): Engine {
    var gone := s.(commands := s.commands - {c});
    if c.mode !in s.store then gone
    else gone.(store := s.store[c.mode := c.on],
               queue := s.queue
                        + (if s.store[c.mode] != c.on then [Note(ModeChanged(c.mode))] else [])
                        + [Report(c.mode, c.on)])
  }

  /** Start-up, the scheduler, a device or a hub variable has something to say. */
  function Publish(s: Engine, e: Event): Engine {
    s.(queue := s.queue + [Note(e)])
  }

  ghost predicate Step(rules: seq<Rule>, s: Engine, s': Engine) {
    || (s.queue != [] && s' == Handle(s, rules))
    || (exists c :: c in s.commands && s' == Deliver(s, c))
    || (exists e :: s' == Publish(s, e))
  }

  ghost predicate IsRun(rules: seq<Rule>, run: seq<Engine>) {
    run != [] && forall i :: 0 <= i < |run| - 1 ==> Step(rules, run[i], run[i + 1])
  }

  // ---------- The cache catches up with the store ----------

  /** What the cache will say of a mode once the bus is empty. */
  function Latest(queue: seq<Message>, mode: string, on: bool): bool {
    if queue == [] then on
    else Latest(queue[1..], mode, if queue[0].Report? && queue[0].mode == mode then queue[0].on else on)
  }

  lemma {:induction false} LatestAppend(queue: seq<Message>, more: seq<Message>, mode: string, on: bool)
    ensures Latest(queue + more, mode, on) == Latest(more, mode, Latest(queue, mode, on))
  {
    if queue == [] {
      assert queue + more == more;
    } else {
      assert (queue + more)[1..] == queue[1..] + more;
      LatestAppend(queue[1..], more, mode, if queue[0].Report? && queue[0].mode == mode then queue[0].on else on);
    }
  }

  /** If every report of a mode says `v`, the last word is `v`, or nothing is said. */
  lemma {:induction false} LatestUniform(queue: seq<Message>, mode: string, on: bool, v: bool)
    requires forall x :: x in queue && x.Report? && x.mode == mode ==> x.on == v
    ensures Report(mode, v) in queue ==> Latest(queue, mode, on) == v
    ensures Report(mode, v) !in queue ==> Latest(queue, mode, on) == on
    ensures Latest(queue, mode, v) == v
  {
    if queue != [] {
      assert queue == [queue[0]] + queue[1..];
      LatestUniform(queue[1..], mode, if queue[0].Report? && queue[0].mode == mode then queue[0].on else on, v);
    }
  }

  /** Everything that holds of the engine in surroundings that have stopped changing. */
  ghost predicate Consistent(defs: seq<Definition>, goal: World, s: Engine) {
    && s.store.Keys == Ids(defs)
    && CacheFits(defs, goal, s.cache)
    && (forall x :: x in s.queue && x.Report? ==> x.mode in Ids(defs))
    && (forall m :: m in Ids(defs) ==> Latest(s.queue, m, ModeOn(s.cache, m)) == s.store[m])
    && (forall c :: c in s.commands ==> c.id < s.issued)
  }

  lemma {:induction false} JudgeShape(s: Engine, rules: seq<Rule>, e: Event)
    ensures var s' := Judge(s, rules, e);
            && s' == s.(commands := s'.commands, issued := s'.issued)
            && s.issued <= s'.issued
            && s.commands <= s'.commands
            && (forall c :: c in s'.commands && c !in s.commands ==>
                  && s.issued <= c.id < s'.issued
                  && exists r :: && r in rules && Starts(e, r) && r.mode == c.mode && r.turnOn == c.on
                                 && ConditionsHold(r, s.cache))
            && (forall r :: r in rules && Starts(e, r) && ConditionsHold(r, s.cache) ==>
                  exists c :: c in s'.commands && c.mode == r.mode && c.on == r.turnOn && s.issued <= c.id < s'.issued)
    decreases rules
  {
    if rules != [] {
      var r := rules[0];
      assert rules == [r] + rules[1..];
      if Starts(e, r) && ConditionsHold(r, s.cache) {
        var sent := Command(s.issued, r.mode, r.turnOn);
        var s1 := s.(commands := s.commands + {sent}, issued := s.issued + 1);
        JudgeShape(s1, rules[1..], e);
        assert sent in Judge(s1, rules[1..], e).commands;
      } else {
        JudgeShape(s, rules[1..], e);
      }
    }
  }

  lemma {:induction false} TakenConsistent(defs: seq<Definition>, goal: World, s: Engine)
    requires Consistent(defs, goal, s) && s.queue != []
    ensures Consistent(defs, goal, Taken(s))
  {
    var x := s.queue[0];
    assert s.queue == [x] + s.queue[1..];
    if x.Report? {
      SetModeEffect(s.cache, x.mode, x.on);
      SetModeKeepsKnown(defs, s.cache, x.mode, x.on);
      SetModeKeepsSurroundings(s.cache, x.mode, x.on, Ids(defs));
      SurroundingsTurn(s.cache, Taken(s).cache, Ids(defs));
      SurroundingsCarry(Taken(s).cache, s.cache, goal, Ids(defs));
      forall m | m in Ids(defs) && m != x.mode ensures ModeOn(Taken(s).cache, m) == ModeOn(s.cache, m) {
        assert Lookup(Taken(s).cache.devices, m) == Lookup(s.cache.devices, m);
      }
    }
  }

  lemma {:induction false} DeliverLatest(s: Engine, c: Command, m: string, on: bool)
    ensures Latest(Deliver(s, c).queue, m, on)
            == if c.mode in s.store && c.mode == m then c.on else Latest(s.queue, m, on)
  {
    if c.mode in s.store {
      var noted := if s.store[c.mode] != c.on then [Note(ModeChanged(c.mode))] else [];
      LatestAppend(s.queue + noted, [Report(c.mode, c.on)], m, on);
      LatestAppend(s.queue, noted, m, on);
      assert [Report(c.mode, c.on)][1..] == [];
      assert noted != [] ==> noted[1..] == [];
    }
  }

  lemma {:induction false} DeliverConsistent(defs: seq<Definition>, goal: World, s: Engine, c: Command)
    requires Consistent(defs, goal, s) && c in s.commands
    ensures Consistent(defs, goal, Deliver(s, c))
  {
    var s' := Deliver(s, c);
    forall m | m in Ids(defs) ensures Latest(s'.queue, m, ModeOn(s'.cache, m)) == s'.store[m] {
      DeliverLatest(s, c, m, ModeOn(s.cache, m));
    }
  }

  lemma {:induction false} PublishConsistent(defs: seq<Definition>, goal: World, s: Engine, e: Event)
    requires Consistent(defs, goal, s)
    ensures Consistent(defs, goal, Publish(s, e))
  {
    forall m | m in Ids(defs) ensures Latest(Publish(s, e).queue, m, ModeOn(s.cache, m)) == s.store[m] {
      LatestAppend(s.queue, [Note(e)], m, ModeOn(s.cache, m));
      assert [Note(e)][1..] == [];
    }
  }

  lemma {:induction false} StepConsistent(defs: seq<Definition>, goal: World, rules: seq<Rule>, s: Engine, s': Engine)
    requires Consistent(defs, goal, s) && Step(rules, s, s')
    ensures Consistent(defs, goal, s')
    ensures s.issued <= s'.issued && s.handled <= s'.handled
  {
    if s.queue != [] && s' == Handle(s, rules) {
      TakenConsistent(defs, goal, s);
      JudgeShape(Taken(s), rules, EventOf(s.queue[0]));
    } else if c :| c in s.commands && s' == Deliver(s, c) {
      DeliverConsistent(defs, goal, s, c);
    } else {
      var e :| s' == Publish(s, e);
      PublishConsistent(defs, goal, s, e);
    }
  }

  // ---------- How far a mode has come ----------

  /**
    Milestones on the way to a mode being settled at its goal:
    commands numbered from `commands` on are right; and then (`reports`) no command is
    wrong and reports published from that position on are right; and then (`sent`) the
    mode is stored right or a command from before that number will make it so; and then
    (`stored`) it is stored right and cached right, or a report from before that
    position will make it so.
   */
  datatype Progress = Progress(commands: nat, reports: Option<nat>, sent: Option<nat>, stored: Option<nat>)

  predicate RightCommands(s: Engine, m: string, v: bool, from: nat) {
    forall c :: c in s.commands && c.mode == m && c.id >= from ==> c.on == v
  }

  predicate RightReports(s: Engine, m: string, v: bool, from: nat) {
    forall j :: 0 <= j < |s.queue| && s.queue[j] == Report(m, !v) ==> s.handled + j < from
  }

  ghost predicate OnItsWay(s: Engine, m: string, v: bool, before: nat) {
    exists c :: c in s.commands && c.mode == m && c.on == v && c.id < before
  }

  ghost predicate ToldBefore(s: Engine, m: string, v: bool, before: nat) {
    exists j :: 0 <= j < |s.queue| && s.queue[j] == Report(m, v) && s.handled + j < before
  }

  ghost predicate Reached(s: Engine, m: string, v: bool, p: Progress) {
    && m in s.store
    && RightCommands(s, m, v, p.commands)
    && (p.reports.Some? ==> p.commands == 0 && RightReports(s, m, v, p.reports.value))
    && (p.sent.Some? ==> p.reports == Some(0) && (s.store[m] == v || OnItsWay(s, m, v, p.sent.value)))
    && (p.stored.Some? ==>
              p.sent.Some? && s.store[m] == v && (ModeOn(s.cache, m) == v || ToldBefore(s, m, v, p.stored.value)))
  }

  const SETTLED := Progress(0, Some(0), Some(0), Some(0))

  /** The first `k` modes, in dependency order, are settled for good. */
  ghost predicate SettledUpTo(order: seq<string>, goal: World, s: Engine, k: nat)
    requires k <= |order|
  {
    forall i :: 0 <= i < k ==> Reached(s, order[i], ModeOn(goal, order[i]), SETTLED)
  }

  /** The cache differs from the goal in managed modes only, and knows those that are read as devices. */
  ghost predicate CacheFits(defs: seq<Definition>, goal: World, w: World) {
    SameSurroundings(w, goal, Ids(defs)) && Known(defs, w)
  }

  ghost predicate CachedUpTo(order: seq<string>, goal: World, w: World, k: nat) {
    forall i :: 0 <= i < k && i < |order| ==> ModeOn(w, order[i]) == ModeOn(goal, order[i])
  }

  /** A definition without an off condition has no rules; here its on condition stands in. */
  function PeriodicRule(d: Definition, on: bool): Rule {
    BuildRule(d.modeId, if on || EffectiveOff(d).Err? then d.onCondition else EffectiveOff(d).value, on,
              OnPeriod(AtLeastOne(d.everyMinutes)))
  }

  /** Judged on this cache, a rule for the k-th mode commands what the goal has, once the modes before it are right. */
  ghost predicate SendsRight(defs: seq<Definition>, order: seq<string>, rules: seq<Rule>, goal: World, w: World, k: nat,
                             r: Rule)
  {
    k < |order| && CacheFits(defs, goal, w) && CachedUpTo(order, goal, w, k)
    && r in rules && r.mode == order[k] && ConditionsHold(r, w)
    ==> r.turnOn == ModeOn(goal, order[k])
  }

  /** And if the cache has the k-th mode wrong, its periodic rule applies. */
  ghost predicate Corrects(defs: seq<Definition>, order: seq<string>, rules: seq<Rule>, goal: World, w: World, k: nat) {
    k < |order| && order[k] in Ids(defs) && CacheFits(defs, goal, w) && CachedUpTo(order, goal, w, k)
    && ModeOn(w, order[k]) != ModeOn(goal, order[k])
    ==> var r := PeriodicRule(DefinitionOf(defs, order[k]), ModeOn(goal, order[k]));
        r in rules && ConditionsHold(r, w)
  }

  /** What most of the rest needs to know: the first n modes are sent to the goal once those they read are there. */
  ghost predicate Steers(defs: seq<Definition>, order: seq<string>, rules: seq<Rule>, goal: World, n: nat) {
    && n <= |order|
    && (forall m :: m in order <==> m in Ids(defs))
    && forall w, k: nat, r :: k < n ==> SendsRight(defs, order, rules, goal, w, k, r)
  }

  ghost predicate Pushes(defs: seq<Definition>, order: seq<string>, rules: seq<Rule>, goal: World, k: nat) {
    forall w :: Corrects(defs, order, rules, goal, w, k)
  }

  /** The goal has the first n modes right. */
  ghost predicate Goal(defs: seq<Definition>, order: seq<string>, rules: seq<Rule>, goal: World, n: nat) {
    && InOrder(defs, order) && NoModeTimed(defs) && Installed(defs, rules)
    && Known(defs, goal) && n <= |order| && RightUpTo(defs, order, goal, n)
  }

  /** Once what it reads is settled, the engine judges a mode's conditions as the goal has them. */
  lemma {:induction false} JudgedByGoal(defs: seq<Definition>, order: seq<string>, rules: seq<Rule>, goal: World,
                                        w: World, k: nat)
    requires Goal(defs, order, rules, goal, k) && k < |order| && CacheFits(defs, goal, w)
    requires CachedUpTo(order, goal, w, k)
    ensures var d := DefinitionOf(defs, order[k]);
            && EffectiveOff(d).Ok?
            && Holds(d.onCondition, w) == Holds(d.onCondition, goal)
            && Holds(EffectiveOff(d).value, w) == Holds(EffectiveOff(d).value, goal)
  {
    var d := DefinitionOf(defs, order[k]);
    forall m | m in ReadsOf(d) && m in Ids(defs) ensures ModeOn(w, m) == ModeOn(goal, m) {
      var i := ReadsEarlier(defs, order, k, m);
    }
    CriterionDependsOnModes(defs, d, w, goal);
  }

  /** A rule that applies commands what its mode's criterion says. */
  lemma {:induction false} RuleSays(defs: seq<Definition>, rules: seq<Rule>, r: Rule, w: World)
    requires DistinctIds(defs) && AllInverse(defs) && Installed(defs, rules) && r in rules && ConditionsHold(r, w)
    ensures r.mode in Ids(defs) && r.turnOn == Holds(DefinitionOf(defs, r.mode).onCondition, w)
  {
    var d :| d in defs && r in ManagedRules(d);
    RuleApplies(d, r, w);
    DefinitionOfIs(defs, d);
    InverseRight(d, w);
  }

  lemma {:induction false} PeriodicRuleIsManaged(d: Definition, on: bool)
    requires EffectiveOff(d).Ok?
    ensures PeriodicRule(d, on) in ManagedRules(d)
  {
    assert OnPeriod(AtLeastOne(d.everyMinutes)) in TriggersFor(d);
  }

  /** What holds of a mode's conditions asks for this setting. */
  predicate AsksFor(d: Definition, w: World, on: bool) {
    if on then Holds(d.onCondition, w) else EffectiveOff(d).Ok? && Holds(EffectiveOff(d).value, w)
  }

  lemma PeriodicRuleHolds(d: Definition, cache: World, v: bool)
    requires AsksFor(d, cache, v) && ModeOn(cache, d.modeId) != v
    ensures ConditionsHold(PeriodicRule(d, v), cache)
  {
  }

  lemma {:induction false} GoalSends(defs: seq<Definition>, order: seq<string>, rules: seq<Rule>, goal: World, w: World,
                                     n: nat, k: nat, r: Rule)
    requires Goal(defs, order, rules, goal, n) && k < n
    ensures SendsRight(defs, order, rules, goal, w, k, r)
  {
    if CacheFits(defs, goal, w) && CachedUpTo(order, goal, w, k) && r in rules && r.mode == order[k]
       && ConditionsHold(r, w) {
      var d := RuleOwner(defs, rules, r);
      DefinitionOfIs(defs, d);
      JudgedByGoal(defs, order, rules, goal, w, k);
      assert !Wrong(DefinitionOf(defs, order[k]), goal);
    }
  }

  /** A goal that has the first n modes right steers them there. */
  lemma {:induction false} GoalSteers(defs: seq<Definition>, order: seq<string>, rules: seq<Rule>, goal: World, n: nat)
    requires Goal(defs, order, rules, goal, n)
    ensures Steers(defs, order, rules, goal, n)
  {
    forall w, k: nat, r | k < n ensures SendsRight(defs, order, rules, goal, w, k, r) {
      GoalSends(defs, order, rules, goal, w, n, k, r);
    }
  }

  /** And a mode whose conditions ask for its setting is pushed there. */
  lemma {:induction false} GoalPushes(defs: seq<Definition>, order: seq<string>, rules: seq<Rule>, goal: World, k: nat)
    requires Goal(defs, order, rules, goal, k) && k < |order|
    requires order[k] in Ids(defs) && AsksFor(DefinitionOf(defs, order[k]), goal, ModeOn(goal, order[k]))
    ensures Pushes(defs, order, rules, goal, k)
  {
    forall w ensures Corrects(defs, order, rules, goal, w, k) {
      if CacheFits(defs, goal, w) && CachedUpTo(order, goal, w, k) && ModeOn(w, order[k]) != ModeOn(goal, order[k]) {
        var d, on := DefinitionOf(defs, order[k]), ModeOn(goal, order[k]);
        JudgedByGoal(defs, order, rules, goal, w, k);
        PeriodicRuleHolds(d, w, on);
        PeriodicRuleIsManaged(d, on);
      }
    }
  }

  lemma {:induction false} TakenKeepsReached(s: Engine, m: string, v: bool, p: Progress)
    requires s.queue != [] && Reached(s, m, v, p)
    ensures Reached(Taken(s), m, v, p)
  {
    var x, t := s.queue[0], Taken(s);
    assert s.queue == [x] + s.queue[1..];
    if x.Report? {
      SetModeEffect(s.cache, x.mode, x.on);
      assert m != x.mode ==> Lookup(t.cache.devices, m) == Lookup(s.cache.devices, m);
    }
    if p.stored.Some? && ModeOn(s.cache, m) != v {
      var j :| 0 <= j < |s.queue| && s.queue[j] == Report(m, v) && s.handled + j < p.stored.value;
      assert j > 0 ==> t.queue[j - 1] == Report(m, v);
    }
  }

  lemma {:induction false} JudgeSends(s: Engine, rules: seq<Rule>, e: Event, m: string, v: bool, from: nat)
    requires RightCommands(s, m, v, from)
    requires forall r :: r in rules && r.mode == m && ConditionsHold(r, s.cache) ==> r.turnOn == v
    ensures RightCommands(Judge(s, rules, e), m, v, from)
  {
    JudgeShape(s, rules, e);
  }

  lemma {:induction false} JudgeSendsRight(defs: seq<Definition>, order: seq<string>, rules: seq<Rule>, goal: World,
                                           s: Engine, k: nat, from: nat, e: Event)
    requires Steers(defs, order, rules, goal, k + 1)
    requires CacheFits(defs, goal, s.cache) && CachedUpTo(order, goal, s.cache, k)
    requires RightCommands(s, order[k], ModeOn(goal, order[k]), from)
    ensures RightCommands(Judge(s, rules, e), order[k], ModeOn(goal, order[k]), from)
  {
    forall r | r in rules && r.mode == order[k] && ConditionsHold(r, s.cache)
      ensures r.turnOn == ModeOn(goal, order[k]) {
      assert SendsRight(defs, order, rules, goal, s.cache, k, r);
    }
    JudgeSends(s, rules, e, order[k], ModeOn(goal, order[k]), from);
  }

  lemma {:induction false} JudgeKeepsReached(s: Engine, rules: seq<Rule>, e: Event, m: string, v: bool, p: Progress)
    requires Reached(s, m, v, p)
    requires RightCommands(Judge(s, rules, e), m, v, p.commands)
    ensures Reached(Judge(s, rules, e), m, v, p)
  {
    JudgeShape(s, rules, e);
  }

  lemma {:induction false} DeliverKeepsReached(s: Engine, m: string, v: bool, p: Progress, c: Command)
    requires c in s.commands && Reached(s, m, v, p)
    ensures Reached(Deliver(s, c), m, v, p)
  {
    var s' := Deliver(s, c);
    assert forall j :: 0 <= j < |s.queue| ==> s'.queue[j] == s.queue[j];
    if p.reports.Some? {
      assert c.mode == m ==> c.on == v;
      forall j | 0 <= j < |s'.queue| && s'.queue[j] == Report(m, !v) ensures s'.handled + j < p.reports.value {
        assert j < |s.queue|;
      }
    }
    if p.sent.Some? && s'.store[m] != v {
      var sent :| sent in s.commands && sent.mode == m && sent.on == v && sent.id < p.sent.value;
      assert sent in s'.commands;
    }
    if p.stored.Some? && ModeOn(s.cache, m) != v {
      var j :| 0 <= j < |s.queue| && s.queue[j] == Report(m, v) && s.handled + j < p.stored.value;
      assert s'.queue[j] == Report(m, v);
    }
  }

  lemma {:induction false} PublishKeepsReached(s: Engine, m: string, v: bool, p: Progress, e: Event)
    requires Reached(s, m, v, p)
    ensures Reached(Publish(s, e), m, v, p)
  {
    var s' := Publish(s, e);
    assert forall j :: 0 <= j < |s.queue| ==> s'.queue[j] == s.queue[j];
    if p.stored.Some? && ModeOn(s.cache, m) != v {
      var j :| 0 <= j < |s.queue| && s.queue[j] == Report(m, v) && s.handled + j < p.stored.value;
      assert s'.queue[j] == Report(m, v);
    }
  }

  /** What all modes up to the `k`-th need to be judged by the goal while a message is handled. */
  lemma {:induction false} TakenSettled(defs: seq<Definition>, order: seq<string>, rules: seq<Rule>, goal: World,
                                        s: Engine, k: nat)
    requires Steers(defs, order, rules, goal, k) && Consistent(defs, goal, s) && s.queue != []
    requires SettledUpTo(order, goal, s, k)
    ensures CachedUpTo(order, goal, Taken(s).cache, k)
  {
    forall i | 0 <= i < k ensures ModeOn(Taken(s).cache, order[i]) == ModeOn(goal, order[i]) {
      TakenKeepsReached(s, order[i], ModeOn(goal, order[i]), SETTLED);
    }
  }

  /** No step takes back progress of a mode whose dependencies are settled. */
  lemma {:induction false} StepKeepsReached(defs: seq<Definition>, order: seq<string>, rules: seq<Rule>, goal: World,
                                            s: Engine, s': Engine, k: nat, p: Progress)
    requires Steers(defs, order, rules, goal, k + 1) && Consistent(defs, goal, s) && Step(rules, s, s')
    requires SettledUpTo(order, goal, s, k)
    requires Reached(s, order[k], ModeOn(goal, order[k]), p)
    ensures Consistent(defs, goal, s') && Reached(s', order[k], ModeOn(goal, order[k]), p)
  {
    StepConsistent(defs, goal, rules, s, s');
    var m, v := order[k], ModeOn(goal, order[k]);
    if s.queue != [] && s' == Handle(s, rules) {
      TakenConsistent(defs, goal, s);
      TakenKeepsReached(s, m, v, p);
      TakenSettled(defs, order, rules, goal, s, k);
      JudgeSendsRight(defs, order, rules, goal, Taken(s), k, p.commands, EventOf(s.queue[0]));
      JudgeKeepsReached(Taken(s), rules, EventOf(s.queue[0]), m, v, p);
    } else if c :| c in s.commands && s' == Deliver(s, c) {
      DeliverKeepsReached(s, m, v, p, c);
    } else {
      var e :| s' == Publish(s, e);
      PublishKeepsReached(s, m, v, p, e);
    }
  }

  lemma {:induction false} StepKeepsSettled(defs: seq<Definition>, order: seq<string>, rules: seq<Rule>, goal: World,
                                            s: Engine, s': Engine, k: nat)
    requires Steers(defs, order, rules, goal, k) && Consistent(defs, goal, s) && Step(rules, s, s')
    requires SettledUpTo(order, goal, s, k)
    ensures Consistent(defs, goal, s') && SettledUpTo(order, goal, s', k)
  {
    StepConsistent(defs, goal, rules, s, s');
    forall i | 0 <= i < k ensures Reached(s', order[i], ModeOn(goal, order[i]), SETTLED) {
      StepKeepsReached(defs, order, rules, goal, s, s', i, SETTLED);
    }
  }

  lemma {:induction false} StepKeepsBoth(defs: seq<Definition>, order: seq<string>, rules: seq<Rule>, goal: World,
                                         s: Engine, s': Engine, k: nat, p: Progress)
    requires Steers(defs, order, rules, goal, k + 1) && Consistent(defs, goal, s) && Step(rules, s, s')
    requires SettledUpTo(order, goal, s, k) && Reached(s, order[k], ModeOn(goal, order[k]), p)
    ensures Consistent(defs, goal, s') && SettledUpTo(order, goal, s', k)
    ensures Reached(s', order[k], ModeOn(goal, order[k]), p)
  {
    StepKeepsSettled(defs, order, rules, goal, s, s', k);
    StepKeepsReached(defs, order, rules, goal, s, s', k, p);
  }

  ghost predicate Standing(defs: seq<Definition>, order: seq<string>, goal: World, s: Engine, k: nat, p: Progress)
    requires k < |order|
  {
    Consistent(defs, goal, s) && SettledUpTo(order, goal, s, k) && Reached(s, order[k], ModeOn(goal, order[k]), p)
  }

  /** Along a stretch of a run, nothing reached is lost. */
  lemma {:induction false} RunKeepsReached(defs: seq<Definition>, order: seq<string>, rules: seq<Rule>, goal: World,
                                           run: seq<Engine>, a: nat, b: nat, k: nat, p: Progress)
    requires Steers(defs, order, rules, goal, k + 1) && IsRun(rules, run) && a <= b < |run|
    requires Consistent(defs, goal, run[a]) && SettledUpTo(order, goal, run[a], k)
    requires Reached(run[a], order[k], ModeOn(goal, order[k]), p)
    ensures Consistent(defs, goal, run[b]) && SettledUpTo(order, goal, run[b], k)
    ensures Reached(run[b], order[k], ModeOn(goal, order[k]), p)
  {
    AllStepsKeepStanding(defs, order, rules, goal, k, p);
    StaysStanding(defs, order, rules, goal, run, a, b, k, p);
  }

  lemma {:induction false} StaysStanding(defs: seq<Definition>, order: seq<string>, rules: seq<Rule>, goal: World,
                                         run: seq<Engine>, a: nat, b: nat, k: nat, p: Progress)
    requires k < |order| && IsRun(rules, run) && a <= b < |run| && Standing(defs, order, goal, run[a], k, p)
    requires forall s, s' :: Standing(defs, order, goal, s, k, p) && Step(rules, s, s') ==>
                               Standing(defs, order, goal, s', k, p)
    ensures Standing(defs, order, goal, run[b], k, p)
  {
    StretchKeeps((s, s') => Step(rules, s, s'), s => Standing(defs, order, goal, s, k, p), run, a, b);
  }

  lemma {:induction false} AllStepsKeepStanding(defs: seq<Definition>, order: seq<string>, rules: seq<Rule>,
                                                goal: World, k: nat, p: Progress)
    requires Steers(defs, order, rules, goal, k + 1)
    ensures forall s, s' :: Standing(defs, order, goal, s, k, p) && Step(rules, s, s') ==>
                              Standing(defs, order, goal, s', k, p)
  {
    forall s, s' | Standing(defs, order, goal, s, k, p) && Step(rules, s, s')
      ensures Standing(defs, order, goal, s', k, p) {
      StepKeepsBoth(defs, order, rules, goal, s, s', k, p);
    }
  }

  lemma {:induction false} RunKeepsSettled(defs: seq<Definition>, order: seq<string>, rules: seq<Rule>, goal: World,
                                           run: seq<Engine>, a: nat, b: nat, k: nat)
    requires Steers(defs, order, rules, goal, k) && IsRun(rules, run) && a <= b < |run|
    requires Consistent(defs, goal, run[a]) && SettledUpTo(order, goal, run[a], k)
    ensures Consistent(defs, goal, run[b]) && SettledUpTo(order, goal, run[b], k)
    ensures run[a].issued <= run[b].issued && run[a].handled <= run[b].handled
  {
    var issued, handled := run[a].issued, run[a].handled;
    var ok := s => && Consistent(defs, goal, s) && SettledUpTo(order, goal, s, k)
                   && issued <= s.issued && handled <= s.handled;
    forall s, s' | ok(s) && Step(rules, s, s') ensures ok(s') {
      StepConsistent(defs, goal, rules, s, s');
      StepKeepsSettled(defs, order, rules, goal, s, s', k);
    }
    StretchKeeps((s, s') => Step(rules, s, s'), ok, run, a, b);
  }

  // ---------- Rounds ----------

  ghost predicate HandlesTick(rules: seq<Rule>, s: Engine, s': Engine, r: Rule) {
    s.queue != [] && s.queue[0] == Note(SchedulerTick(r)) && s' == Handle(s, rules)
  }

  ghost predicate TicksAt(rules: seq<Rule>, run: seq<Engine>, i: nat, r: Rule) {
    i < |run| - 1 && HandlesTick(rules, run[i], run[i + 1], r)
  }

  /** Between `a` and `b` the scheduler's tick for this rule was handled. */
  ghost predicate Ticked(rules: seq<Rule>, run: seq<Engine>, a: nat, b: nat, r: Rule)
    requires a <= b < |run|
  {
    exists i :: a <= i < b && TicksAt(rules, run, i, r)
  }

  /**
    Between `a` and `b` everything that was under way at `a` arrived, and every periodic
    rule was tried at least once. Anything else may have happened in between.
   */
  ghost predicate IsRound(defs: seq<Definition>, rules: seq<Rule>, run: seq<Engine>, a: nat, b: nat) {
    && a <= b < |run|
    && (forall c :: c in run[b].commands ==> c.id >= run[a].issued)
    && run[b].handled >= run[a].handled + |run[a].queue|
    && forall d, on :: d in defs ==> Ticked(rules, run, a, b, PeriodicRule(d, on))
  }

  lemma {:induction false} StoredWrongIsCachedWrong(defs: seq<Definition>, goal: World, s: Engine, m: string, v: bool)
    requires Consistent(defs, goal, s) && m in Ids(defs)
    requires RightReports(s, m, v, 0) && s.store[m] != v
    ensures ModeOn(s.cache, m) != v
  {
    LatestUniform(s.queue, m, ModeOn(s.cache, m), v);
  }

  /** If a mode has no wrong command or report under way and is stored wrong, its periodic rule corrects it. */
  lemma {:induction false} TickCorrects(defs: seq<Definition>, order: seq<string>, rules: seq<Rule>, goal: World,
                                        s: Engine, k: nat)
    requires Steers(defs, order, rules, goal, k + 1) && Pushes(defs, order, rules, goal, k)
    requires Consistent(defs, goal, s)
    requires SettledUpTo(order, goal, s, k)
    requires Reached(s, order[k], ModeOn(goal, order[k]), Progress(0, Some(0), None, None))
    requires s.queue != []
    requires s.queue[0] == Note(SchedulerTick(PeriodicRule(DefinitionOf(defs, order[k]), ModeOn(goal, order[k]))))
    ensures var s' := Handle(s, rules);
            s.store[order[k]] == ModeOn(goal, order[k]) || OnItsWay(s', order[k], ModeOn(goal, order[k]), s'.issued)
  {
    if s.store[order[k]] != ModeOn(goal, order[k]) {
      var r := PeriodicRule(DefinitionOf(defs, order[k]), ModeOn(goal, order[k]));
      assert forall i :: 0 <= i < k ==> Reached(s, order[i], ModeOn(goal, order[i]), SETTLED);
      StoredWrongIsCachedWrong(defs, goal, s, order[k], ModeOn(goal, order[k]));
      assert Corrects(defs, order, rules, goal, s.cache, k);
      AppliedRuleSends(Taken(s), rules, r);
    }
  }

  lemma {:induction false} AppliedRuleSends(s: Engine, rules: seq<Rule>, r: Rule)
    requires r in rules && ConditionsHold(r, s.cache)
    ensures OnItsWay(Judge(s, rules, SchedulerTick(r)), r.mode, r.turnOn, Judge(s, rules, SchedulerTick(r)).issued)
  {
    JudgeShape(s, rules, SchedulerTick(r));
  }

  lemma {:induction false} TickSends(defs: seq<Definition>, order: seq<string>, rules: seq<Rule>, goal: World,
                                     s: Engine, k: nat)
    requires Steers(defs, order, rules, goal, k + 1) && Pushes(defs, order, rules, goal, k)
    requires Consistent(defs, goal, s)
    requires SettledUpTo(order, goal, s, k)
    requires Reached(s, order[k], ModeOn(goal, order[k]), Progress(0, Some(0), None, None))
    requires s.queue != []
    requires s.queue[0] == Note(SchedulerTick(PeriodicRule(DefinitionOf(defs, order[k]), ModeOn(goal, order[k]))))
    ensures var s' := Handle(s, rules);
            && Consistent(defs, goal, s') && SettledUpTo(order, goal, s', k)
            && Reached(s', order[k], ModeOn(goal, order[k]), Progress(0, Some(0), Some(s'.issued), None))
  {
    var s' := Handle(s, rules);
    TickCorrects(defs, order, rules, goal, s, k);
    JudgeShape(Taken(s), rules, EventOf(s.queue[0]));
    StepKeepsSettled(defs, order, rules, goal, s, s', k);
    StepKeepsReached(defs, order, rules, goal, s, s', k, Progress(0, Some(0), None, None));
  }

  ghost predicate TickedAt(defs: seq<Definition>, order: seq<string>, rules: seq<Rule>, goal: World, s: Engine,
                           s': Engine, k: nat)
    requires k < |order| && order[k] in Ids(defs)
  {
    HandlesTick(rules, s, s', PeriodicRule(DefinitionOf(defs, order[k]), ModeOn(goal, order[k])))
  }

  /** A round in which the mode's rule is tried leaves it stored right, or soon to be. */
  lemma {:induction false} RoundSends(defs: seq<Definition>, order: seq<string>, rules: seq<Rule>, goal: World,
                                      run: seq<Engine>, a: nat, i: nat, b: nat, k: nat)
    requires Steers(defs, order, rules, goal, k + 1) && Pushes(defs, order, rules, goal, k)
    requires IsRun(rules, run) && a <= i < b < |run|
    requires TickedAt(defs, order, rules, goal, run[i], run[i + 1], k)
    requires Consistent(defs, goal, run[a]) && SettledUpTo(order, goal, run[a], k)
    requires Reached(run[a], order[k], ModeOn(goal, order[k]), Progress(0, Some(0), None, None))
    ensures Consistent(defs, goal, run[b]) && SettledUpTo(order, goal, run[b], k)
    ensures Reached(run[b], order[k], ModeOn(goal, order[k]), Progress(0, Some(0), Some(run[b].issued), None))
  {
    RunKeepsReached(defs, order, rules, goal, run, a, i, k, Progress(0, Some(0), None, None));
    TickSends(defs, order, rules, goal, run[i], k);
    StaysSent(defs, order, rules, goal, run, i + 1, b, k);
  }

  lemma {:induction false} StaysSent(defs: seq<Definition>, order: seq<string>, rules: seq<Rule>, goal: World,
                                     run: seq<Engine>, a: nat, b: nat, k: nat)
    requires Steers(defs, order, rules, goal, k + 1) && IsRun(rules, run) && a <= b < |run|
    requires Consistent(defs, goal, run[a]) && SettledUpTo(order, goal, run[a], k)
    requires Reached(run[a], order[k], ModeOn(goal, order[k]), Progress(0, Some(0), Some(run[a].issued), None))
    ensures Consistent(defs, goal, run[b]) && SettledUpTo(order, goal, run[b], k)
    ensures Reached(run[b], order[k], ModeOn(goal, order[k]), Progress(0, Some(0), Some(run[b].issued), None))
  {
    RunKeepsReached(defs, order, rules, goal, run, a, b, k, Progress(0, Some(0), Some(run[a].issued), None));
    RunKeepsSettled(defs, order, rules, goal, run, a, b, k);
    LaterBound(run[b], order[k], ModeOn(goal, order[k]), run[a].issued, run[b].issued);
  }

  lemma {:induction false} TickOf(defs: seq<Definition>, order: seq<string>, rules: seq<Rule>, goal: World,
                                  run: seq<Engine>, a: nat, b: nat, k: nat) returns (i: nat)
    requires IsRound(defs, rules, run, a, b) && k < |order| && order[k] in Ids(defs)
    ensures a <= i < b && TickedAt(defs, order, rules, goal, run[i], run[i + 1], k)
  {
    var d, on := DefinitionOf(defs, order[k]), ModeOn(goal, order[k]);
    assert Ticked(rules, run, a, b, PeriodicRule(d, on));
    i :| a <= i < b && TicksAt(rules, run, i, PeriodicRule(d, on));
  }

  // What a round leaves behind, one mode at a time.

  lemma LaterBound(s: Engine, m: string, v: bool, n: nat, n': nat)
    requires n <= n' && Reached(s, m, v, Progress(0, Some(0), Some(n), None))
    ensures Reached(s, m, v, Progress(0, Some(0), Some(n'), None))
  {
  }

  lemma CommandsDrained(s: Engine, m: string, v: bool, n: nat)
    requires Reached(s, m, v, Progress(n, None, None, None)) && forall c :: c in s.commands ==> c.id >= n
    ensures Reached(s, m, v, Progress(0, Some(s.handled + |s.queue|), None, None))
  {
  }

  lemma ReportsDrained(s: Engine, m: string, v: bool, n: nat)
    requires Reached(s, m, v, Progress(0, Some(n), None, None)) && s.handled >= n
    ensures Reached(s, m, v, Progress(0, Some(0), None, None))
  {
  }

  lemma {:induction false} SentDrained(defs: seq<Definition>, goal: World, s: Engine, m: string, v: bool, n: nat)
    requires Consistent(defs, goal, s) && m in Ids(defs)
    requires Reached(s, m, v, Progress(0, Some(0), Some(n), None)) && forall c :: c in s.commands ==> c.id >= n
    ensures Reached(s, m, v, Progress(0, Some(0), Some(0), Some(s.handled + |s.queue|)))
  {
    assert s.store[m] == v;
    LatestUniform(s.queue, m, ModeOn(s.cache, m), v);
    if ModeOn(s.cache, m) != v {
      var j :| 0 <= j < |s.queue| && s.queue[j] == Report(m, v);
      assert ToldBefore(s, m, v, s.handled + |s.queue|);
    }
  }

  lemma StoredDrained(s: Engine, m: string, v: bool, n: nat)
    requires Reached(s, m, v, Progress(0, Some(0), Some(0), Some(n))) && s.handled >= n
    ensures Reached(s, m, v, SETTLED)
  {
  }

  /** Wrong commands drain in one round, wrong reports in the next. */
  lemma {:induction false} RoundsClean(defs: seq<Definition>, order: seq<string>, rules: seq<Rule>, goal: World,
                                       run: seq<Engine>, a: nat, b: nat, c: nat, k: nat)
    requires Steers(defs, order, rules, goal, k + 1) && IsRun(rules, run)
    requires IsRound(defs, rules, run, a, b) && IsRound(defs, rules, run, b, c)
    requires Consistent(defs, goal, run[a]) && SettledUpTo(order, goal, run[a], k)
    ensures Consistent(defs, goal, run[c]) && SettledUpTo(order, goal, run[c], k)
    ensures Reached(run[c], order[k], ModeOn(goal, order[k]), Progress(0, Some(0), None, None))
  {
    var m, v := order[k], ModeOn(goal, order[k]);
    RunKeepsReached(defs, order, rules, goal, run, a, b, k, Progress(run[a].issued, None, None, None));
    CommandsDrained(run[b], m, v, run[a].issued);
    var cleared := run[b].handled + |run[b].queue|;
    RunKeepsReached(defs, order, rules, goal, run, b, c, k, Progress(0, Some(cleared), None, None));
    ReportsDrained(run[c], m, v, cleared);
  }

  /** Once a right command is out, one round stores it and the next tells the cache. */
  lemma {:induction false} RoundsStore(defs: seq<Definition>, order: seq<string>, rules: seq<Rule>, goal: World,
                                       run: seq<Engine>, a: nat, b: nat, c: nat, k: nat)
    requires Steers(defs, order, rules, goal, k + 1) && IsRun(rules, run)
    requires IsRound(defs, rules, run, a, b) && IsRound(defs, rules, run, b, c)
    requires Consistent(defs, goal, run[a]) && SettledUpTo(order, goal, run[a], k)
    requires Reached(run[a], order[k], ModeOn(goal, order[k]), Progress(0, Some(0), Some(run[a].issued), None))
    ensures Consistent(defs, goal, run[c]) && SettledUpTo(order, goal, run[c], k + 1)
  {
    var m, v := order[k], ModeOn(goal, order[k]);
    RunKeepsReached(defs, order, rules, goal, run, a, b, k, Progress(0, Some(0), Some(run[a].issued), None));
    SentDrained(defs, goal, run[b], m, v, run[a].issued);
    var told := run[b].handled + |run[b].queue|;
    RunKeepsReached(defs, order, rules, goal, run, b, c, k, Progress(0, Some(0), Some(0), Some(told)));
    StoredDrained(run[c], m, v, told);
  }

  ghost predicate AreRounds(defs: seq<Definition>, rules: seq<Rule>, run: seq<Engine>, bounds: seq<nat>) {
    && (forall i :: 0 <= i < |bounds| ==> bounds[i] < |run|)
    && forall i :: 0 <= i < |bounds| - 1 ==> IsRound(defs, rules, run, bounds[i], bounds[i + 1])
  }

  /** Five rounds settle the next mode in dependency order. */
  lemma {:induction false} FiveRounds(defs: seq<Definition>, order: seq<string>, rules: seq<Rule>, goal: World,
                                      run: seq<Engine>, b0: nat, b1: nat, b2: nat, b3: nat, b4: nat, b5: nat, k: nat)
    requires Steers(defs, order, rules, goal, k + 1) && Pushes(defs, order, rules, goal, k)
    requires IsRun(rules, run)
    requires IsRound(defs, rules, run, b0, b1) && IsRound(defs, rules, run, b1, b2) && IsRound(defs, rules, run, b2, b3)
    requires IsRound(defs, rules, run, b3, b4) && IsRound(defs, rules, run, b4, b5)
    requires Consistent(defs, goal, run[b0]) && SettledUpTo(order, goal, run[b0], k)
    ensures Consistent(defs, goal, run[b5]) && SettledUpTo(order, goal, run[b5], k + 1)
  {
    RoundsClean(defs, order, rules, goal, run, b0, b1, b2, k);
    var i := TickOf(defs, order, rules, goal, run, b2, b3, k);
    RoundSends(defs, order, rules, goal, run, b2, i, b3, k);
    RoundsStore(defs, order, rules, goal, run, b3, b4, b5, k);
  }

  lemma RoundAt(defs: seq<Definition>, rules: seq<Rule>, run: seq<Engine>, bounds: seq<nat>, i: nat)
    requires AreRounds(defs, rules, run, bounds) && i < |bounds| - 1
    ensures IsRound(defs, rules, run, bounds[i], bounds[i + 1])
  {
  }

  // ---------- The goal takes shape ----------

  /** All that is known once the first k modes are settled. */
  ghost predicate Settling(defs: seq<Definition>, order: seq<string>, rules: seq<Rule>, goal: World, s: Engine,
                           k: nat)
  {
    Goal(defs, order, rules, goal, k) && Consistent(defs, goal, s) && SettledUpTo(order, goal, s, k)
  }

  /** Aiming the next mode elsewhere is no matter to those before it. */
  lemma {:induction false} AimKeepsRight(defs: seq<Definition>, order: seq<string>, goal: World, k: nat, v: bool)
    requires InOrder(defs, order) && k < |order| && RightUpTo(defs, order, goal, k)
    ensures RightUpTo(defs, order, SetMode(goal, order[k], v), k)
    ensures forall i :: 0 <= i < k ==> ModeOn(SetMode(goal, order[k], v), order[i]) == ModeOn(goal, order[i])
  {
    SetModeEffect(goal, order[k], v);
    forall i | 0 <= i < k
      ensures !Wrong(DefinitionOf(defs, order[i]), SetMode(goal, order[k], v))
      ensures ModeOn(SetMode(goal, order[k], v), order[i]) == ModeOn(goal, order[i]) {
      OrderedReads(defs, order, i, k);
      OthersStay(DefinitionOf(defs, order[i]), goal, order[k], v);
      assert Lookup(SetMode(goal, order[k], v).devices, order[i]) == Lookup(goal.devices, order[i]);
    }
  }

  lemma {:induction false} AimKeepsConsistent(defs: seq<Definition>, goal: World, s: Engine, m: string, v: bool)
    requires Consistent(defs, goal, s) && m in Ids(defs)
    ensures Consistent(defs, SetMode(goal, m, v), s)
  {
    SetModeKeepsSurroundings(goal, m, v, Ids(defs));
    SurroundingsCarry(s.cache, goal, SetMode(goal, m, v), Ids(defs));
  }

  /** A setting nothing speaks against is a goal for the next mode. */
  lemma {:induction false} Aim(defs: seq<Definition>, order: seq<string>, rules: seq<Rule>, goal: World, s: Engine,
                               k: nat, v: bool) returns (aim: World)
    requires Settling(defs, order, rules, goal, s, k) && k < |order| && order[k] in Ids(defs)
    requires !AsksFor(DefinitionOf(defs, order[k]), goal, !v)
    ensures aim == SetMode(goal, order[k], v) && SameSurroundings(goal, aim, Ids(defs)) && ModeOn(aim, order[k]) == v
    ensures Goal(defs, order, rules, aim, k + 1) && Consistent(defs, aim, s) && SettledUpTo(order, aim, s, k)
    ensures AsksFor(DefinitionOf(defs, order[k]), aim, v) == AsksFor(DefinitionOf(defs, order[k]), goal, v)
  {
    aim := SetMode(goal, order[k], v);
    var d := DefinitionOf(defs, order[k]);
    AimKeepsRight(defs, order, goal, k, v);
    AimKeepsConsistent(defs, goal, s, order[k], v);
    SetModeKeepsKnown(defs, goal, order[k], v);
    SetModeKeepsSurroundings(goal, order[k], v, Ids(defs));
    SetModeEffect(goal, order[k], v);
    OrderedReads(defs, order, k, k);
    IgnoresUnread(d, goal, order[k], v);
    assert !Wrong(d, aim);
  }

  /** A mode asked for neither way: once nothing under way speaks of it, it stays as it is. */
  lemma {:induction false} LeftAlone(defs: seq<Definition>, goal: World, s: Engine, m: string)
    requires Consistent(defs, goal, s) && m in Ids(defs)
    requires Reached(s, m, true, Progress(0, Some(0), None, None))
    requires Reached(s, m, false, Progress(0, Some(0), None, None))
    ensures Reached(s, m, s.store[m], SETTLED)
  {
    LatestUniform(s.queue, m, ModeOn(s.cache, m), !ModeOn(s.cache, m));
    assert forall x :: x in s.queue && x.Report? ==> x.mode != m by {
      assert forall j :: 0 <= j < |s.queue| ==> s.queue[j] != Report(m, true) && s.queue[j] != Report(m, false);
    }
  }

  lemma {:induction false} AskedSettles(defs: seq<Definition>, order: seq<string>, rules: seq<Rule>, goal: World,
                                        run: seq<Engine>, b: seq<nat>, k: nat, v: bool) returns (aim: World)
    requires IsRun(rules, run) && |b| == 6 && AreRounds(defs, rules, run, b)
    requires Settling(defs, order, rules, goal, run[b[0]], k) && k < |order| && order[k] in Ids(defs)
    requires AsksFor(DefinitionOf(defs, order[k]), goal, v) && !AsksFor(DefinitionOf(defs, order[k]), goal, !v)
    ensures Settling(defs, order, rules, aim, run[b[5]], k + 1) && SameSurroundings(goal, aim, Ids(defs))
  {
    aim := Aim(defs, order, rules, goal, run[b[0]], k, v);
    GoalSteers(defs, order, rules, aim, k + 1);
    GoalPushes(defs, order, rules, aim, k);
    FiveRounds(defs, order, rules, aim, run, b[0], b[1], b[2], b[3], b[4], b[5], k);
  }

  /** Aimed either way, a mode is soon free of commands and reports that say otherwise. */
  lemma {:induction false} AimCleans(defs: seq<Definition>, order: seq<string>, rules: seq<Rule>, goal: World,
                                     run: seq<Engine>, b: seq<nat>, k: nat, v: bool) returns (aim: World)
    requires IsRun(rules, run) && |b| == 6 && AreRounds(defs, rules, run, b)
    requires Settling(defs, order, rules, goal, run[b[0]], k) && k < |order| && order[k] in Ids(defs)
    requires !AsksFor(DefinitionOf(defs, order[k]), goal, !v)
    ensures Goal(defs, order, rules, aim, k + 1) && SameSurroundings(goal, aim, Ids(defs)) && ModeOn(aim, order[k]) == v
    ensures Consistent(defs, aim, run[b[2]]) && SettledUpTo(order, aim, run[b[2]], k)
    ensures Reached(run[b[2]], order[k], v, Progress(0, Some(0), None, None))
  {
    aim := Aim(defs, order, rules, goal, run[b[0]], k, v);
    GoalSteers(defs, order, rules, aim, k + 1);
    RoundsClean(defs, order, rules, aim, run, b[0], b[1], b[2], k);
  }

  lemma {:induction false} StaysSettling(defs: seq<Definition>, order: seq<string>, rules: seq<Rule>, goal: World,
                                         run: seq<Engine>, a: nat, b: nat, k: nat)
    requires IsRun(rules, run) && a <= b < |run| && Settling(defs, order, rules, goal, run[a], k)
    ensures Settling(defs, order, rules, goal, run[b], k)
  {
    GoalSteers(defs, order, rules, goal, k);
    RunKeepsSettled(defs, order, rules, goal, run, a, b, k);
  }

  lemma {:induction false} UnaskedSettles(defs: seq<Definition>, order: seq<string>, rules: seq<Rule>, goal: World,
                                          run: seq<Engine>, b: seq<nat>, k: nat) returns (aim: World)
    requires IsRun(rules, run) && |b| == 6 && AreRounds(defs, rules, run, b)
    requires Settling(defs, order, rules, goal, run[b[0]], k) && k < |order| && order[k] in Ids(defs)
    requires forall v :: !AsksFor(DefinitionOf(defs, order[k]), goal, v)
    ensures Settling(defs, order, rules, aim, run[b[5]], k + 1) && SameSurroundings(goal, aim, Ids(defs))
  {
    var s := run[b[2]];
    var on := AimCleans(defs, order, rules, goal, run, b, k, true);
    var off := AimCleans(defs, order, rules, goal, run, b, k, false);
    LeftAlone(defs, on, s, order[k]);
    aim := if s.store[order[k]] then on else off;
    OneMoreSettling(defs, order, rules, aim, s, k);
    RoundsAreInOrder(defs, rules, run, b, 2, 5);
    StaysSettling(defs, order, rules, aim, run, b[2], b[5], k + 1);
  }

  lemma {:induction false} OneMoreSettling(defs: seq<Definition>, order: seq<string>, rules: seq<Rule>, goal: World,
                                           s: Engine, k: nat)
    requires Goal(defs, order, rules, goal, k + 1) && Consistent(defs, goal, s) && SettledUpTo(order, goal, s, k)
    requires Reached(s, order[k], ModeOn(goal, order[k]), SETTLED)
    ensures Settling(defs, order, rules, goal, s, k + 1)
  {
  }

  lemma {:induction false} RoundsAreInOrder(defs: seq<Definition>, rules: seq<Rule>, run: seq<Engine>,
                                            bounds: seq<nat>, i: nat, j: nat)
    requires AreRounds(defs, rules, run, bounds) && i <= j < |bounds|
    ensures bounds[i] <= bounds[j] < |run|
    decreases j - i
  {
    if i < j {
      RoundAt(defs, rules, run, bounds, i);
      RoundsAreInOrder(defs, rules, run, bounds, i + 1, j);
    }
  }

  /** Five rounds settle the next mode, whether its conditions ask for on, for off or for neither. */
  lemma {:induction false} NextSettles(defs: seq<Definition>, order: seq<string>, rules: seq<Rule>, goal: World,
                                       run: seq<Engine>, b: seq<nat>, k: nat) returns (aim: World)
    requires IsRun(rules, run) && |b| == 6 && AreRounds(defs, rules, run, b)
    requires Settling(defs, order, rules, goal, run[b[0]], k) && k < |order|
    ensures Settling(defs, order, rules, aim, run[b[5]], k + 1) && SameSurroundings(goal, aim, Ids(defs))
  {
    assert order[k] in Ids(defs);
    var d := DefinitionOf(defs, order[k]);
    assert Exclusive(d) && !BothHold(d, goal);
    if AsksFor(d, goal, true) {
      aim := AskedSettles(defs, order, rules, goal, run, b, k, true);
    } else if AsksFor(d, goal, false) {
      aim := AskedSettles(defs, order, rules, goal, run, b, k, false);
    } else {
      aim := UnaskedSettles(defs, order, rules, goal, run, b, k);
    }
  }

  lemma {:induction false} NextSettlesAt(defs: seq<Definition>, order: seq<string>, rules: seq<Rule>, goal: World,
                                         run: seq<Engine>, bounds: seq<nat>, j: nat, k: nat) returns (aim: World)
    requires IsRun(rules, run) && AreRounds(defs, rules, run, bounds) && j + 5 < |bounds|
    requires Settling(defs, order, rules, goal, run[bounds[j]], k) && k < |order|
    ensures Settling(defs, order, rules, aim, run[bounds[j + 5]], k + 1) && SameSurroundings(goal, aim, Ids(defs))
  {
    RoundsOf(defs, rules, run, bounds, j, j + 6);
    aim := NextSettles(defs, order, rules, goal, run, bounds[j..j + 6], k);
  }

  lemma RoundsOf(defs: seq<Definition>, rules: seq<Rule>, run: seq<Engine>, bounds: seq<nat>, i: nat, j: nat)
    requires AreRounds(defs, rules, run, bounds) && i <= j <= |bounds|
    ensures AreRounds(defs, rules, run, bounds[i..j])
  {
  }

  lemma {:induction false} RoundsSettle(defs: seq<Definition>, order: seq<string>, rules: seq<Rule>, w: World,
                                        run: seq<Engine>, bounds: seq<nat>, k: nat) returns (goal: World)
    requires IsRun(rules, run) && AreRounds(defs, rules, run, bounds) && |bounds| > 5 * k
    requires Settling(defs, order, rules, w, run[bounds[0]], 0) && k <= |order|
    ensures Settling(defs, order, rules, goal, run[bounds[5 * k]], k) && SameSurroundings(w, goal, Ids(defs))
  {
    if k == 0 {
      goal := w;
      SurroundingsStay(w, Ids(defs));
    } else {
      var j := 5 * (k - 1);
      var before := RoundsSettle(defs, order, rules, w, run, bounds, k - 1);
      goal := NextSettlesAt(defs, order, rules, before, run, bounds, j, k - 1);
      SurroundingsCarry(w, before, goal, Ids(defs));
    }
  }

  /** The whole engine is at rest with the modes of the goal. */
  ghost predicate RestsAt(defs: seq<Definition>, goal: World, s: Engine) {
    && s.store.Keys == Ids(defs)
    && forall m :: m in Ids(defs) ==> s.store[m] == ModeOn(goal, m) == ModeOn(s.cache, m)
  }

  lemma {:induction false} AllSettled(defs: seq<Definition>, order: seq<string>, rules: seq<Rule>, goal: World,
                                      s: Engine)
    requires Settling(defs, order, rules, goal, s, |order|)
    ensures RestsAt(defs, goal, s) && AllRight(defs, s.cache) && AllRight(defs, goal)
  {
    forall m | m in Ids(defs) ensures s.store[m] == ModeOn(goal, m) == ModeOn(s.cache, m) {
      var i :| 0 <= i < |order| && order[i] == m;
      assert Reached(s, order[i], ModeOn(goal, order[i]), SETTLED);
    }
    forall d | d in defs ensures !Wrong(d, s.cache) && !Wrong(d, goal) {
      DefinitionOfIs(defs, d);
      var i :| 0 <= i < |order| && order[i] == d.modeId;
      assert !Wrong(DefinitionOf(defs, order[i]), goal);
      CriterionDependsOnModes(defs, d, s.cache, goal);
    }
  }

  lemma {:induction false} StartsSettling(defs: seq<Definition>, order: seq<string>, rules: seq<Rule>, w: World,
                                          s: Engine)
    requires InOrder(defs, order) && NoModeTimed(defs) && Installed(defs, rules) && Consistent(defs, w, s)
    ensures Settling(defs, order, rules, s.cache, s, 0) && SameSurroundings(w, s.cache, Ids(defs))
  {
    SurroundingsTurn(s.cache, w, Ids(defs));
    SurroundingsStay(s.cache, Ids(defs));
  }

  /**
    However messages, commands and ticks interleave, and whatever was under way at the
    start: after five rounds for each managed mode, store and cache agree on a setting
    that meets every criterion, and they keep it for the rest of the run.
   */
  lemma {:induction false} BusSettles(defs: seq<Definition>, rules: seq<Rule>, w: World, run: seq<Engine>,
                                      bounds: seq<nat>) returns (goal: World)
    requires WellBehaved(defs) && NoModeTimed(defs) && Installed(defs, rules)
    requires IsRun(rules, run) && AreRounds(defs, rules, run, bounds) && |bounds| > 5 * |Ids(defs)|
    requires Consistent(defs, w, run[bounds[0]])
    ensures SameSurroundings(w, goal, Ids(defs)) && Known(defs, goal) && AllRight(defs, goal)
    ensures forall b: nat :: bounds[5 * |Ids(defs)|] <= b < |run| ==>
                               RestsAt(defs, goal, run[b]) && AllRight(defs, run[b].cache)
  {
    var order := DependencyOrder(defs);
    var n, s := |order|, run[bounds[0]];
    StartsSettling(defs, order, rules, w, s);
    goal := RoundsSettle(defs, order, rules, s.cache, run, bounds, n);
    SurroundingsCarry(w, s.cache, goal, Ids(defs));
    var rest := bounds[5 * n];
    forall b: nat | rest <= b < |run| ensures RestsAt(defs, goal, run[b]) && AllRight(defs, run[b].cache) {
      StaysSettling(defs, order, rules, goal, run, rest, b, n);
      AllSettled(defs, order, rules, goal, run[b]);
    }
    AllSettled(defs, order, rules, goal, run[rest]);
  }

  /** With inverse off conditions the setting is known beforehand: it is the one the criteria leave. */
  lemma {:induction false} BusSettlesAtGoal(defs: seq<Definition>, rules: seq<Rule>, goal: World, run: seq<Engine>,
                                            bounds: seq<nat>, b: nat)
    requires WellBehaved(defs) && AllInverse(defs) && NoModeTimed(defs) && Installed(defs, rules)
    requires AllRight(defs, goal) && Known(defs, goal)
    requires IsRun(rules, run) && AreRounds(defs, rules, run, bounds) && |bounds| > 5 * |Ids(defs)|
    requires Consistent(defs, goal, run[bounds[0]])
    requires bounds[5 * |Ids(defs)|] <= b < |run|
    ensures RestsAt(defs, goal, run[b])
  {
    var reached := BusSettles(defs, rules, goal, run, bounds);
    SettledStateIsUnique(defs, goal, reached);
  }
}
