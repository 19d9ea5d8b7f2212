/**
  Rule conditions, what they read, and how they are judged.

  A condition tree has leaves that read a device, a mode (itself a device, by its
  `on` attribute), a hub variable, or something ambient: the clock, a script, a
  calendar, an alert, a private boolean.
 */
module Conditions {
  import opened Options

  datatype Value = Null | Bool(b: bool) | Number(n: real) | Text(s: string)

  datatype CompareOp = Eq | Ne | Gt | Gte | Lt | Lte

  datatype Change = Change(kind: string, source: Option<string>, actorId: Option<string>, actorName: Option<string>)

  datatype Device = Device(attributes: map<string, Value>, changedAt: map<string, int>, lastChange: Option<Change>)

  datatype Condition =
    | DeviceState(deviceId: string, attribute: string, op: CompareOp, value: Value)
    | TimeElapsed(deviceId: string, attribute: string, durationSecs: nat)
    | DeviceLastChange(deviceId: string, kind: Option<string>, source: Option<string>,
                       actorId: Option<string>, actorName: Option<string>)
    | ModeIs(modeId: string, on: bool)
    | HubVariable(name: string, op: CompareOp, value: Value)
    | Not(condition: Condition)
    | And(conditions: seq<Condition>)
    | Or(conditions: seq<Condition>)
    | Xor(conditions: seq<Condition>)
      // time windows, scripts, private booleans, calendars and alerts
    | Ambient(tag: string)

  /** What the engine judges conditions against. */
  datatype World = World(devices: map<string, Device>, hub: map<string, Value>, now: int, ambient: set<string>)

  // ---------- Judging ----------

  /** Ordering operators hold of numbers only; equality of any two values. */
  predicate Compare(actual: Value, op: CompareOp, expected: Value) {
    match op
    case Eq => actual == expected
    case Ne => actual != expected
    case Gt => actual.Number? && expected.Number? && actual.n > expected.n
    case Gte => actual.Number? && expected.Number? && actual.n >= expected.n
    case Lt => actual.Number? && expected.Number? && actual.n < expected.n
    case Lte => actual.Number? && expected.Number? && actual.n <= expected.n
  }

  function Lookup<K, V>(m: map<K, V>, k: K): Option<V> {
    if k in m then Some(m[k]) else None
  }

  /** A device that is missing, or has no boolean `on`, counts as off. */
  predicate IsOn(device: Option<Device>) {
    device.Some? && "on" in device.value.attributes && device.value.attributes["on"] == Bool(true)
  }

  predicate ModeOn(w: World, mode: string) {
    IsOn(Lookup(w.devices, mode))
  }

  predicate Matches(filter: Option<string>, actual: Option<string>) {
    filter.None? || filter == actual
  }

  predicate Holds(c: Condition, w: World)
    decreases c
  {
    match c
    case DeviceState(id, attribute, op, value) =>
      && id in w.devices
      && attribute in w.devices[id].attributes
      && Compare(w.devices[id].attributes[attribute], op, value)
    case TimeElapsed(id, attribute, secs) =>
      && id in w.devices
      && attribute in w.devices[id].changedAt
      && (if w.now >= w.devices[id].changedAt[attribute] then w.now - w.devices[id].changedAt[attribute] else 0) >= secs
    case DeviceLastChange(id, kind, source, actorId, actorName) =>
      && id in w.devices
      && w.devices[id].lastChange.Some?
      && var change := w.devices[id].lastChange.value;
      && Matches(kind, Some(change.kind))
      && Matches(source, change.source)
      && Matches(actorId, change.actorId)
      && Matches(actorName, change.actorName)
    case ModeIs(mode, on) => ModeOn(w, mode) == on
    case HubVariable(name, op, value) => name in w.hub && Compare(w.hub[name], op, value)
    case Not(inner) => !Holds(inner, w)
    case And(cs) => forall c | c in cs :: Holds(c, w)
    case Or(cs) => exists c | c in cs :: Holds(c, w)
    case Xor(cs) => CountHolding(cs, w) == 1
    case Ambient(tag) => tag in w.ambient
  }

  function CountHolding(cs: seq<Condition>, w: World): nat
    decreases cs
  {
    if cs == [] then 0
    else (if Holds(cs[0], w) then 1 else 0) + CountHolding(cs[1..], w)
  }

  // ---------- What a condition reads ----------

  datatype Refs = Refs(devices: set<string>, modes: set<string>, hub: set<string>) {
    function Union(other: Refs): Refs {
      Refs(devices + other.devices, modes + other.modes, hub + other.hub)
    }
  }

  const NO_REFS := Refs({}, {}, {})

  function RefsOf(c: Condition): Refs
    decreases c
  {
    match c
    case DeviceState(id, _, _, _) => Refs({id}, {}, {})
    case TimeElapsed(id, _, _) => Refs({id}, {}, {})
    case DeviceLastChange(id, _, _, _, _) => Refs({id}, {}, {})
    case ModeIs(mode, _) => Refs({}, {mode}, {})
    case HubVariable(name, _, _) => Refs({}, {}, {name})
    case Not(inner) => RefsOf(inner)
    case And(cs) => RefsOfAll(cs)
    case Or(cs) => RefsOfAll(cs)
    case Xor(cs) => RefsOfAll(cs)
    case Ambient(_) => NO_REFS
  }

  function RefsOfAll(cs: seq<Condition>): Refs
    decreases cs
  {
    if cs == [] then NO_REFS else RefsOf(cs[0]).Union(RefsOfAll(cs[1..]))
  }

  lemma {:induction false} RefsOfAllSnoc(cs: seq<Condition>, c: Condition)
    ensures RefsOfAll(cs + [c]) == RefsOfAll(cs).Union(RefsOf(c))
  {
    if cs == [] {
      assert cs + [c] == [c];
      assert [c][1..] == [];
    } else {
      assert (cs + [c])[1..] == cs[1..] + [c];
      RefsOfAllSnoc(cs[1..], c);
    }
  }

  lemma UnionAssociates(a: Refs, b: Refs, c: Refs)
    ensures a.Union(b).Union(c) == a.Union(b.Union(c))
  {
  }

  /** The reference sets a tree walk fills in. */
  class ConditionRefs {
    var deviceRefs: set<string>
    var modeRefs: set<string>
    var hubVariables: set<string>

    function View(): Refs
      reads this
    {
      Refs(deviceRefs, modeRefs, hubVariables)
    }

    constructor ()
      ensures View() == NO_REFS
    {
      deviceRefs, modeRefs, hubVariables := {}, {}, {};
    }

    /** The in-place walk adds exactly what the tree reads, and forgets nothing. */
    method Collect(c: Condition)
      modifies this
      ensures View() == old(View()).Union(RefsOf(c))
      decreases c
    {
      match c
      case DeviceState(id, _, _, _) => deviceRefs := deviceRefs + {id};
      case TimeElapsed(id, _, _) => deviceRefs := deviceRefs + {id};
      case DeviceLastChange(id, _, _, _, _) => deviceRefs := deviceRefs + {id};
      case ModeIs(mode, _) => modeRefs := modeRefs + {mode};
      case HubVariable(name, _, _) => hubVariables := hubVariables + {name};
      case Not(inner) => Collect(inner);
      case And(cs) => CollectAll(cs);
      case Or(cs) => CollectAll(cs);
      case Xor(cs) => CollectAll(cs);
      case Ambient(_) =>
    }

    method CollectAll(cs: seq<Condition>)
      modifies this
      ensures View() == old(View()).Union(RefsOfAll(cs))
      decreases cs
    {
      for i := 0 to |cs|
        invariant View() == old(View()).Union(RefsOfAll(cs[..i]))
      {
        Collect(cs[i]);
        RefsOfAllSnoc(cs[..i], cs[i]);
        assert cs[..i] + [cs[i]] == cs[..i + 1];
        UnionAssociates(old(View()), RefsOfAll(cs[..i]), RefsOf(cs[i]));
      }
      assert cs[..|cs|] == cs;
    }
  }

  // ---------- A condition depends on nothing else ----------

  /** What a device says of itself; one that is missing says nothing. */
  function AttributesOf(w: World, id: string): map<string, Value> {
    if id in w.devices then w.devices[id].attributes else map[]
  }

  /** Devices a condition asks when, or by whom, they were last changed. */
  function TimedReads(c: Condition): set<string>
    decreases c
  {
    match c
    case TimeElapsed(id, _, _) => {id}
    case DeviceLastChange(id, _, _, _, _) => {id}
    case Not(inner) => TimedReads(inner)
    case And(cs) => TimedReadsOfAll(cs)
    case Or(cs) => TimedReadsOfAll(cs)
    case Xor(cs) => TimedReadsOfAll(cs)
    case _ => {}
  }

  function TimedReadsOfAll(cs: seq<Condition>): set<string>
    decreases cs
  {
    if cs == [] then {} else TimedReads(cs[0]) + TimedReadsOfAll(cs[1..])
  }

  /**
    The two worlds read the same: attributes of the devices, histories of those asked for
    theirs, modes, hub variables.
   */
  predicate ReadAlike(w: World, w': World, refs: Refs, timed: set<string>) {
    && w.now == w'.now
    && w.ambient == w'.ambient
    && (forall id :: id in refs.devices ==> AttributesOf(w, id) == AttributesOf(w', id))
    && (forall id :: id in timed ==> Lookup(w.devices, id) == Lookup(w'.devices, id))
    && (forall mode :: mode in refs.modes ==> ModeOn(w, mode) == ModeOn(w', mode))
    && (forall name :: name in refs.hub ==> Lookup(w.hub, name) == Lookup(w'.hub, name))
  }

  lemma {:induction false} HoldsDependsOnReadings(c: Condition, w: World, w': World)
    requires ReadAlike(w, w', RefsOf(c), TimedReads(c))
    ensures Holds(c, w) == Holds(c, w')
    decreases c
  {
    match c
    case DeviceState(id, attribute, _, _) =>
      assert AttributesOf(w, id) == AttributesOf(w', id);
      assert (id in w.devices && attribute in w.devices[id].attributes) <==> attribute in AttributesOf(w, id);
      assert (id in w'.devices && attribute in w'.devices[id].attributes) <==> attribute in AttributesOf(w', id);
    case TimeElapsed(id, _, _) => assert Lookup(w.devices, id) == Lookup(w'.devices, id);
    case DeviceLastChange(id, _, _, _, _) => assert Lookup(w.devices, id) == Lookup(w'.devices, id);
    case ModeIs(mode, _) =>
    case HubVariable(name, _, _) => assert Lookup(w.hub, name) == Lookup(w'.hub, name);
    case Not(inner) => HoldsDependsOnReadings(inner, w, w');
    case And(cs) => CountDependsOnReadings(cs, w, w');
    case Or(cs) => CountDependsOnReadings(cs, w, w');
    case Xor(cs) => CountDependsOnReadings(cs, w, w');
    case Ambient(_) =>
  }

  lemma {:induction false} CountDependsOnReadings(cs: seq<Condition>, w: World, w': World)
    requires ReadAlike(w, w', RefsOfAll(cs), TimedReadsOfAll(cs))
    ensures CountHolding(cs, w) == CountHolding(cs, w')
    ensures forall c :: c in cs ==> Holds(c, w) == Holds(c, w')
    decreases cs
  {
    if cs != [] {
      HoldsDependsOnReadings(cs[0], w, w');
      CountDependsOnReadings(cs[1..], w, w');
    }
  }

  /** The two worlds look the same to anything that reads only `refs` (and what is ambient). */
  predicate AgreeOn(w: World, w': World, refs: Refs) {
    && w.now == w'.now
    && w.ambient == w'.ambient
    && (forall id :: id in refs.devices ==> Lookup(w.devices, id) == Lookup(w'.devices, id))
    && (forall mode :: mode in refs.modes ==> ModeOn(w, mode) == ModeOn(w', mode))
    && (forall name :: name in refs.hub ==> Lookup(w.hub, name) == Lookup(w'.hub, name))
  }

  lemma {:induction false} TimedIsCollected(c: Condition)
    ensures TimedReads(c) <= RefsOf(c).devices
    decreases c
  {
    match c
    case Not(inner) => TimedIsCollected(inner);
    case And(cs) => AllTimedIsCollected(cs);
    case Or(cs) => AllTimedIsCollected(cs);
    case Xor(cs) => AllTimedIsCollected(cs);
    case _ =>
  }

  lemma {:induction false} AllTimedIsCollected(cs: seq<Condition>)
    ensures TimedReadsOfAll(cs) <= RefsOfAll(cs).devices
    decreases cs
  {
    if cs != [] {
      TimedIsCollected(cs[0]);
      AllTimedIsCollected(cs[1..]);
    }
  }

  lemma {:induction false} HoldsDependsOnRefs(c: Condition, w: World, w': World)
    requires AgreeOn(w, w', RefsOf(c))
    ensures Holds(c, w) == Holds(c, w')
  {
    TimedIsCollected(c);
    forall id | id in RefsOf(c).devices ensures AttributesOf(w, id) == AttributesOf(w', id) {
      assert Lookup(w.devices, id) == Lookup(w'.devices, id);
    }
    HoldsDependsOnReadings(c, w, w');
  }
}
