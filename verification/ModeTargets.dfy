/**
  The state criteria-driven modes are meant to reach: no managed mode off while its on
  condition holds, nor on while its off condition does. Definitions that read each other
  in no cycle, as modes or as devices, have such a state, and with inverse off
  conditions exactly one.
 */
module ModeTargets {
  import opened Options
  import opened Conditions
  import opened Graphs
  import opened ManagedModes

  /** Who a mode that a rule sets was changed by. */
  const BY_RULE := Change("homecore", Some("rule"), None, None)

  /** The mode's device reports `on`; when that is new it is stamped with the time, and either way with who did it. */
  function SetMode(w: World, mode: string, on: bool): World {
    var device := if mode in w.devices then w.devices[mode] else Device(map[], map[], None);
    var changedAt :=
      if Lookup(device.attributes, "on") == Some(Bool(on)) then device.changedAt else device.changedAt["on" := w.now];
    w.(devices := w.devices[mode := Device(device.attributes["on" := Bool(on)], changedAt, Some(BY_RULE))])
  }

  lemma SetModeEffect(w: World, mode: string, on: bool)
    ensures ModeOn(SetMode(w, mode, on), mode) == on
    ensures forall id :: id != mode ==> Lookup(SetMode(w, mode, on).devices, id) == Lookup(w.devices, id)
    ensures AttributesOf(SetMode(w, mode, on), mode) == AttributesOf(w, mode)["on" := Bool(on)]
  {
  }

  /** Everything but whether the managed modes are on is the same. */
  ghost predicate SameSurroundings(w: World, w': World, managed: set<string>) {
    && w.now == w'.now
    && w.ambient == w'.ambient
    && w.hub == w'.hub
    && (forall id :: id !in managed ==> Lookup(w.devices, id) == Lookup(w'.devices, id))
    && forall id :: id in managed ==> SameApartFromOn(w, w', id)
  }

  predicate SameApartFromOn(w: World, w': World, id: string) {
    AttributesOf(w, id) - {"on"} == AttributesOf(w', id) - {"on"}
  }

  lemma {:induction false} SetModeKeepsSurroundings(w: World, mode: string, on: bool, managed: set<string>)
    requires mode in managed
    ensures SameSurroundings(w, SetMode(w, mode, on), managed)
  {
    SetModeEffect(w, mode, on);
    forall id | id in managed ensures SameApartFromOn(w, SetMode(w, mode, on), id) {
      assert id != mode ==> Lookup(SetMode(w, mode, on).devices, id) == Lookup(w.devices, id);
    }
  }

  lemma {:induction false} SurroundingsCarry(w: World, w1: World, w2: World, managed: set<string>)
    requires SameSurroundings(w, w1, managed) && SameSurroundings(w1, w2, managed)
    ensures SameSurroundings(w, w2, managed)
  {
    forall id | id in managed ensures SameApartFromOn(w, w2, id) {
      assert SameApartFromOn(w, w1, id) && SameApartFromOn(w1, w2, id);
    }
  }

  lemma {:induction false} SurroundingsStay(w: World, managed: set<string>)
    ensures SameSurroundings(w, w, managed)
  {
    assert forall id :: id in managed ==> SameApartFromOn(w, w, id);
  }

  lemma {:induction false} SurroundingsTurn(w: World, w': World, managed: set<string>)
    requires SameSurroundings(w, w', managed)
    ensures SameSurroundings(w', w, managed)
  {
    forall id | id in managed ensures SameApartFromOn(w', w, id) {
      assert SameApartFromOn(w, w', id);
    }
  }

  // ---------- What is read ----------

  /** Everything a definition reads by name, as a mode or as a device. */
  function ReadsOf(d: Definition): set<string> {
    CriteriaRefs(d).modes + CriteriaRefs(d).devices
  }

  function TimedReadsOf(d: Definition): set<string> {
    TimedReads(d.onCondition) + (if d.offCondition.Some? then TimedReads(d.offCondition.value) else {})
  }

  ghost function DefinitionOf(defs: seq<Definition>, mode: string): (d: Definition)
    requires mode in Ids(defs)
    ensures d in defs && d.modeId == mode
  {
    var d :| d in defs && d.modeId == mode;
    d
  }

  lemma DefinitionOfIs(defs: seq<Definition>, d: Definition)
    requires DistinctIds(defs) && d in defs
    ensures d.modeId in Ids(defs) && DefinitionOf(defs, d.modeId) == d
  {
  }

  /** Each managed mode and the managed modes it reads, by a mode leaf or by a device leaf. */
  ghost function ReadGraph(defs: seq<Definition>): (g: Graph)
    ensures Closed(g)
  {
    map m | m in Ids(defs) :: ReadsOf(DefinitionOf(defs, m)) * Ids(defs)
  }

  lemma {:induction false} ReadGraphAt(defs: seq<Definition>, d: Definition)
    requires DistinctIds(defs) && d in defs
    ensures d.modeId in ReadGraph(defs) && ReadGraph(defs)[d.modeId] == ReadsOf(d) * Ids(defs)
  {
    DefinitionOfIs(defs, d);
  }

  predicate AllInverse(defs: seq<Definition>) {
    forall d :: d in defs ==> d.offBehavior == Inverse
  }

  /** The on and the off condition never hold together; an inverse off condition sees to that. */
  ghost predicate Exclusive(d: Definition) {
    EffectiveOff(d).Ok? && forall w :: !BothHold(d, w)
  }

  predicate BothHold(d: Definition, w: World) {
    EffectiveOff(d).Ok? && Holds(d.onCondition, w) && Holds(EffectiveOff(d).value, w)
  }

  /** No criterion asks when, or by whom, a managed mode was last changed. */
  predicate NoModeTimed(defs: seq<Definition>) {
    forall d :: d in defs ==> TimedReadsOf(d) !! Ids(defs)
  }

  /** When and by whom a device was last changed, if there is such a device. */
  function HistoryOf(w: World, id: string): Option<(map<string, int>, Option<Change>)> {
    if id in w.devices then Some((w.devices[id].changedAt, w.devices[id].lastChange)) else None
  }

  /** Managed modes whose history a criterion asks for have the same one in both worlds. */
  ghost predicate SameHistories(defs: seq<Definition>, w: World, w': World) {
    forall d, id :: d in defs && id in TimedReadsOf(d) && id in Ids(defs) ==> HistoryOf(w, id) == HistoryOf(w', id)
  }

  /** The definitions the settling results are about: accepted, exclusive, and read in no cycle. */
  ghost predicate WellBehaved(defs: seq<Definition>) {
    && Sound(defs)
    && (forall d :: d in defs ==> Exclusive(d))
    && Acyclic(ReadGraph(defs))
  }

  /** Off while its on condition holds, or on while its off condition does. */
  predicate Wrong(d: Definition, w: World) {
    if ModeOn(w, d.modeId) then EffectiveOff(d).Ok? && Holds(EffectiveOff(d).value, w) else Holds(d.onCondition, w)
  }

  predicate AllRight(defs: seq<Definition>, w: World) {
    forall d :: d in defs ==> !Wrong(d, w)
  }

  /** With an inverse off condition a mode is right exactly when it equals its criterion. */
  lemma InverseRight(d: Definition, w: World)
    requires d.offBehavior == Inverse
    ensures Wrong(d, w) <==> ModeOn(w, d.modeId) != Holds(d.onCondition, w)
  {
  }

  /** A mode that criteria read as a device has a boolean `on`, as the mode manager gives every mode it starts with. */
  ghost predicate Known(defs: seq<Definition>, w: World) {
    forall d :: d in defs ==> SwitchesKnown(d, Ids(defs), w)
  }

  predicate SwitchesKnown(d: Definition, managed: set<string>, w: World) {
    forall m :: m in CriteriaRefs(d).devices && m in managed ==> HasSwitch(w, m)
  }

  predicate HasSwitch(w: World, m: string) {
    "on" in AttributesOf(w, m) && AttributesOf(w, m)["on"].Bool?
  }

  lemma {:induction false} SetModeKeepsKnown(defs: seq<Definition>, w: World, mode: string, on: bool)
    requires Known(defs, w)
    ensures Known(defs, SetMode(w, mode, on))
  {
    SetModeEffect(w, mode, on);
    forall d | d in defs ensures SwitchesKnown(d, Ids(defs), SetMode(w, mode, on)) {
      assert SwitchesKnown(d, Ids(defs), w);
      forall m | m in CriteriaRefs(d).devices && m in Ids(defs) ensures HasSwitch(SetMode(w, mode, on), m) {
        assert HasSwitch(w, m);
        assert m != mode ==> Lookup(SetMode(w, mode, on).devices, m) == Lookup(w.devices, m);
      }
    }
  }

  lemma {:induction false} SwitchDecides(w: World, w': World, m: string)
    requires HasSwitch(w, m) && HasSwitch(w', m) && ModeOn(w, m) == ModeOn(w', m)
    requires SameApartFromOn(w, w', m)
    ensures AttributesOf(w, m) == AttributesOf(w', m)
  {
    var a, a' := AttributesOf(w, m), AttributesOf(w', m);
    forall k ensures (k in a <==> k in a') && (k in a ==> a[k] == a'[k]) {
      assert k != "on" ==> (k in a <==> k in a - {"on"}) && (k in a' <==> k in a' - {"on"});
      assert k != "on" && k in a ==> (a - {"on"})[k] == (a' - {"on"})[k];
    }
  }

  lemma {:induction false} TimedReadIsRead(d: Definition, id: string)
    requires id in TimedReadsOf(d)
    ensures id in CriteriaRefs(d).devices
  {
    TimedIsCollected(d.onCondition);
    if d.offCondition.Some? {
      TimedIsCollected(d.offCondition.value);
    }
  }

  /** Worlds that agree on the surroundings and on the modes a definition reads agree on both its conditions. */
  lemma {:induction false} CriterionDependsOnModes(defs: seq<Definition>, d: Definition, w: World, w': World)
    requires d in defs && Known(defs, w) && Known(defs, w')
    requires SameSurroundings(w, w', Ids(defs)) && SameHistories(defs, w, w')
    requires forall m :: m in ReadsOf(d) && m in Ids(defs) ==> ModeOn(w, m) == ModeOn(w', m)
    ensures Holds(d.onCondition, w) == Holds(d.onCondition, w')
    ensures EffectiveOff(d).Ok? ==> Holds(EffectiveOff(d).value, w) == Holds(EffectiveOff(d).value, w')
  {
    var refs := CriteriaRefs(d);
    assert SwitchesKnown(d, Ids(defs), w) && SwitchesKnown(d, Ids(defs), w');
    forall id | id in refs.devices ensures AttributesOf(w, id) == AttributesOf(w', id) {
      if id in Ids(defs) {
        assert HasSwitch(w, id) && HasSwitch(w', id) && SameApartFromOn(w, w', id);
        SwitchDecides(w, w', id);
      } else {
        assert Lookup(w.devices, id) == Lookup(w'.devices, id);
      }
    }
    forall id | id in TimedReadsOf(d) ensures Lookup(w.devices, id) == Lookup(w'.devices, id) {
      TimedReadIsRead(d, id);
      assert id in Ids(defs) ==> HistoryOf(w, id) == HistoryOf(w', id);
      assert AttributesOf(w, id) == AttributesOf(w', id);
    }
    assert ReadAlike(w, w', refs, TimedReadsOf(d));
    HoldsDependsOnReadings(d.onCondition, w, w');
    if d.offCondition.Some? {
      HoldsDependsOnReadings(d.offCondition.value, w, w');
    }
  }

  /** Changing a mode changes neither condition of a definition that does not read it. */
  lemma {:induction false} IgnoresUnread(d: Definition, w: World, mode: string, on: bool)
    requires mode !in ReadsOf(d)
    ensures Holds(d.onCondition, SetMode(w, mode, on)) == Holds(d.onCondition, w)
    ensures EffectiveOff(d).Ok? ==>
              Holds(EffectiveOff(d).value, SetMode(w, mode, on)) == Holds(EffectiveOff(d).value, w)
  {
    var w' := SetMode(w, mode, on);
    SetModeEffect(w, mode, on);
    assert AgreeOn(w', w, CriteriaRefs(d)) by {
      forall m | m in CriteriaRefs(d).modes ensures ModeOn(w', m) == ModeOn(w, m) {
        assert Lookup(w'.devices, m) == Lookup(w.devices, m);
      }
    }
    HoldsDependsOnRefs(d.onCondition, w', w);
    if d.offCondition.Some? {
      HoldsDependsOnRefs(d.offCondition.value, w', w);
    }
  }

  // ---------- At most one settled state ----------

  /** In dependency order a mode reads only modes before it. */
  lemma {:induction false} ReadsEarlier(defs: seq<Definition>, order: seq<string>, k: nat, m: string) returns (i: nat)
    requires TopologicalOrder(ReadGraph(defs), order) && k < |order| && order[k] in Ids(defs)
    requires m in ReadsOf(DefinitionOf(defs, order[k])) && m in Ids(defs)
    ensures i < k && order[i] == m
  {
    assert m in ReadGraph(defs)[order[k]];
    assert m in order[..k];
    i :| 0 <= i < k && order[..k][i] == m;
  }

  lemma {:induction false} SettledPrefixAgrees(defs: seq<Definition>, order: seq<string>, w: World, w': World, n: nat)
    requires AllInverse(defs) && TopologicalOrder(ReadGraph(defs), order) && n <= |order|
    requires SameSurroundings(w, w', Ids(defs)) && SameHistories(defs, w, w') && Known(defs, w) && Known(defs, w')
    requires AllRight(defs, w) && AllRight(defs, w')
    ensures forall i :: 0 <= i < n ==> ModeOn(w, order[i]) == ModeOn(w', order[i])
  {
    if n > 0 {
      SettledPrefixAgrees(defs, order, w, w', n - 1);
      NextModeAgrees(defs, order, w, w', n - 1);
    }
  }

  lemma {:induction false} NextModeAgrees(defs: seq<Definition>, order: seq<string>, w: World, w': World, n: nat)
    requires AllInverse(defs) && TopologicalOrder(ReadGraph(defs), order) && n < |order|
    requires SameSurroundings(w, w', Ids(defs)) && SameHistories(defs, w, w') && Known(defs, w) && Known(defs, w')
    requires AllRight(defs, w) && AllRight(defs, w')
    requires forall i :: 0 <= i < n ==> ModeOn(w, order[i]) == ModeOn(w', order[i])
    ensures ModeOn(w, order[n]) == ModeOn(w', order[n])
  {
    assert order[n] in ReadGraph(defs);
    var d := DefinitionOf(defs, order[n]);
    forall m | m in ReadsOf(d) && m in Ids(defs) ensures ModeOn(w, m) == ModeOn(w', m) {
      var i := ReadsEarlier(defs, order, n, m);
    }
    CriterionDependsOnModes(defs, d, w, w');
    InverseRight(d, w);
    InverseRight(d, w');
  }

  /** There is at most one settled state: surroundings that agree leave inverse-off modes no choice. */
  lemma {:induction false} SettledStateIsUnique(defs: seq<Definition>, w: World, w': World)
    requires WellBehaved(defs) && AllInverse(defs) && Known(defs, w) && Known(defs, w')
    requires SameSurroundings(w, w', Ids(defs)) && SameHistories(defs, w, w')
    requires AllRight(defs, w) && AllRight(defs, w')
    ensures forall m :: ModeOn(w, m) == ModeOn(w', m)
  {
    AcyclicHasOrder(ReadGraph(defs));
    var order :| TopologicalOrder(ReadGraph(defs), order);
    SettledPrefixAgrees(defs, order, w, w', |order|);
    forall m ensures ModeOn(w, m) == ModeOn(w', m) {
      if m in Ids(defs) {
        assert m in ReadGraph(defs) && m in order;
      } else {
        assert Lookup(w.devices, m) == Lookup(w'.devices, m);
      }
    }
  }

  // ---------- Building the settled state ----------

  /** What the mode should be: as it is unless that is wrong. */
  predicate Corrected(d: Definition, w: World) {
    if Wrong(d, w) then !ModeOn(w, d.modeId) else ModeOn(w, d.modeId)
  }

  /** Correcting a mode that does not read itself makes it right, if its conditions are exclusive. */
  lemma {:induction false} CorrectingWorks(d: Definition, w: World, on: bool)
    requires Exclusive(d) && d.modeId !in ReadsOf(d) && on == Corrected(d, w)
    ensures !Wrong(d, SetMode(w, d.modeId, on))
  {
    SetModeEffect(w, d.modeId, on);
    IgnoresUnread(d, w, d.modeId, on);
    assert !BothHold(d, w);
  }

  /** Setting a mode leaves right what was right of a definition that does not read it and is not about it. */
  lemma {:induction false} OthersStay(d: Definition, w: World, mode: string, on: bool)
    requires mode !in ReadsOf(d) && mode != d.modeId
    ensures Wrong(d, SetMode(w, mode, on)) == Wrong(d, w)
  {
    SetModeEffect(w, mode, on);
    IgnoresUnread(d, w, mode, on);
    assert Lookup(SetMode(w, mode, on).devices, d.modeId) == Lookup(w.devices, d.modeId);
  }

  /** In dependency order, no definition reads its own mode or a later one. */
  lemma {:induction false} OrderedReads(defs: seq<Definition>, order: seq<string>, i: nat, j: nat)
    requires TopologicalOrder(ReadGraph(defs), order) && i <= j < |order|
    ensures order[i] in Ids(defs) && order[j] in Ids(defs)
    ensures order[j] !in ReadsOf(DefinitionOf(defs, order[i]))
  {
    assert order[i] in ReadGraph(defs) && order[j] in ReadGraph(defs);
    assert order[j] !in order[..i];
    assert order[j] !in ReadGraph(defs)[order[i]];
  }

  /** The first n modes, in this order, are right. */
  ghost predicate RightUpTo(defs: seq<Definition>, order: seq<string>, w: World, n: nat)
    requires n <= |order| && forall m :: m in order ==> m in Ids(defs)
  {
    forall i :: 0 <= i < n ==> !Wrong(DefinitionOf(defs, order[i]), w)
  }

  /** Setting a mode to what it should be leaves the modes before it right and makes it right. */
  lemma {:induction false} SettleOneMore(defs: seq<Definition>, order: seq<string>, w: World, n: nat)
    requires WellBehaved(defs) && TopologicalOrder(ReadGraph(defs), order) && n < |order|
    requires forall m :: m in order <==> m in Ids(defs)
    requires RightUpTo(defs, order, w, n)
    ensures RightUpTo(defs, order, SetMode(w, order[n], Corrected(DefinitionOf(defs, order[n]), w)), n + 1)
  {
    var on := Corrected(DefinitionOf(defs, order[n]), w);
    forall i | 0 <= i <= n ensures !Wrong(DefinitionOf(defs, order[i]), SetMode(w, order[n], on)) {
      OrderedReads(defs, order, i, n);
      if i == n {
        CorrectingWorks(DefinitionOf(defs, order[n]), w, on);
      } else {
        OthersStay(DefinitionOf(defs, order[i]), w, order[n], on);
      }
    }
  }

  /** Setting the modes one by one, in dependency order, each to what it should then be. */
  lemma {:induction false} SettleFirst(defs: seq<Definition>, order: seq<string>, w: World, n: nat) returns (w': World)
    requires WellBehaved(defs) && TopologicalOrder(ReadGraph(defs), order) && n <= |order|
    requires forall m :: m in order <==> m in Ids(defs)
    ensures SameSurroundings(w, w', Ids(defs)) && RightUpTo(defs, order, w', n)
  {
    if n == 0 {
      w' := w;
      SurroundingsStay(w, Ids(defs));
    } else {
      var before := SettleFirst(defs, order, w, n - 1);
      w' := SetMode(before, order[n - 1], Corrected(DefinitionOf(defs, order[n - 1]), before));
      SettleStep(defs, order, w, before, n - 1);
    }
  }

  lemma {:induction false} SettleStep(defs: seq<Definition>, order: seq<string>, w: World, before: World, n: nat)
    requires WellBehaved(defs) && TopologicalOrder(ReadGraph(defs), order) && n < |order|
    requires forall m :: m in order <==> m in Ids(defs)
    requires SameSurroundings(w, before, Ids(defs))
    requires RightUpTo(defs, order, before, n)
    ensures var after := SetMode(before, order[n], Corrected(DefinitionOf(defs, order[n]), before));
            && SameSurroundings(w, after, Ids(defs))
            && RightUpTo(defs, order, after, n + 1)
  {
    var on := Corrected(DefinitionOf(defs, order[n]), before);
    SettleOneMore(defs, order, before, n);
    SetModeKeepsSurroundings(before, order[n], on, Ids(defs));
    SurroundingsCarry(w, before, SetMode(before, order[n], on), Ids(defs));
  }

  ghost predicate CanSettle(defs: seq<Definition>, w: World) {
    exists w' :: SameSurroundings(w, w', Ids(defs)) && AllRight(defs, w')
  }

  /** And there is one: in any surroundings the modes can be set so that none is wrong. */
  lemma {:induction false} SettledStateExists(defs: seq<Definition>, w: World)
    requires WellBehaved(defs)
    ensures CanSettle(defs, w)
  {
    AcyclicHasOrder(ReadGraph(defs));
    var order :| TopologicalOrder(ReadGraph(defs), order);
    assert forall m :: m in order <==> m in Ids(defs);
    var w' := SettleFirst(defs, order, w, |order|);
    forall d | d in defs ensures !Wrong(d, w') {
      DefinitionOfIs(defs, d);
      var i :| 0 <= i < |order| && order[i] == d.modeId;
    }
  }

  // ---------- Conditions that hold together ----------

  /** A definition that does not read its own mode sees no difference between worlds that differ in it alone. */
  lemma {:induction false} SurroundingsDecide(d: Definition, w: World, w': World)
    requires d.modeId !in ReadsOf(d) && SameSurroundings(w, w', {d.modeId})
    ensures Holds(d.onCondition, w) == Holds(d.onCondition, w')
    ensures EffectiveOff(d).Ok? ==> Holds(EffectiveOff(d).value, w) == Holds(EffectiveOff(d).value, w')
  {
    forall m | m in CriteriaRefs(d).modes ensures ModeOn(w, m) == ModeOn(w', m) {
      assert Lookup(w.devices, m) == Lookup(w'.devices, m);
    }
    HoldsDependsOnRefs(d.onCondition, w, w');
    if d.offCondition.Some? {
      HoldsDependsOnRefs(d.offCondition.value, w, w');
    }
  }

  /** A mode can be set right exactly when its on and its off condition do not both hold. */
  lemma {:induction false} CanBeRightIff(d: Definition, w: World)
    requires EffectiveOff(d).Ok? && d.modeId !in ReadsOf(d)
    ensures (exists on: bool :: !Wrong(d, SetMode(w, d.modeId, on))) <==> !BothHold(d, w)
  {
    forall on: bool
      ensures Wrong(d, SetMode(w, d.modeId, on)) <==>
              if on then Holds(EffectiveOff(d).value, w) else Holds(d.onCondition, w) {
      SetModeEffect(w, d.modeId, on);
      IgnoresUnread(d, w, d.modeId, on);
    }
    assert !Wrong(d, SetMode(w, d.modeId, true)) || !Wrong(d, SetMode(w, d.modeId, false)) <==> !BothHold(d, w);
  }

  /** So a definition that does not read itself can always be settled exactly when its conditions are exclusive. */
  lemma {:induction false} SettlesAloneIff(d: Definition)
    requires EffectiveOff(d).Ok? && d.modeId !in ReadsOf(d)
    ensures (forall w :: CanSettle([d], w)) <==> Exclusive(d)
  {
    assert Ids([d]) == {d.modeId} by { assert d in [d]; }
    forall w ensures CanSettle([d], w) <==> !BothHold(d, w) {
      CanBeRightIff(d, w);
      if w' :| SameSurroundings(w, w', {d.modeId}) && AllRight([d], w') {
        assert d in [d] && !Wrong(d, w');
        SurroundingsDecide(d, w, w');
      }
      if on: bool :| !Wrong(d, SetMode(w, d.modeId, on)) {
        SetModeKeepsSurroundings(w, d.modeId, on, {d.modeId});
        assert AllRight([d], SetMode(w, d.modeId, on));
      }
    }
  }

  /** The same condition for on and for off. */
  const TWICE := Definition("a", Ambient("x"), Explicit, Some(Ambient("x")), 1)

  /** Such a definition is accepted, and wherever its condition holds the mode is wrong however it is set. */
  lemma {:induction false} BothHoldIsAccepted(w: World, on: bool)
    requires "x" in w.ambient
    ensures Acceptable(ModeConfig("a", Manual), {"a"}, [], TWICE)
    ensures BothHold(TWICE, w) && Wrong(TWICE, SetMode(w, "a", on)) && !Exclusive(TWICE)
  {
    assert CriteriaRefs(TWICE) == NO_REFS;
    assert Replaced([], TWICE) == [TWICE];
    assert Ids([TWICE]) == {"a"} by { assert TWICE in [TWICE]; }
    DependenciesShape([TWICE]);
    assert TWICE in [TWICE];
    RankedIsAcyclic(Dependencies([TWICE]), map["a" := 0]);
    CanBeRightIff(TWICE, w);
  }

  // ---------- What the cycle check misses ----------

  /** One mode reads the other as a mode; the other reads it back, negated, as a device. */
  function Loophole(): seq<Definition> {
    [Definition("a", ModeIs("b", true), Inverse, None, 1),
     Definition("b", Not(DeviceState("a", "on", Eq, Bool(true))), Inverse, None, 1)]
  }

  lemma {:induction false} LoopholeReads()
    ensures CriteriaRefs(Loophole()[0]) == Refs({}, {"b"}, {}) && CriteriaRefs(Loophole()[1]) == Refs({"a"}, {}, {})
    ensures Ids(Loophole()) == {"a", "b"} && Loophole()[0] in Loophole() && Loophole()[1] in Loophole()
    ensures Replaced(Loophole()[..1], Loophole()[1]) == Loophole()
  {
    var defs := Loophole();
    assert defs[..1][0].modeId == "a" && defs[..1][1..] == [];
  }

  lemma {:induction false} LoopholeIsSound()
    ensures Sound(Loophole())
  {
    LoopholeReads();
    DependenciesShape(Loophole());
    RankedIsAcyclic(Dependencies(Loophole()), map["a" := 1, "b" := 0]);
  }

  /**
    The pair is accepted, yet no setting of the two modes meets both criteria: a device
    leaf that names a mode is invisible to the cycle check.
   */
  lemma {:induction false} DeviceLeafEscapesCycleCheck(w: World)
    ensures Sound(Loophole()) && AllInverse(Loophole())
    ensures Acceptable(ModeConfig("b", Manual), {"a", "b"}, Loophole()[..1], Loophole()[1])
    ensures !AllRight(Loophole(), w)
  {
    LoopholeReads();
    LoopholeIsSound();
    var a, b := Loophole()[0], Loophole()[1];
    assert Wrong(a, w) || Wrong(b, w);
  }
}
