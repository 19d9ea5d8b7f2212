/**
  The exact reach of the settling results: it is the graph of everything read, mode leaves
  and device leaves alike, that has to be free of cycles. The check made on saving looks
  at mode leaves only.
 */
module ModeReadGraph {
  import opened Options
  import opened Conditions
  import opened Graphs
  import opened ManagedModes
  import opened ModeTargets

  /** The same modes, reading the same names by the same kinds of leaf; what they make of them may differ. */
  ghost predicate SameReferences(defs: seq<Definition>, defs': seq<Definition>) {
    && |defs'| == |defs|
    && forall i :: 0 <= i < |defs| ==> SameReads(defs[i], defs'[i])
  }

  predicate SameReads(d: Definition, d': Definition) {
    && d'.modeId == d.modeId
    && d'.offBehavior == d.offBehavior
    && CriteriaRefs(d') == CriteriaRefs(d)
    && TimedReadsOf(d') == TimedReadsOf(d)
  }

  lemma {:induction false} SameReferencesSameIds(defs: seq<Definition>, defs': seq<Definition>)
    requires DistinctIds(defs) && SameReferences(defs, defs')
    ensures DistinctIds(defs') && Ids(defs') == Ids(defs)
  {
    assert forall i :: 0 <= i < |defs| ==> SameReads(defs[i], defs'[i]);
    forall m | m in Ids(defs) ensures m in Ids(defs') {
      var i :| 0 <= i < |defs| && defs[i].modeId == m;
      assert defs'[i] in defs';
    }
    forall m | m in Ids(defs') ensures m in Ids(defs) {
      var i :| 0 <= i < |defs'| && defs'[i].modeId == m;
      assert defs[i] in defs;
    }
  }

  lemma {:induction false} SameReferencesAt(defs: seq<Definition>, defs': seq<Definition>, m: string)
    requires DistinctIds(defs) && DistinctIds(defs') && Ids(defs') == Ids(defs) && m in Ids(defs)
    requires SameReferences(defs, defs')
    ensures m in Dependencies(defs) && m in Dependencies(defs') && Dependencies(defs')[m] == Dependencies(defs)[m]
    ensures m in ReadGraph(defs) && m in ReadGraph(defs') && ReadGraph(defs')[m] == ReadGraph(defs)[m]
  {
    var i :| 0 <= i < |defs| && defs[i].modeId == m;
    assert SameReads(defs[i], defs'[i]) && defs[i] in defs && defs'[i] in defs';
    DependenciesShape(defs);
    DependenciesShape(defs');
    ReadGraphAt(defs, defs[i]);
    ReadGraphAt(defs', defs'[i]);
  }

  lemma {:induction false} SameReferencesSameGraphs(defs: seq<Definition>, defs': seq<Definition>)
    requires DistinctIds(defs) && SameReferences(defs, defs')
    ensures DistinctIds(defs') && Ids(defs') == Ids(defs)
    ensures Dependencies(defs') == Dependencies(defs) && ReadGraph(defs') == ReadGraph(defs)
  {
    SameReferencesSameIds(defs, defs');
    DependenciesShape(defs);
    DependenciesShape(defs');
    var g, g', r, r' := Dependencies(defs), Dependencies(defs'), ReadGraph(defs), ReadGraph(defs');
    forall m | m in g ensures g'[m] == g[m] && r'[m] == r[m] {
      SameReferencesAt(defs, defs', m);
    }
    SameGraph(g, g');
    SameGraph(r, r');
  }

  lemma SameGraph(g: Graph, g': Graph)
    requires g'.Keys == g.Keys && forall m :: m in g ==> g'[m] == g[m]
    ensures g' == g
  {
  }

  lemma {:induction false} SameReferencesWellBehaved(defs: seq<Definition>, defs': seq<Definition>)
    requires WellBehaved(defs) && AllInverse(defs) && SameReferences(defs, defs')
    ensures WellBehaved(defs') && AllInverse(defs')
  {
    SameReferencesSameGraphs(defs, defs');
    forall d' | d' in defs'
      ensures d'.offBehavior == Inverse && d'.modeId !in CriteriaRefs(d').modes {
      var i :| 0 <= i < |defs'| && defs'[i] == d';
      assert SameReads(defs[i], d') && defs[i] in defs;
    }
  }

  // ---------- A cycle that meets no node twice ----------

  ghost predicate IsSimpleCycle(g: Graph, p: seq<string>) {
    IsCycle(g, p) && forall i, j :: 0 <= i < j < |p| - 1 ==> p[i] != p[j]
  }

  lemma {:induction false} PathSlice(g: Graph, p: seq<string>, i: nat, j: nat)
    requires IsPath(g, p) && i <= j <= |p|
    ensures IsPath(g, p[i..j])
  {
    forall k | 0 <= k < j - i - 1 ensures Edge(g, p[i..j][k], p[i..j][k + 1]) {
      assert Edge(g, p[i + k], p[i + k + 1]);
    }
  }

  lemma {:induction false} SimpleCycle(g: Graph, p: seq<string>) returns (q: seq<string>)
    requires IsCycle(g, p)
    ensures IsSimpleCycle(g, q)
    decreases |p|
  {
    q := p;
    if i, j :| 0 <= i < j < |p| - 1 && p[i] == p[j] {
      PathSlice(g, p, i, j + 1);
      q := SimpleCycle(g, p[i..j + 1]);
    }
  }

  // ---------- Turning a cycle of reads into criteria that cannot be met ----------

  /** A leaf that says the mode is on, of the kind the definition reads it by. */
  function SaysOn(d: Definition, mode: string): Condition {
    if mode in CriteriaRefs(d).modes then ModeIs(mode, true) else DeviceState(mode, "on", Eq, Bool(true))
  }

  lemma SaysOnMeans(d: Definition, mode: string, w: World)
    ensures Holds(SaysOn(d, mode), w) <==> ModeOn(w, mode)
  {
  }

  /** True in every world, and reads all that c reads. */
  function Vacuous(c: Condition): Condition {
    Or([c, Not(c)])
  }

  /** Follow the mode, or its opposite, and read on as before. */
  function Follow(d: Definition, mode: string, negated: bool): Definition {
    var leaf := SaysOn(d, mode);
    d.(onCondition := And([if negated then Not(leaf) else leaf, Vacuous(d.onCondition)]))
  }

  lemma {:induction false} FollowMeans(d: Definition, mode: string, negated: bool, w: World)
    ensures Holds(Follow(d, mode, negated).onCondition, w) <==> (ModeOn(w, mode) != negated)
  {
    var leaf := SaysOn(d, mode);
    var first := if negated then Not(leaf) else leaf;
    var vac := [d.onCondition, Not(d.onCondition)];
    SaysOnMeans(d, mode, w);
    assert d.onCondition in vac && Not(d.onCondition) in vac;
    assert Holds(Vacuous(d.onCondition), w);
    var both := [first, Vacuous(d.onCondition)];
    assert both[0] in both && forall c :: c in both ==> c == both[0] || c == both[1];
    assert Holds(And(both), w) <==> Holds(first, w);
  }

  lemma {:induction false} FollowReads(d: Definition, mode: string, negated: bool)
    requires mode in ReadsOf(d)
    ensures SameReads(d, Follow(d, mode, negated))
  {
    var leaf, c := SaysOn(d, mode), d.onCondition;
    var first := if negated then Not(leaf) else leaf;
    RefsOfTwo(c, Not(c));
    RefsOfTwo(first, Vacuous(c));
    assert RefsOf(first) == RefsOf(leaf) && TimedReads(first) == {};
    assert TimedReads(Vacuous(c)) == TimedReads(c);
    Absorbed(RefsOf(leaf), RefsOf(c), if d.offCondition.Some? then RefsOf(d.offCondition.value) else NO_REFS);
  }

  lemma Absorbed(leaf: Refs, on: Refs, off: Refs)
    requires leaf.devices <= on.devices + off.devices && leaf.modes <= on.modes + off.modes && leaf.hub == {}
    ensures leaf.Union(on.Union(on)).Union(off) == on.Union(off)
  {
  }

  lemma {:induction false} RefsOfTwo(a: Condition, b: Condition)
    ensures RefsOfAll([a, b]) == RefsOf(a).Union(RefsOf(b))
    ensures TimedReadsOfAll([a, b]) == TimedReads(a) + TimedReads(b)
  {
    assert [a, b][1..] == [b] && [b][1..] == [];
    assert RefsOfAll([b]) == RefsOf(b) && TimedReadsOfAll([b]) == TimedReads(b);
  }

  function IndexOf(p: seq<string>, m: string): (i: nat)
    ensures i <= |p| && (i < |p| ==> p[i] == m) && (i == |p| ==> m !in p)
  {
    if p == [] then 0 else if p[0] == m then 0 else IndexOf(p[1..], m) + 1
  }

  /** On the cycle each mode follows the next, the first one its opposite; off it nothing changes. */
  function Twist(d: Definition, p: seq<string>): Definition
    requires p != []
  {
    var i := IndexOf(p[..|p| - 1], d.modeId);
    if i < |p| - 1 then Follow(d, p[i + 1], i == 0) else d
  }

  function Twisted(defs: seq<Definition>, p: seq<string>): seq<Definition>
    requires p != []
  {
    seq(|defs|, i requires 0 <= i < |defs| => Twist(defs[i], p))
  }

  lemma {:induction false} TwistedReadsTheSame(defs: seq<Definition>, p: seq<string>)
    requires DistinctIds(defs) && IsCycle(ReadGraph(defs), p)
    ensures SameReferences(defs, Twisted(defs, p))
  {
    forall k | 0 <= k < |defs| ensures SameReads(defs[k], Twist(defs[k], p)) {
      var d := defs[k];
      var i := IndexOf(p[..|p| - 1], d.modeId);
      if i < |p| - 1 {
        assert Edge(ReadGraph(defs), p[i], p[i + 1]);
        ReadGraphAt(defs, d);
        FollowReads(d, p[i + 1], i == 0);
      }
    }
  }

  lemma {:induction false} TwistedFollows(defs: seq<Definition>, p: seq<string>, w: World, i: nat)
    requires DistinctIds(defs) && AllInverse(defs) && IsSimpleCycle(ReadGraph(defs), p) && i < |p| - 1
    requires AllRight(Twisted(defs, p), w)
    ensures ModeOn(w, p[i]) == (ModeOn(w, p[i + 1]) != (i == 0))
  {
    assert Edge(ReadGraph(defs), p[i], p[i + 1]);
    var d := DefinitionOf(defs, p[i]);
    var k :| 0 <= k < |defs| && defs[k] == d;
    var front := p[..|p| - 1];
    assert front[i] == p[i];
    assert IndexOf(front, d.modeId) == i by {
      var j := IndexOf(front, d.modeId);
      assert front[i] in front;
      assert front[j] == p[j];
    }
    var d' := Follow(d, p[i + 1], i == 0);
    assert Twisted(defs, p)[k] == d' && d' in Twisted(defs, p);
    FollowMeans(d, p[i + 1], i == 0, w);
    InverseRight(d', w);
    assert !Wrong(d', w);
  }

  lemma {:induction false} AllFollow(defs: seq<Definition>, p: seq<string>, w: World, i: nat)
    requires DistinctIds(defs) && AllInverse(defs) && IsSimpleCycle(ReadGraph(defs), p) && 1 <= i < |p|
    requires AllRight(Twisted(defs, p), w)
    ensures ModeOn(w, p[i]) == ModeOn(w, p[|p| - 1])
    decreases |p| - i
  {
    if i < |p| - 1 {
      AllFollow(defs, p, w, i + 1);
      TwistedFollows(defs, p, w, i);
    }
  }

  /** Whatever the modes are set to, one of the twisted definitions is not met. */
  lemma {:induction false} TwistedNeverRight(defs: seq<Definition>, p: seq<string>, w: World)
    requires DistinctIds(defs) && AllInverse(defs) && IsSimpleCycle(ReadGraph(defs), p)
    ensures !AllRight(Twisted(defs, p), w)
  {
    if AllRight(Twisted(defs, p), w) {
      TwistedFollows(defs, p, w, 0);
      AllFollow(defs, p, w, 1);
      assert false;
    }
  }

  // ---------- The exact condition ----------

  ghost predicate AlwaysSettles(defs: seq<Definition>) {
    forall w :: CanSettle(defs, w)
  }

  lemma {:induction false} AcyclicReadsSettle(defs: seq<Definition>, defs': seq<Definition>)
    requires WellBehaved(defs) && AllInverse(defs) && SameReferences(defs, defs')
    ensures Sound(defs') && AlwaysSettles(defs')
  {
    SameReferencesWellBehaved(defs, defs');
    forall w ensures CanSettle(defs', w) {
      SettledStateExists(defs', w);
    }
  }

  /** A cycle of reads carries an accepted list that no setting of the modes ever satisfies. */
  lemma {:induction false} CyclicReadsCarryNoSettledState(defs: seq<Definition>) returns (defs': seq<Definition>)
    requires Sound(defs) && AllInverse(defs) && !Acyclic(ReadGraph(defs))
    ensures Sound(defs') && AllInverse(defs') && SameReferences(defs, defs')
    ensures forall w :: !AllRight(defs', w)
  {
    var p :| IsCycle(ReadGraph(defs), p);
    var q := SimpleCycle(ReadGraph(defs), p);
    defs' := Twisted(defs, q);
    TwistedReadsTheSame(defs, q);
    SameReferencesSameGraphs(defs, defs');
    forall d' | d' in defs' ensures d'.offBehavior == Inverse && d'.modeId !in CriteriaRefs(d').modes {
      var i :| 0 <= i < |defs'| && defs'[i] == d';
      assert SameReads(defs[i], d') && defs[i] in defs;
    }
    forall w ensures !AllRight(defs', w) {
      TwistedNeverRight(defs, q, w);
    }
  }

  /**
    What is read decides: every accepted list with these references can be settled in all
    surroundings exactly when the read graph, device leaves included, has no cycle.
   */
  lemma {:induction false} ReadGraphDecides(defs: seq<Definition>)
    requires Sound(defs) && AllInverse(defs)
    ensures Acyclic(ReadGraph(defs)) <==>
            forall defs' :: SameReferences(defs, defs') ==> AlwaysSettles(defs')
  {
    if Acyclic(ReadGraph(defs)) {
      forall defs' | SameReferences(defs, defs') ensures AlwaysSettles(defs') {
        AcyclicReadsSettle(defs, defs');
      }
    } else {
      var defs' := CyclicReadsCarryNoSettledState(defs);
      assert !CanSettle(defs', World(map[], map[], 0, {}));
    }
  }
}
