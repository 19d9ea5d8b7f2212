/**
  The cycle check over the graph of criteria-driven modes: each managed mode points
  at the managed modes its criteria read.
 */
module Graphs {

  type Graph = map<string, set<string>>

  /** Every edge stays inside the graph. */
  predicate Closed(g: Graph) {
    forall n :: n in g ==> g[n] <= g.Keys
  }

  predicate Edge(g: Graph, a: string, b: string) {
    a in g && b in g[a]
  }

  ghost predicate IsPath(g: Graph, p: seq<string>) {
    forall i :: 0 <= i < |p| - 1 ==> Edge(g, p[i], p[i + 1])
  }

  /** A directed cycle; a self-loop is the cycle [n, n]. */
  ghost predicate IsCycle(g: Graph, p: seq<string>) {
    |p| >= 2 && p[0] == p[|p| - 1] && IsPath(g, p)
  }

  ghost predicate Acyclic(g: Graph) {
    forall p :: !IsCycle(g, p)
  }

  /** Nodes listed once each, every node after all it points at. */
  ghost predicate TopologicalOrder(g: Graph, order: seq<string>) {
    && (forall n :: n in order <==> n in g)
    && (forall i, j :: 0 <= i < j < |order| ==> order[i] != order[j])
    && (forall i, d :: 0 <= i < |order| && d in g[order[i]] ==> d in order[..i])
  }

  /** A number for each node that falls along every edge. */
  ghost predicate Ranked(g: Graph, rank: map<string, nat>) {
    && rank.Keys == g.Keys
    && forall n, d :: Edge(g, n, d) ==> d in rank && rank[d] < rank[n]
  }

  lemma {:induction false} RankFallsAlongPath(g: Graph, rank: map<string, nat>, p: seq<string>)
    requires Ranked(g, rank) && IsPath(g, p) && |p| >= 2
    ensures p[0] in rank && p[|p| - 1] in rank && rank[p[|p| - 1]] < rank[p[0]]
  {
    assert Edge(g, p[0], p[1]);
    if |p| > 2 {
      assert IsPath(g, p[1..]) by {
        forall i | 0 <= i < |p[1..]| - 1 ensures Edge(g, p[1..][i], p[1..][i + 1]) {
          assert Edge(g, p[i + 1], p[i + 2]);
        }
      }
      RankFallsAlongPath(g, rank, p[1..]);
    }
  }

  lemma {:induction false} RankedIsAcyclic(g: Graph, rank: map<string, nat>)
    requires Ranked(g, rank)
    ensures Acyclic(g)
  {
    forall p | IsCycle(g, p) ensures false {
      RankFallsAlongPath(g, rank, p);
    }
  }

  // ---------- An acyclic graph can be put in order ----------

  /** Following unplaced edges from an unplaced node ends at one whose edges are all placed. */
  lemma {:induction false} FindReady(g: Graph, placed: set<string>, path: seq<string>) returns (n: string)
    requires Closed(g) && Acyclic(g)
    requires path != [] && IsPath(g, path)
    requires forall m :: m in path ==> m in g && m !in placed
    ensures n in g && n !in placed && g[n] <= placed
    decreases g.Keys - placed - (set m | m in path)
  {
    var last := path[|path| - 1];
    if g[last] <= placed {
      return last;
    }
    var next :| next in g[last] && next !in placed;
    var longer := path + [next];
    ExtendPath(g, path, next);
    if next in path {
      BackEdgeIsCycle(g, path, next);
      assert false;
    }
    assert next in (set m | m in longer) && next in g.Keys - placed - (set m | m in path);
    assert (set m | m in longer) == (set m | m in path) + {next};
    n := FindReady(g, placed, longer);
  }

  lemma {:induction false} ExtendOrder(g: Graph, order: seq<string>) returns (full: seq<string>)
    requires Closed(g) && Acyclic(g)
    requires forall n :: n in order ==> n in g
    requires forall i, j :: 0 <= i < j < |order| ==> order[i] != order[j]
    requires forall i, d :: 0 <= i < |order| && d in g[order[i]] ==> d in order[..i]
    ensures TopologicalOrder(g, full)
    decreases g.Keys - (set n | n in order)
  {
    var placed := set n | n in order;
    if g.Keys <= placed {
      full := order;
      return;
    }
    var start :| start in g && start !in placed;
    var n := FindReady(g, placed, [start]);
    var longer := order + [n];
    assert (set m | m in longer) == placed + {n};
    forall i, d | 0 <= i < |longer| && d in g[longer[i]] ensures d in longer[..i] {
      if i < |order| {
        assert longer[..i] == order[..i];
      } else {
        assert longer[..i] == order;
        assert d in placed;
      }
    }
    assert n in g.Keys - placed;
    full := ExtendOrder(g, longer);
  }

  /** Having no cycle is enough to be put in dependency order. */
  lemma {:induction false} AcyclicHasOrder(g: Graph)
    requires Closed(g) && Acyclic(g)
    ensures exists order :: TopologicalOrder(g, order)
  {
    var order := ExtendOrder(g, []);
  }

  lemma {:induction false} OrderedIsAcyclic(g: Graph, order: seq<string>)
    requires TopologicalOrder(g, order)
    ensures Acyclic(g)
  {
    var rank := map n | n in g :: Position(order, n);
    forall n, d | Edge(g, n, d) ensures d in rank && rank[d] < rank[n] {
      var i := Position(order, n);
      assert d in order[..i];
      var j :| 0 <= j < i && order[..i][j] == d;
      PositionIs(order, j);
    }
    RankedIsAcyclic(g, rank);
  }

  ghost function Position(order: seq<string>, n: string): (i: nat)
    ensures n in order ==> i < |order| && order[i] == n
  {
    if n in order then var i :| 0 <= i < |order| && order[i] == n; i else 0
  }

  lemma PositionIs(order: seq<string>, j: nat)
    requires forall i, k :: 0 <= i < k < |order| ==> order[i] != order[k]
    requires j < |order|
    ensures Position(order, order[j]) == j
  {
  }

  // ---------- The three-colour search ----------

  lemma {:induction false} ExtendPath(g: Graph, path: seq<string>, n: string)
    requires IsPath(g, path)
    requires path != [] ==> Edge(g, path[|path| - 1], n)
    ensures IsPath(g, path + [n])
  {
  }

  /** An edge back onto the path closes a cycle. */
  lemma {:induction false} BackEdgeIsCycle(g: Graph, path: seq<string>, n: string)
    requires IsPath(g, path) && n in path && Edge(g, path[|path| - 1], n)
    ensures !Acyclic(g)
  {
    ExtendPath(g, path, n);
    var longer := path + [n];
    var i :| 0 <= i < |path| && path[i] == n;
    var loop := longer[i..];
    forall j | 0 <= j < |loop| - 1 ensures Edge(g, loop[j], loop[j + 1]) {
      assert Edge(g, longer[i + j], longer[i + j + 1]);
    }
    assert IsCycle(g, loop);
  }

  datatype VisitState = Visiting | Done

  /** What the visit states mean while `stack` is the path of nodes still being visited. */
  ghost predicate SearchState(g: Graph, states: map<string, VisitState>, finished: map<string, nat>, clock: nat,
                              stack: seq<string>)
  {
    && IsPath(g, stack)
    && states.Keys <= g.Keys
    && (forall n :: n in stack <==> n in states && states[n] == Visiting)
    && (forall n :: n in finished <==> n in states && states[n] == Done)
    && (forall n :: n in finished ==> finished[n] < clock)
    && (forall n, d :: n in finished && d in g[n] ==> d in finished && finished[d] < finished[n])
  }

  lemma {:induction false} EnterNode(g: Graph, states: map<string, VisitState>, finished: map<string, nat>, clock: nat,
                                     stack: seq<string>, node: string)
    requires SearchState(g, states, finished, clock, stack)
    requires node in g && node !in states
    requires stack != [] ==> Edge(g, stack[|stack| - 1], node)
    ensures SearchState(g, states[node := Visiting], finished, clock, stack + [node])
    ensures node in g.Keys - states.Keys && node !in g.Keys - states[node := Visiting].Keys
  {
  }

  lemma {:induction false} FinishNode(g: Graph, states: map<string, VisitState>, finished: map<string, nat>, clock: nat,
                                      stack: seq<string>, node: string)
    requires SearchState(g, states, finished, clock, stack + [node])
    requires node !in stack && node in g && g[node] <= finished.Keys
    ensures SearchState(g, states[node := Done], finished[node := clock], clock + 1, stack)
  {
    var path := stack + [node];
    forall i | 0 <= i < |stack| - 1 ensures Edge(g, stack[i], stack[i + 1]) {
      assert Edge(g, path[i], path[i + 1]);
    }
    assert forall n :: n in path <==> n in stack || n == node;
  }

  /** One search: the visit states are shared by every root it starts from. */
  class CycleSearch {
    const adjacency: Graph
    var states: map<string, VisitState>
    /** When each node was finished; what it points at was finished earlier. */
    ghost var finished: map<string, nat>
    ghost var clock: nat

    constructor (adjacency: Graph)
      ensures this.adjacency == adjacency && states == map[]
      ensures SearchState(adjacency, states, finished, clock, [])
    {
      this.adjacency := adjacency;
      states, finished, clock := map[], map[], 0;
    }

    /** Succeeds with the node finished and the stack as it was, or has met a cycle. */
    method Visit(node: string, ghost stack: seq<string>) returns (ok: bool)
      requires Closed(adjacency) && node in adjacency
      requires SearchState(adjacency, states, finished, clock, stack)
      requires stack != [] ==> Edge(adjacency, stack[|stack| - 1], node)
      modifies this
      ensures ok ==> SearchState(adjacency, states, finished, clock, stack) && node in finished
      ensures ok ==> old(states.Keys) <= states.Keys && old(finished.Keys) <= finished.Keys
      ensures !ok ==> !Acyclic(adjacency)
      decreases adjacency.Keys - states.Keys, 0
    {
      if node in states && states[node] == Visiting {
        BackEdgeIsCycle(adjacency, stack, node);
        return false;
      }
      if node in states && states[node] == Done {
        return true;
      }
      EnterNode(adjacency, states, finished, clock, stack, node);
      states := states[node := Visiting];
      ok := VisitAll(node, stack + [node]);
      if ok {
        FinishNode(adjacency, states, finished, clock, stack, node);
        states := states[node := Done];
        finished, clock := finished[node := clock], clock + 1;
      }
    }

    /** The search continues into everything the node on top of the stack points at. */
    method VisitAll(node: string, ghost stack: seq<string>) returns (ok: bool)
      requires Closed(adjacency) && node in adjacency
      requires SearchState(adjacency, states, finished, clock, stack)
      requires stack != [] && stack[|stack| - 1] == node
      modifies this
      ensures ok ==> SearchState(adjacency, states, finished, clock, stack) && adjacency[node] <= finished.Keys
      ensures ok ==> old(states.Keys) <= states.Keys && old(finished.Keys) <= finished.Keys
      ensures !ok ==> !Acyclic(adjacency)
      decreases adjacency.Keys - states.Keys, 1
    {
      var rest := adjacency[node];
      while rest != {}
        invariant SearchState(adjacency, states, finished, clock, stack)
        invariant rest <= adjacency[node]
        invariant adjacency[node] - rest <= finished.Keys
        invariant old(states.Keys) <= states.Keys && old(finished.Keys) <= finished.Keys
        decreases rest
      {
        var dep :| dep in rest;
        ok := Visit(dep, stack);
        if !ok {
          return;
        }
        rest := rest - {dep};
      }
      return true;
    }

    /** Every node tried as a root, in any order: accepted exactly when there is no cycle. */
    method Run() returns (ok: bool)
      requires Closed(adjacency)
      requires SearchState(adjacency, states, finished, clock, [])
      modifies this
      ensures ok <==> Acyclic(adjacency)
    {
      var roots := adjacency.Keys;
      while roots != {}
        invariant SearchState(adjacency, states, finished, clock, [])
        invariant roots <= adjacency.Keys
        invariant adjacency.Keys - roots <= finished.Keys
        decreases roots
      {
        var node :| node in roots;
        ok := Visit(node, []);
        if !ok {
          return;
        }
        roots := roots - {node};
      }
      RankedIsAcyclic(adjacency, finished);
      return true;
    }
  }
}
