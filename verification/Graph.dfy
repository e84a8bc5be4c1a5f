/** Workflow graphs: paths, cycles, and the counting of open dependencies that both the
    topological sort (internal/engine/dag.go) and the scheduler (internal/engine/runner_dag.go)
    rely on. */
module Graph {

  type NodeId = string

  datatype Edge = Edge(from: NodeId, to: NodeId)

  datatype Workflow = Workflow(nodes: seq<NodeId>, edges: seq<Edge>)

  ghost predicate UniqueIds(nodes: seq<NodeId>) {
    forall i, j :: 0 <= i < j < |nodes| ==> nodes[i] != nodes[j]
  }

  ghost predicate KnownEndpoints(g: Workflow) {
    forall e :: e in g.edges ==> e.from in g.nodes && e.to in g.nodes
  }

  ghost predicate WellFormed(g: Workflow) {
    UniqueIds(g.nodes) && KnownEndpoints(g)
  }

  // Paths and cycles

  ghost predicate Linked(g: Workflow, p: seq<NodeId>) {
    forall i :: 0 <= i < |p| - 1 ==> Edge(p[i], p[i + 1]) in g.edges
  }

  ghost predicate IsPath(g: Workflow, p: seq<NodeId>, a: NodeId, b: NodeId) {
    |p| >= 1 && p[0] == a && p[|p| - 1] == b && Linked(g, p)
  }

  ghost predicate Reaches(g: Workflow, a: NodeId, b: NodeId) {
    exists p :: IsPath(g, p, a, b)
  }

  ghost predicate IsCycle(g: Workflow, p: seq<NodeId>) {
    |p| >= 2 && p[0] == p[|p| - 1] && Linked(g, p)
  }

  ghost predicate Cyclic(g: Workflow) {
    exists p :: IsCycle(g, p)
  }

  lemma ReachesSelf(g: Workflow, a: NodeId)
    ensures Reaches(g, a, a)
  {
    assert IsPath(g, [a], a, a);
  }

  lemma ReachesStep(g: Workflow, a: NodeId, b: NodeId, c: NodeId)
    requires Reaches(g, a, b) && Edge(b, c) in g.edges
    ensures Reaches(g, a, c)
  {
    var p :| IsPath(g, p, a, b);
    assert IsPath(g, p + [c], a, c);
  }

  /** A set that holds a node and all successors of its members holds all that is reachable. */
  lemma ClosedHoldsReachable(g: Workflow, s: set<NodeId>, a: NodeId, b: NodeId)
    requires a in s && (forall e :: e in g.edges && e.from in s ==> e.to in s)
    requires Reaches(g, a, b)
    ensures b in s
  {
    var p :| IsPath(g, p, a, b);
    var i := 0;
    while i < |p| - 1
      invariant 0 <= i <= |p| - 1 && p[i] in s
    {
      assert Edge(p[i], p[i + 1]) in g.edges;
      i := i + 1;
    }
  }

  /** Positions in an order along which every edge goes forward. */
  ghost predicate Ranks(g: Workflow, rank: map<NodeId, nat>) {
    forall e :: e in g.edges ==> e.from in rank && e.to in rank && rank[e.from] < rank[e.to]
  }

  lemma RankedIsAcyclic(g: Workflow, rank: map<NodeId, nat>)
    requires Ranks(g, rank)
    ensures !Cyclic(g)
  {
    forall p | |p| >= 2 && Linked(g, p)
      ensures p[0] != p[|p| - 1]
    {
      assert Edge(p[0], p[1]) in g.edges;
      var i := 1;
      while i < |p| - 1
        invariant 1 <= i <= |p| - 1
        invariant p[0] in rank && p[i] in rank && rank[p[0]] < rank[p[i]]
      {
        assert Edge(p[i], p[i + 1]) in g.edges;
        i := i + 1;
      }
    }
  }

  // Children and open dependencies

  function Children(edges: seq<Edge>, n: NodeId): seq<NodeId> {
    if edges == [] then []
    else
      var front, e := edges[..|edges| - 1], edges[|edges| - 1];
      if e.from == n then Children(front, n) + [e.to] else Children(front, n)
  }

  lemma ChildrenAreTargets(edges: seq<Edge>, n: NodeId, c: NodeId)
    ensures c in Children(edges, n) <==> Edge(n, c) in edges
  {
    if edges != [] {
      var front, e := edges[..|edges| - 1], edges[|edges| - 1];
      assert edges == front + [e];
      ChildrenAreTargets(front, n, c);
    }
  }

  function Occurrences(s: seq<NodeId>, x: NodeId): nat {
    if s == [] then 0
    else Occurrences(s[..|s| - 1], x) + (if s[|s| - 1] == x then 1 else 0)
  }

  /** The number of edges into n from nodes that are not done. */
  function Open(edges: seq<Edge>, done: set<NodeId>, n: NodeId): nat {
    if edges == [] then 0
    else
      var e := edges[|edges| - 1];
      Open(edges[..|edges| - 1], done, n) + (if e.to == n && e.from !in done then 1 else 0)
  }

  lemma OpenZero(edges: seq<Edge>, done: set<NodeId>, n: NodeId)
    ensures Open(edges, done, n) == 0 <==> forall e :: e in edges && e.to == n ==> e.from in done
  {
    if edges != [] {
      var front, e := edges[..|edges| - 1], edges[|edges| - 1];
      assert edges == front + [e];
      OpenZero(front, done, n);
    }
  }

  /** Finishing d closes exactly its own edges. */
  lemma {:induction false} OpenAfter(edges: seq<Edge>, done: set<NodeId>, d: NodeId, n: NodeId)
    requires d !in done
    ensures Open(edges, done, n) == Open(edges, done + {d}, n) + Occurrences(Children(edges, d), n)
  {
    if edges != [] {
      var front, e := edges[..|edges| - 1], edges[|edges| - 1];
      OpenAfter(front, done, d, n);
      if e.from == d {
        var cs := Children(front, d) + [e.to];
        assert cs[..|cs| - 1] == Children(front, d);
      }
    }
  }

  /** The children map that every algorithm of the engine builds first. */
  method BuildChildren(g: Workflow) returns (children: map<NodeId, seq<NodeId>>)
    ensures IndexesChildren(g, children)
  {
    children := map[];
    for i := 0 to |g.edges|
      invariant forall n :: ChildrenIn(children, n) == Children(g.edges[..i], n)
    {
      var e := g.edges[i];
      assert g.edges[..i + 1][..i] == g.edges[..i];
      children := children[e.from := ChildrenIn(children, e.from) + [e.to]];
    }
    assert g.edges[..|g.edges|] == g.edges;
  }

  ghost predicate IndexesChildren(g: Workflow, children: map<NodeId, seq<NodeId>>) {
    forall n :: ChildrenIn(children, n) == Children(g.edges, n)
  }

  /** Reading a Go map of slices: a missing key reads as the empty slice. */
  function ChildrenIn(children: map<NodeId, seq<NodeId>>, n: NodeId): seq<NodeId> {
    if n in children then children[n] else []
  }

  // Sequences without repetition

  function Elements(s: seq<NodeId>): set<NodeId> {
    set x | x in s
  }

  lemma UniqueConcat(a: seq<NodeId>, b: seq<NodeId>)
    ensures UniqueIds(a + b) <==> UniqueIds(a) && UniqueIds(b) && Elements(a) !! Elements(b)
    ensures Elements(a + b) == Elements(a) + Elements(b)
  {
    var c := a + b;
    if UniqueIds(c) {
      forall i, j | 0 <= i < j < |b|
        ensures b[i] != b[j]
      {
        assert c[|a| + i] == b[i] && c[|a| + j] == b[j];
      }
      forall i, j | 0 <= i < |a| && 0 <= j < |b|
        ensures a[i] != b[j]
      {
        assert c[i] == a[i] && c[|a| + j] == b[j];
      }
      forall i, j | 0 <= i < j < |a|
        ensures a[i] != a[j]
      {
        assert c[i] == a[i] && c[j] == a[j];
      }
    }
    if UniqueIds(a) && UniqueIds(b) && Elements(a) !! Elements(b) {
      forall i, j | 0 <= i < j < |c|
        ensures c[i] != c[j]
      {
        if i < |a| <= j {
          assert c[i] in Elements(a) && c[j] in Elements(b);
        }
      }
    }
  }

  lemma DistinctFits(s: seq<NodeId>, bound: set<NodeId>)
    requires UniqueIds(s) && Elements(s) <= bound
    ensures |s| == |Elements(s)| <= |bound|
  {
    if s == [] {
      SubsetSize({}, bound);
    } else {
      var front, x := s[..|s| - 1], s[|s| - 1];
      assert s == front + [x];
      assert Elements(s) == Elements(front) + {x};
      DistinctFits(front, bound);
      SubsetSize(Elements(s), bound);
    }
  }

  lemma SubsetSize(a: set<NodeId>, b: set<NodeId>)
    requires a <= b
    ensures |a| <= |b|
    ensures |a| == |b| ==> a == b
  {
    assert b == a + (b - a);
    assert |b| == |a| + |b - a|;
  }

  // Every finite set of nodes that all have a predecessor inside it contains a cycle.

  ghost predicate Stuck(g: Workflow, u: set<NodeId>) {
    forall n {:trigger HasPredecessor(g, u, n)} :: n in u ==> HasPredecessor(g, u, n)
  }

  ghost predicate HasPredecessor(g: Workflow, u: set<NodeId>, n: NodeId) {
    exists m :: m in u && Edge(m, n) in g.edges
  }

  /** A chain of edges, newest node first. */
  lemma {:induction false} StuckChain(g: Workflow, u: set<NodeId>, chain: seq<NodeId>)
    requires Stuck(g, u) && |chain| >= 1 && Elements(chain) <= u
    requires UniqueIds(chain) && Linked(g, chain)
    ensures Cyclic(g)
    decreases |u| - |chain|
  {
    assert chain[0] in Elements(chain);
    assert HasPredecessor(g, u, chain[0]);
    var m :| m in u && Edge(m, chain[0]) in g.edges;
    LongerChain(g, m, chain);
    hide Linked, Stuck, HasPredecessor, Cyclic, UniqueIds;
    if m in chain {
      ClosedChain(g, m, chain);
    } else {
      DistinctFits([m] + chain, u);
      StuckChain(g, u, [m] + chain);
    }
  }

  lemma LongerChain(g: Workflow, m: NodeId, chain: seq<NodeId>)
    requires |chain| >= 1 && UniqueIds(chain) && Linked(g, chain) && Edge(m, chain[0]) in g.edges
    ensures Linked(g, [m] + chain) && Elements([m] + chain) == Elements(chain) + {m}
    ensures m !in chain ==> UniqueIds([m] + chain)
  {
  }

  lemma ClosedChain(g: Workflow, m: NodeId, chain: seq<NodeId>)
    requires Linked(g, [m] + chain) && m in chain
    ensures Cyclic(g)
  {
    var longer := [m] + chain;
    var k :| 0 <= k < |chain| && chain[k] == m;
    assert IsCycle(g, longer[..k + 2]);
  }

  lemma StuckIsCyclic(g: Workflow, u: set<NodeId>)
    requires Stuck(g, u) && u != {}
    ensures Cyclic(g)
  {
    var n :| n in u;
    StuckChain(g, u, [n]);
  }

  /** A topological order of the whole graph. */
  ghost predicate IsTopological(g: Workflow, order: seq<NodeId>) {
    && UniqueIds(order) && Elements(order) == Elements(g.nodes)
    && EdgesForward(g, order)
  }

  /** No edge runs from a later place of the order to an earlier one, and no edge into the
      order comes from outside it. */
  ghost predicate EdgesForward(g: Workflow, order: seq<NodeId>) {
    forall e, j :: e in g.edges && 0 <= j < |order| && order[j] == e.to ==> e.from in order[..j]
  }

  function RankOf(order: seq<NodeId>): map<NodeId, nat>
  {
    map x | x in order :: IndexOf(order, x)
  }

  function IndexOf(order: seq<NodeId>, x: NodeId): (i: nat)
    requires x in order
    ensures i < |order| && order[i] == x && x !in order[..i]
  {
    if order[0] == x then 0
    else
      var i := IndexOf(order[1..], x);
      assert order[..i + 1] == [order[0]] + order[1..][..i];
      i + 1
  }

  lemma TopologicalRanks(g: Workflow, order: seq<NodeId>)
    requires KnownEndpoints(g) && IsTopological(g, order)
    ensures Ranks(g, RankOf(order))
  {
    var rank := RankOf(order);
    forall e | e in g.edges
      ensures e.from in rank && e.to in rank && rank[e.from] < rank[e.to]
    {
      assert e.to in Elements(g.nodes) && e.from in Elements(g.nodes);
      var j := IndexOf(order, e.to);
      var i := IndexOf(order, e.from);
      assert e.from in order[..j];
    }
  }

  /** A graph without a cycle has a topological order. */
  lemma AcyclicHasOrder(g: Workflow) returns (order: seq<NodeId>)
    requires KnownEndpoints(g) && !Cyclic(g)
    ensures IsTopological(g, order)
  {
    order := [];
    var all := Elements(g.nodes);
    while Elements(order) != all
      invariant UniqueIds(order) && Elements(order) <= all && EdgesForward(g, order)
      decreases |all| - |Elements(order)|
    {
      var u := all - Elements(order);
      if Stuck(g, u) {
        StuckIsCyclic(g, u);
      }
      var n :| n in u && !HasPredecessor(g, u, n);
      var longer := order + [n];
      forall e, j | e in g.edges && 0 <= j < |longer| && longer[j] == e.to
        ensures e.from in longer[..j]
      {
        if j < |order| {
          assert longer[..j] == order[..j];
        } else {
          assert Edge(e.from, n) in g.edges && e.from in all;
          assert longer[..j] == order;
        }
      }
      assert Elements(longer) == Elements(order) + {n};
      SubsetSize(Elements(longer), all);
      order := longer;
    }
  }
}
