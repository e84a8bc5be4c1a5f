/** Graph validation, cycle detection and topological order (internal/engine/dag.go), and the
    downstream closure used by replay (internal/engine/replay_helpers.go). */
module Dag {
  import opened Common
  import opened Graph

  /** The state of hasCycle: the maps that its depth-first search mutates.  The ghost fields
      hold the search path and the order in which nodes were left. */
  class CycleSearch {
    const g: Workflow
    const children: map<NodeId, seq<NodeId>>
    var visited: set<NodeId>
    var stack: set<NodeId>
    ghost var trail: seq<NodeId>
    ghost var left: seq<NodeId>

    constructor (g: Workflow, children: map<NodeId, seq<NodeId>>)
      requires KnownEndpoints(g) && IndexesChildren(g, children)
      ensures Valid() && this.g == g && trail == [] && left == []
    {
      this.g, this.children := g, children;
      visited, stack, trail, left := {}, {}, [], [];
    }

    ghost predicate Valid()
      reads this
    {
      && KnownEndpoints(g) && IndexesChildren(g, children)
      && SearchState(g, visited, stack, trail, left)
    }

    /** One call of the recursive closure of the source. */
    method Dfs(node: NodeId) returns (found: bool)
      requires Valid() && node in g.nodes
      requires trail != [] ==> Edge(trail[|trail| - 1], node) in g.edges
      modifies this
      ensures found ==> Cyclic(g)
      ensures !found ==> Valid() && node in left && trail == old(trail) && old(left) <= left
      ensures !found ==> old(visited) <= visited
      decreases Elements(g.nodes) - visited
    {
      hide Linked, Downhill, IndexesChildren, KnownEndpoints, SearchState, Cyclic;
      Membership(g, visited, stack, trail, left, node);
      if node in stack {
        BackEdge(g, trail, node);
        return true;
      }
      if node in visited {
        return false;
      }
      Enter(g, visited, stack, trail, left, node);
      visited := visited + {node};
      stack := stack + {node};
      trail := trail + [node];
      var cs := ChildrenOf(g, children, node);
      for i := 0 to |cs|
        invariant Valid() && trail == old(trail) + [node] && old(left) <= left
        invariant old(visited) + {node} <= visited
        invariant forall j :: 0 <= j < i ==> cs[j] in left
      {
        Shrinks(g, old(visited), visited, node);
        found := Dfs(cs[i]);
        if found {
          return true;
        }
      }
      Leave(g, visited, stack, trail, left, node);
      stack := stack - {node};
      trail := trail[..|trail| - 1];
      left := left + [node];
      return false;
    }
  }

  ghost predicate SearchState(g: Workflow, visited: set<NodeId>, stack: set<NodeId>,
                              trail: seq<NodeId>, left: seq<NodeId>)
  {
    && stack == Elements(trail) && visited == stack + Elements(left) && stack !! Elements(left)
    && visited <= Elements(g.nodes) && UniqueIds(trail)
    && Linked(g, trail) && Downhill(g, left)
  }

  lemma Membership(g: Workflow, visited: set<NodeId>, stack: set<NodeId>,
                   trail: seq<NodeId>, left: seq<NodeId>, node: NodeId)
    requires SearchState(g, visited, stack, trail, left)
    ensures node in stack ==> node in trail && Linked(g, trail)
    ensures node in visited && node !in stack ==> node in left
  {
    hide Linked, Downhill;
  }

  /** The children that the search visits next. */
  method ChildrenOf(g: Workflow, children: map<NodeId, seq<NodeId>>, node: NodeId) returns (cs: seq<NodeId>)
    requires KnownEndpoints(g) && IndexesChildren(g, children) && node in g.nodes
    ensures cs == Children(g.edges, node)
    ensures forall c :: c in cs ==> c in g.nodes && Edge(node, c) in g.edges
  {
    cs := ChildrenIn(children, node);
    forall c | c in cs
      ensures c in g.nodes && Edge(node, c) in g.edges
    {
      ChildrenAreTargets(g.edges, node, c);
    }
  }

  lemma Shrinks(g: Workflow, before: set<NodeId>, visited: set<NodeId>, node: NodeId)
    requires node in g.nodes && node !in before && before + {node} <= visited
    ensures Elements(g.nodes) - visited < Elements(g.nodes) - before
  {
    assert node in Elements(g.nodes) - before;
  }

  /** An edge back into the search path closes a cycle. */
  lemma BackEdge(g: Workflow, trail: seq<NodeId>, node: NodeId)
    requires Linked(g, trail) && node in trail && Edge(trail[|trail| - 1], node) in g.edges
    ensures Cyclic(g)
  {
    var k :| 0 <= k < |trail| && trail[k] == node;
    assert IsCycle(g, trail[k..] + [node]);
  }

  lemma Enter(g: Workflow, visited: set<NodeId>, stack: set<NodeId>,
              trail: seq<NodeId>, left: seq<NodeId>, node: NodeId)
    requires SearchState(g, visited, stack, trail, left) && node in g.nodes && node !in visited
    requires trail != [] ==> Edge(trail[|trail| - 1], node) in g.edges
    ensures SearchState(g, visited + {node}, stack + {node}, trail + [node], left)
  {
    UniqueConcat(trail, [node]);
    assert Elements([node]) == {node};
  }

  lemma Leave(g: Workflow, visited: set<NodeId>, stack: set<NodeId>,
              trail: seq<NodeId>, left: seq<NodeId>, node: NodeId)
    requires SearchState(g, visited, stack, trail, left) && trail != [] && trail[|trail| - 1] == node
    requires forall c :: c in Children(g.edges, node) ==> c in left
    ensures SearchState(g, visited, stack - {node}, trail[..|trail| - 1], left + [node])
  {
    assert trail == trail[..|trail| - 1] + [node];
    UniqueConcat(trail[..|trail| - 1], [node]);
    assert Elements([node]) == {node};
    assert Elements(left + [node]) == Elements(left) + {node};
    DownhillExtends(g, left, node, Children(g.edges, node));
  }

  /** Every edge out of a node that was left leads to a node left before it. */
  ghost predicate Downhill(g: Workflow, left: seq<NodeId>) {
    forall e, i :: e in g.edges && 0 <= i < |left| && left[i] == e.from ==> e.to in left[..i]
  }

  lemma DownhillExtends(g: Workflow, left: seq<NodeId>, node: NodeId, cs: seq<NodeId>)
    requires Downhill(g, left) && cs == Children(g.edges, node)
    requires forall j :: 0 <= j < |cs| ==> cs[j] in left
    ensures Downhill(g, left + [node])
  {
    var longer := left + [node];
    forall e, i | e in g.edges && 0 <= i < |longer| && longer[i] == e.from
      ensures e.to in longer[..i]
    {
      if i < |left| {
        assert longer[..i] == left[..i];
      } else {
        assert e == Edge(node, e.to);
        ChildrenAreTargets(g.edges, node, e.to);
        assert longer[..i] == left;
      }
    }
  }

  lemma DownhillIsAcyclic(g: Workflow, left: seq<NodeId>)
    requires KnownEndpoints(g) && Downhill(g, left) && Elements(g.nodes) <= Elements(left)
    ensures !Cyclic(g)
  {
    var rank := map x | x in left :: |left| - IndexOf(left, x);
    forall e | e in g.edges
      ensures e.from in rank && e.to in rank && rank[e.from] < rank[e.to]
    {
      assert e.from in Elements(g.nodes) && e.to in Elements(g.nodes);
      var i := IndexOf(left, e.from);
      assert e.to in left[..i];
    }
    RankedIsAcyclic(g, rank);
  }

  /** hasCycle: true exactly when the edge relation has a cycle. */
  method HasCycle(g: Workflow) returns (found: bool)
    requires KnownEndpoints(g)
    ensures found <==> Cyclic(g)
  {
    var children := BuildChildren(g);
    var search := new CycleSearch(g, children);
    for i := 0 to |g.nodes|
      invariant search.Valid() && search.g == g && search.trail == []
      invariant forall j :: 0 <= j < i ==> g.nodes[j] in search.left
    {
      found := search.Dfs(g.nodes[i]);
      if found {
        return true;
      }
    }
    DownhillIsAcyclic(g, search.left);
    return false;
  }

  datatype GraphError = EmptyId | DuplicateId(id: NodeId) | UnknownNode(id: NodeId) | HasACycle

  ghost predicate Repeated(nodes: seq<NodeId>, id: NodeId) {
    exists i, j :: 0 <= i < j < |nodes| && nodes[i] == id && nodes[j] == id
  }

  /** Validate accepts exactly the acyclic graphs with non-empty, unique ids and known
      endpoints.  Errors of the nodes come before those of the edges, and a cycle comes last. */
  method Validate(g: Workflow) returns (err: Option<GraphError>)
    ensures err.None? <==> WellFormed(g) && "" !in g.nodes && !Cyclic(g)
    ensures err == Some(EmptyId) ==> "" in g.nodes
    ensures err.Some? && err.value.DuplicateId? ==> err.value.id != "" && Repeated(g.nodes, err.value.id)
    ensures (err.Some? && err.value.UnknownNode?) <==> UniqueIds(g.nodes) && "" !in g.nodes && !KnownEndpoints(g)
    ensures err.Some? && err.value.UnknownNode? ==>
              err.value.id !in g.nodes && exists e :: e in g.edges && (e.from == err.value.id || e.to == err.value.id)
    ensures err == Some(HasACycle) <==> WellFormed(g) && "" !in g.nodes && Cyclic(g)
  {
    var nodeSet: set<NodeId> := {};
    for i := 0 to |g.nodes|
      invariant nodeSet == Elements(g.nodes[..i])
      invariant "" !in g.nodes[..i] && UniqueIds(g.nodes[..i])
    {
      var n := g.nodes[i];
      assert g.nodes[..i + 1] == g.nodes[..i] + [n];
      if n == "" {
        return Some(EmptyId);
      }
      if n in nodeSet {
        ghost var k :| 0 <= k < i && g.nodes[..i][k] == n;
        assert g.nodes[k] == g.nodes[i];
        assert Repeated(g.nodes, n);
        return Some(DuplicateId(n));
      }
      nodeSet := nodeSet + {n};
    }
    assert g.nodes[..|g.nodes|] == g.nodes;
    for i := 0 to |g.edges|
      invariant forall j :: 0 <= j < i ==> g.edges[j].from in g.nodes && g.edges[j].to in g.nodes
    {
      var e := g.edges[i];
      if e.from !in nodeSet {
        return Some(UnknownNode(e.from));
      }
      if e.to !in nodeSet {
        return Some(UnknownNode(e.to));
      }
    }
    var cycle := HasCycle(g);
    if cycle {
      return Some(HasACycle);
    }
    return None;
  }

  // Topological order

  /** What the Kahn loop keeps: degrees count the open edges, the queue and the emitted
      order together hold exactly the nodes without open edges. */
  ghost predicate KahnState(g: Workflow, inDegree: map<NodeId, int>, queue: seq<NodeId>, ordered: seq<NodeId>) {
    && inDegree.Keys == Elements(g.nodes)
    && (forall n :: n in g.nodes ==> inDegree[n] == Open(g.edges, Elements(ordered), n))
    && UniqueIds(ordered + queue) && Elements(ordered + queue) <= Elements(g.nodes)
    && (forall n :: n in g.nodes ==> (n in ordered + queue <==> inDegree[n] == 0))
    && EdgesForward(g, ordered)
  }

  /** The in-degrees before the loop: one per incoming edge whose source is not done. */
  method CountInDegrees(g: Workflow, done: set<NodeId>) returns (inDegree: map<NodeId, int>)
    requires KnownEndpoints(g)
    ensures inDegree.Keys == Elements(g.nodes)
    ensures forall n :: n in g.nodes ==> inDegree[n] == Open(g.edges, done, n)
  {
    inDegree := map[];
    for i := 0 to |g.nodes|
      invariant inDegree.Keys == Elements(g.nodes[..i])
      invariant forall n :: n in inDegree ==> inDegree[n] == 0
    {
      assert g.nodes[..i + 1] == g.nodes[..i] + [g.nodes[i]];
      inDegree := inDegree[g.nodes[i] := 0];
    }
    assert g.nodes[..|g.nodes|] == g.nodes;
    for i := 0 to |g.edges|
      invariant inDegree.Keys == Elements(g.nodes)
      invariant forall n :: n in g.nodes ==> inDegree[n] == Open(g.edges[..i], done, n)
    {
      var e := g.edges[i];
      assert g.edges[..i + 1][..i] == g.edges[..i];
      assert e in g.edges && e.to in g.nodes;
      if e.from !in done {
        inDegree := inDegree[e.to := inDegree[e.to] + 1];
      }
    }
    assert g.edges[..|g.edges|] == g.edges;
  }

  /** The initial queue, in whatever order the map is walked. */
  method InitialQueue(inDegree: map<NodeId, int>, done: set<NodeId>) returns (queue: seq<NodeId>)
    ensures UniqueIds(queue)
    ensures forall n :: n in queue <==> n in inDegree && inDegree[n] == 0 && n !in done
  {
    queue := [];
    var rest := inDegree.Keys;
    while rest != {}
      invariant rest <= inDegree.Keys && UniqueIds(queue)
      invariant forall n :: n in queue <==> n in inDegree.Keys - rest && inDegree[n] == 0 && n !in done
      decreases |rest|
    {
      var id :| id in rest;
      if inDegree[id] == 0 && id !in done {
        queue := queue + [id];
      }
      rest := rest - {id};
    }
  }

  /** The inner loop, shared with the scheduler: every child that is not skipped loses one open
      edge per occurrence, and joins the queue when its last one goes. */
  method ReleaseChildren(cs: seq<NodeId>, skip: set<NodeId>, degrees: map<NodeId, int>, waiting: seq<NodeId>)
    returns (inDegree: map<NodeId, int>, queue: seq<NodeId>)
    requires forall i :: 0 <= i < |cs| ==> cs[i] in degrees
    requires forall n :: n in degrees && n !in skip ==> Occurrences(cs, n) <= degrees[n]
    ensures Released(cs, skip, degrees, waiting, inDegree, queue)
  {
    inDegree, queue := degrees, waiting;
    for i := 0 to |cs|
      invariant Released(cs[..i], skip, degrees, waiting, inDegree, queue)
    {
      var child := cs[i];
      assert cs[..i + 1][..i] == cs[..i];
      if child in skip {
        continue;
      }
      OccurrencesGrow(cs, i + 1, child);
      inDegree := inDegree[child := inDegree[child] - 1];
      if inDegree[child] == 0 {
        assert (queue + [child])[|waiting|..] == queue[|waiting|..] + [child];
        queue := queue + [child];
      }
    }
    assert cs[..|cs|] == cs;
  }

  ghost predicate Released(cs: seq<NodeId>, skip: set<NodeId>, degrees: map<NodeId, int>, waiting: seq<NodeId>,
                           inDegree: map<NodeId, int>, queue: seq<NodeId>)
  {
    && inDegree.Keys == degrees.Keys
    && (forall n :: n in degrees && n !in skip ==> inDegree[n] == degrees[n] - Occurrences(cs, n))
    && waiting <= queue && UniqueIds(queue[|waiting|..])
    && (forall n :: n in queue[|waiting|..] <==>
          n in degrees && n !in skip && degrees[n] > 0 && inDegree[n] == 0)
  }

  lemma OccurrencesGrow(s: seq<NodeId>, i: nat, x: NodeId)
    requires i <= |s|
    ensures Occurrences(s[..i], x) <= Occurrences(s, x)
    decreases |s| - i
  {
    if i == |s| {
      assert s[..i] == s;
    } else {
      assert s[..i + 1][..i] == s[..i];
      OccurrencesGrow(s, i + 1, x);
    }
  }

  /** Emitting the head of the queue. */
  lemma KahnEmits(g: Workflow, inDegree: map<NodeId, int>, queue: seq<NodeId>, ordered: seq<NodeId>)
    requires KnownEndpoints(g) && KahnState(g, inDegree, queue, ordered) && queue != []
    ensures var id := queue[0];
            var cs := Children(g.edges, id);
            && id !in ordered && id in g.nodes
            && Elements(ordered + [id]) == Elements(ordered) + {id}
            && EdgesForward(g, ordered + [id])
            && (forall i :: 0 <= i < |cs| ==> cs[i] in g.nodes)
            && (forall n :: n in g.nodes ==> Occurrences(cs, n) <= inDegree[n])
            && (forall n :: n in g.nodes ==>
                  inDegree[n] - Occurrences(cs, n) == Open(g.edges, Elements(ordered) + {id}, n))
  {
    var id := queue[0];
    var cs := Children(g.edges, id);
    assert (ordered + queue)[|ordered|] == id;
    assert id in Elements(ordered + queue);
    UniqueConcat(ordered, queue);
    assert id in Elements(queue);
    forall n | n in g.nodes
      ensures Occurrences(cs, n) <= inDegree[n]
      ensures inDegree[n] - Occurrences(cs, n) == Open(g.edges, Elements(ordered) + {id}, n)
    {
      OpenAfter(g.edges, Elements(ordered), id, n);
    }
    forall i | 0 <= i < |cs|
      ensures cs[i] in g.nodes
    {
      ChildrenAreTargets(g.edges, id, cs[i]);
      assert Edge(id, cs[i]) in g.edges;
    }
    OpenZero(g.edges, Elements(ordered), id);
    forall e, j | e in g.edges && 0 <= j < |ordered + [id]| && (ordered + [id])[j] == e.to
      ensures e.from in (ordered + [id])[..j]
    {
      if j < |ordered| {
        assert (ordered + [id])[..j] == ordered[..j];
      } else {
        assert (ordered + [id])[..j] == ordered;
      }
    }
  }

  /** Nothing left in the queue: whatever was not emitted is stuck in a cycle. */
  lemma KahnStuck(g: Workflow, inDegree: map<NodeId, int>, ordered: seq<NodeId>)
    requires KnownEndpoints(g) && KahnState(g, inDegree, [], ordered)
    requires Elements(ordered) != Elements(g.nodes)
    ensures Cyclic(g)
  {
    var u := Elements(g.nodes) - Elements(ordered);
    assert ordered + [] == ordered;
    forall n | n in u
      ensures HasPredecessor(g, u, n)
    {
      OpenZero(g.edges, Elements(ordered), n);
      var e :| e in g.edges && e.to == n && e.from !in Elements(ordered);
      assert e.from in u && e == Edge(e.from, n);
    }
    assert Elements(g.nodes) == Elements(ordered) + u;
    StuckIsCyclic(g, u);
  }

  lemma KahnStops(g: Workflow, inDegree: map<NodeId, int>, ordered: seq<NodeId>)
    requires WellFormed(g) && KahnState(g, inDegree, [], ordered)
    ensures if |ordered| == |g.nodes| then IsTopological(g, ordered) && !Cyclic(g) else Cyclic(g)
  {
    assert ordered + [] == ordered;
    DistinctFits(ordered, Elements(g.nodes));
    DistinctFits(g.nodes, Elements(g.nodes));
    SubsetSize(Elements(ordered), Elements(g.nodes));
    if |ordered| == |g.nodes| {
      TopologicalRanks(g, ordered);
      RankedIsAcyclic(g, RankOf(ordered));
    } else {
      KahnStuck(g, inDegree, ordered);
    }
  }

  lemma KahnContinues(g: Workflow, inDegree: map<NodeId, int>, queue: seq<NodeId>, ordered: seq<NodeId>,
                      inDegree': map<NodeId, int>, queue': seq<NodeId>)
    requires KnownEndpoints(g) && KahnState(g, inDegree, queue, ordered) && queue != []
    requires Released(Children(g.edges, queue[0]), {}, inDegree, queue[1..], inDegree', queue')
    ensures KahnState(g, inDegree', queue', ordered + [queue[0]])
  {
    KahnEmits(g, inDegree, queue, ordered);
    var id, added := queue[0], queue'[|queue| - 1..];
    assert queue' == queue[1..] + added;
    assert ordered + [id] + queue' == ordered + queue + added by {
      assert [id] + queue[1..] == queue;
    }
    UniqueConcat(ordered + queue, added);
  }

  /** TopologicalOrder: on success a permutation of the nodes along which every edge points
      forward; it fails exactly on graphs with a cycle. */
  method TopologicalOrder(g: Workflow) returns (order: Option<seq<NodeId>>)
    requires WellFormed(g)
    ensures order.Some? ==> IsTopological(g, order.value) && |order.value| == |g.nodes|
    ensures order.None? <==> Cyclic(g)
  {
    var inDegree := CountInDegrees(g, {});
    var children := BuildChildren(g);
    var queue := InitialQueue(inDegree, {});
    var ordered: seq<NodeId> := [];
    assert ordered + queue == queue;
    assert Elements(ordered) == {};
    while queue != []
      invariant KahnState(g, inDegree, queue, ordered)
      decreases |g.nodes| - |ordered|
    {
      KahnEmits(g, inDegree, queue, ordered);
      var id := queue[0];
      assert |ordered + [id]| <= |g.nodes| by {
        UniqueConcat(ordered, queue);
        UniqueConcat(ordered, [id]);
        DistinctFits(ordered + [id], Elements(g.nodes));
        DistinctFits(g.nodes, Elements(g.nodes));
      }
      var inDegree', queue' := ReleaseChildren(ChildrenIn(children, id), {}, inDegree, queue[1..]);
      KahnContinues(g, inDegree, queue, ordered, inDegree', queue');
      inDegree, queue := inDegree', queue';
      ordered := ordered + [id];
    }
    KahnStops(g, inDegree, ordered);
    if |ordered| != |g.nodes| {
      return None;
    }
    return Some(ordered);
  }

  // Downstream closure

  /** downstreamNodes: exactly the nodes reachable from the step, on every graph. */
  method DownstreamNodes(g: Workflow, fromStep: NodeId) returns (out: set<NodeId>)
    ensures forall n :: n in out <==> Reaches(g, fromStep, n)
  {
    var children := BuildChildren(g);
    out := {};
    var q := [fromStep];
    ghost var universe := {fromStep} + set e | e in g.edges :: e.to;
    ReachesSelf(g, fromStep);
    while q != []
      invariant out <= universe && Elements(q) <= universe
      invariant fromStep in out || fromStep in q
      invariant forall n :: n in out || n in q ==> Reaches(g, fromStep, n)
      invariant forall e :: e in g.edges && e.from in out ==> e.to in out || e.to in q
      decreases universe - out, |q|
    {
      var n := q[0];
      assert q == [n] + q[1..];
      assert n in Elements(q);
      q := q[1..];
      if n in out {
        continue;
      }
      out := out + {n};
      var cs := ChildrenIn(children, n);
      forall c | c in cs
        ensures c in universe && Reaches(g, fromStep, c)
      {
        ChildrenAreTargets(g.edges, n, c);
        assert Edge(n, c) in g.edges;
        ReachesStep(g, fromStep, n, c);
      }
      forall e | e in g.edges && e.from == n
        ensures e.to in cs
      {
        assert e == Edge(n, e.to);
        ChildrenAreTargets(g.edges, n, e.to);
      }
      q := q + cs;
    }
    forall n | Reaches(g, fromStep, n)
      ensures n in out
    {
      ClosedHoldsReachable(g, out, fromStep, n);
    }
  }
}
