/** The meaning of a workflow whose handlers are pure functions: every node's output is its
    handler applied to the outputs of its parents. */
module Semantics {
  import opened Graph

  type Json = string

  /** The input of a node: the run's own input for a root, the parents' outputs otherwise. */
  datatype Input = Initial(raw: Json) | Gathered(outputs: map<NodeId, Json>)

  type Handlers = (NodeId, Input) -> Json

  function Parents(g: Workflow, n: NodeId): set<NodeId> {
    set e | e in g.edges && e.to == n :: e.from
  }

  ghost predicate Sound(g: Workflow) {
    WellFormed(g) && !Cyclic(g)
  }

  /** The recursive evaluation, along any ranking of the graph. */
  ghost function MeaningBy(g: Workflow, h: Handlers, initial: Json, rank: map<NodeId, nat>, n: NodeId): Json
    requires Ranks(g, rank)
    decreases if n in rank then rank[n] else 0, 1
  {
    h(n, InputBy(g, h, initial, rank, n))
  }

  ghost function InputBy(g: Workflow, h: Handlers, initial: Json, rank: map<NodeId, nat>, n: NodeId): Input
    requires Ranks(g, rank)
    decreases if n in rank then rank[n] else 0, 0
  {
    if Parents(g, n) == {} then Initial(initial)
    else Gathered(map p | p in Parents(g, n) :: MeaningBy(g, h, initial, rank, p))
  }

  ghost function Ranking(g: Workflow): (rank: map<NodeId, nat>)
    requires Sound(g)
    ensures Ranks(g, rank)
  {
    SoundHasRanking(g);
    var rank :| Ranks(g, rank);
    rank
  }

  lemma SoundHasRanking(g: Workflow)
    requires Sound(g)
    ensures exists rank :: Ranks(g, rank)
  {
    var order := AcyclicHasOrder(g);
    TopologicalRanks(g, order);
  }

  ghost function Meaning(g: Workflow, h: Handlers, initial: Json, n: NodeId): Json
    requires Sound(g)
  {
    MeaningBy(g, h, initial, Ranking(g), n)
  }

  /** The input a node means to get. */
  ghost function MeaningInput(g: Workflow, h: Handlers, initial: Json, n: NodeId): Input
    requires Sound(g)
  {
    if Parents(g, n) == {} then Initial(initial)
    else Gathered(map p | p in Parents(g, n) :: Meaning(g, h, initial, p))
  }

  lemma MeaningUnfolds(g: Workflow, h: Handlers, initial: Json, n: NodeId)
    requires Sound(g)
    ensures Meaning(g, h, initial, n) == h(n, MeaningInput(g, h, initial, n))
  {
    var byRank := InputBy(g, h, initial, Ranking(g), n);
    if Parents(g, n) != {} {
      assert byRank.outputs == map p | p in Parents(g, n) :: Meaning(g, h, initial, p);
    }
  }

  /** An assignment of outputs that satisfies every node's equation. */
  ghost predicate Solves(g: Workflow, h: Handlers, initial: Json, m: map<NodeId, Json>)
    requires KnownEndpoints(g)
  {
    && m.Keys == Elements(g.nodes)
    && forall n :: n in g.nodes ==> m[n] == h(n, InputFrom(g, m, initial, n))
  }

  ghost function InputFrom(g: Workflow, m: map<NodeId, Json>, initial: Json, n: NodeId): Input {
    if Parents(g, n) == {} then Initial(initial)
    else Gathered(map p | p in Parents(g, n) :: if p in m then m[p] else "")
  }

  /** The meaning is the only solution of the equations. */
  lemma {:induction false} MeaningIsUnique(g: Workflow, h: Handlers, initial: Json, m: map<NodeId, Json>, n: NodeId)
    requires Sound(g) && Solves(g, h, initial, m) && n in g.nodes
    ensures m[n] == Meaning(g, h, initial, n)
    decreases if n in Ranking(g) then Ranking(g)[n] else 0
  {
    forall p | p in Parents(g, n)
      ensures p in m && m[p] == Meaning(g, h, initial, p)
    {
      var e :| e in g.edges && e.to == n && e.from == p;
      MeaningIsUnique(g, h, initial, m, p);
    }
    MeaningUnfolds(g, h, initial, n);
    assert (map p | p in Parents(g, n) :: if p in m then m[p] else "")
        == (map p | p in Parents(g, n) :: Meaning(g, h, initial, p));
  }

  /** And it is one. */
  lemma MeaningSolves(g: Workflow, h: Handlers, initial: Json)
    requires Sound(g)
    ensures Solves(g, h, initial, map n | n in g.nodes :: Meaning(g, h, initial, n))
  {
    var m := map n | n in g.nodes :: Meaning(g, h, initial, n);
    forall n | n in g.nodes
      ensures m[n] == h(n, InputFrom(g, m, initial, n))
    {
      MeaningUnfolds(g, h, initial, n);
      forall p | p in Parents(g, n)
        ensures p in m
      {
        var e :| e in g.edges && e.to == n && e.from == p;
      }
      assert (map p | p in Parents(g, n) :: if p in m then m[p] else "")
          == (map p | p in Parents(g, n) :: Meaning(g, h, initial, p));
    }
  }
}
