/** The calls of the broker as moves of the watermark machine: a cumulative acknowledgement, with
    whatever other calls come in between, begins, continues once for each offset, and ends; any
    other call is a stretch of steps.  So the theorems of Watermark hold of histories of calls. */
module WatermarkCalls {
  import opened Common
  import opened BrokerState
  import opened Delivery
  import opened WalReplay
  import opened Calls
  import opened CallFacts
  import opened Rounds
  import W = Watermark

  /** Each of the steps is allowed on the slot when its turn comes. */
  ghost predicate AllAllowed(cfg: Config, s: Slot, b: State, steps: seq<Step>) {
    forall i :: 0 <= i < |steps| && After(cfg, b, steps[..i]).Some? ==>
              W.Allowed(After(cfg, b, steps[..i]).value, s, steps[i])
  }

  /** A run that ends here. */
  ghost predicate RunTo(cfg: Config, s: Slot, worlds: seq<W.World>, moves: seq<W.Move>, w: W.World) {
    W.IsRun(cfg, s, worlds, moves) && |worlds| == |moves| + 1 && worlds[|moves|] == w
  }

  /** A move is added to a run. */
  lemma OneMore(cfg: Config, s: Slot, worlds: seq<W.World>, moves: seq<W.Move>, w: W.World, mv: W.Move, w': W.World)
    requires RunTo(cfg, s, worlds, moves, w) && W.Moves(cfg, s, w, mv, w')
    ensures RunTo(cfg, s, worlds + [w'], moves + [mv], w')
  {
    hide W.Moves;
    var worlds', moves' := worlds + [w'], moves + [mv];
    forall i | 0 <= i < |moves'|
      ensures W.Moves(cfg, s, worlds'[i], moves'[i], worlds'[i + 1])
    {
      assert i < |moves| ==> W.Moves(cfg, s, worlds[i], moves[i], worlds[i + 1]);
    }
  }

  lemma RunIsGood(cfg: Config, s: Slot, worlds: seq<W.World>, moves: seq<W.Move>, w: W.World)
    requires RunTo(cfg, s, worlds, moves, w)
    ensures W.Good(cfg, s, w)
  {
    W.WatermarkTheorem(cfg, s, worlds, moves, |moves|);
  }

  /** What the moves after a run may be: steps, or those of this call. */
  ghost predicate MovesOf(id: nat, begin: W.Move, moves: seq<W.Move>, moves': seq<W.Move>) {
    && moves <= moves'
    && forall k :: |moves| <= k < |moves'| ==> moves'[k].Do? || moves'[k] == begin || moves'[k] == W.Continue(id)
  }

  lemma MovesThen(id: nat, begin: W.Move, moves: seq<W.Move>, moves1: seq<W.Move>, moves2: seq<W.Move>)
    requires MovesOf(id, begin, moves, moves1)
    requires MovesOf(id, begin, moves1, moves2) || MovesOf(id, W.Continue(id), moves1, moves2)
    ensures MovesOf(id, begin, moves, moves2)
  {
  }

  lemma MovesOne(id: nat, begin: W.Move, moves: seq<W.Move>, mv: W.Move)
    requires mv.Do? || mv == begin || mv == W.Continue(id)
    ensures MovesOf(id, begin, moves, moves + [mv])
  {
  }

  lemma MovesSteps(id: nat, begin: W.Move, moves: seq<W.Move>, steps: seq<Step>)
    ensures MovesOf(id, begin, moves, moves + seq(|steps|, i requires 0 <= i < |steps| => W.Do(steps[i])))
  {
  }

  /** Any call that is not a cumulative acknowledgement: its steps, if they are allowed. */
  lemma {:induction false} StepsExtend(cfg: Config, s: Slot, worlds: seq<W.World>, moves: seq<W.Move>, w: W.World,
                                       steps: seq<Step>, b': State)
      returns (worlds': seq<W.World>, moves': seq<W.Move>)
    requires RunTo(cfg, s, worlds, moves, w) && Takes(cfg, w.b, steps, b') && AllAllowed(cfg, s, w.b, steps)
    ensures RunTo(cfg, s, worlds', moves', W.World(b', w.calls))
    ensures moves' == moves + seq(|steps|, i requires 0 <= i < |steps| => W.Do(steps[i]))
    decreases |steps|
  {
    hide Apply, Enabled, Paired, W.Moves, RunTo;
    if steps == [] {
      worlds', moves' := worlds, moves;
    } else {
      var front, last := steps[..|steps| - 1], steps[|steps| - 1];
      var mid := After(cfg, w.b, front).value;
      assert forall i :: 0 <= i < |front| ==> front[..i] == steps[..i];
      var worlds1, moves1 := StepsExtend(cfg, s, worlds, moves, w, front, mid);
      DoMoves(cfg, s, W.World(mid, w.calls), last, b');
      OneMore(cfg, s, worlds1, moves1, W.World(mid, w.calls), W.Do(last), W.World(b', w.calls));
      worlds', moves' := worlds1 + [W.World(b', w.calls)], moves1 + [W.Do(last)];
    }
  }

  lemma DoMoves(cfg: Config, s: Slot, w: W.World, step: Step, b': State)
    requires Paired(w.b) && Enabled(cfg, w.b, step) && W.Allowed(w.b, s, step) && b' == Apply(cfg, w.b, step)
    ensures W.Moves(cfg, s, w, W.Do(step), W.World(b', w.calls))
  {
    hide Apply, Enabled, Paired, W.Allowed;
  }

  /** Dispatch does nothing that is not allowed. */
  lemma DispatchAllowed(cfg: Config, s: Slot, b: State, topic: string, only: Option<nat>, steps: seq<Step>)
    requires TopicSteps(topic, only, steps)
    ensures AllAllowed(cfg, s, b, steps)
  {
    forall i | 0 <= i < |steps| && After(cfg, b, steps[..i]).Some?
      ensures W.Allowed(After(cfg, b, steps[..i]).value, s, steps[i])
    {
      assert TopicStep(topic, only, steps[i]);
    }
  }

  /** On such a slot no message in flight is keyed. */
  lemma NoKeys(cfg: Config, s: Slot, w: W.World, offset: int)
    requires W.Good(cfg, s, w) && offset in At(w.b, s).inflight
    ensures !Keyed(At(w.b, s).inflight[offset].msg)
  {
    hide Agrees, RowsAgree;
    AtKeepsInv(cfg, w.b, s);
    assert EntryInv(LogOf(w.b, s), offset, At(w.b, s).inflight[offset]);
    assert W.Plain(LogOf(w.b, s)[offset]);
  }

  /** One round of a cumulative call: steps of others, Continue, and the dispatch that follows. */
  lemma RoundExtends(cfg: Config, s: Slot, worlds: seq<W.World>, moves: seq<W.Move>, w: W.World, id: nat, round: Round)
      returns (worlds': seq<W.World>, moves': seq<W.Move>)
    requires RunTo(cfg, s, worlds, moves, w) && id in w.calls && w.calls[id].next <= w.calls[id].last
    requires OneRound(cfg, s, w.calls[id].owner, w.b, w.calls[id].next, round) && AllAllowed(cfg, s, w.b, round.others)
    ensures RunTo(cfg, s, worlds', moves',
                  W.World(round.done, w.calls[id := w.calls[id].(next := w.calls[id].next + 1)]))
    ensures MovesOf(id, W.Continue(id), moves, moves')
  {
    hide Apply, Enabled, Paired, W.Moves, W.Good, AllAllowed, Takes, RunTo, MovesOf;
    var c := w.calls[id];
    var worlds1, moves1 := StepsExtend(cfg, s, worlds, moves, w, round.others, round.ready);
    MovesSteps(id, W.Continue(id), moves, round.others);
    RunIsGood(cfg, s, worlds1, moves1, W.World(round.ready, w.calls));
    NoKeys(cfg, s, W.World(round.ready, w.calls), c.next);
    var ack, rest := Ack(s, c.next), round.acking[1..];
    assert round.acking == [ack] + rest;
    var mid := TakesSplit(cfg, round.ready, [ack], rest, round.done);
    TakesOneStep(cfg, round.ready, ack, mid);
    var w2 := W.World(mid, w.calls[id := c.(next := c.next + 1)]);
    ContinueMoves(cfg, s, W.World(round.ready, w.calls), id, mid);
    OneMore(cfg, s, worlds1, moves1, W.World(round.ready, w.calls), W.Continue(id), w2);
    MovesOne(id, W.Continue(id), moves1, W.Continue(id));
    DispatchAllowed(cfg, s, mid, s.topic, Some(s.partition), rest);
    var moves2 := moves1 + [W.Continue(id)];
    worlds', moves' := StepsExtend(cfg, s, worlds1 + [w2], moves2, w2, rest, round.done);
    MovesSteps(id, W.Continue(id), moves2, rest);
    MovesThen(id, W.Continue(id), moves, moves1, moves2);
    MovesThen(id, W.Continue(id), moves, moves2, moves');
  }

  lemma ContinueMoves(cfg: Config, s: Slot, w: W.World, id: nat, mid: State)
    requires id in w.calls && Paired(w.b) && w.calls[id].next <= w.calls[id].last
    requires Owns(w.b, s, w.calls[id].next, w.calls[id].owner)
    requires Enabled(cfg, w.b, Ack(s, w.calls[id].next)) && mid == Apply(cfg, w.b, Ack(s, w.calls[id].next))
    ensures W.Moves(cfg, s, w, W.Continue(id), W.World(mid, w.calls[id := w.calls[id].(next := w.calls[id].next + 1)]))
  {
    hide Apply, Enabled, Paired;
  }

  /** All that other calls do during a cumulative one is allowed. */
  ghost predicate OthersAllowed(cfg: Config, s: Slot, b: State, trace: Trace) {
    && (forall i :: 0 <= i < |trace.rounds| ==> AllAllowed(cfg, s, EndOf(b, trace.rounds[..i]), trace.rounds[i].others))
    && AllAllowed(cfg, s, EndOf(b, trace.rounds), trace.rest)
  }

  function Later(calls: map<nat, W.Call>, id: nat, n: nat): map<nat, W.Call>
    requires id in calls
  {
    calls[id := calls[id].(next := calls[id].next + n)]
  }

  /** The rounds, one after the other. */
  lemma {:induction false} RoundsExtend(cfg: Config, s: Slot, worlds: seq<W.World>, moves: seq<W.Move>, w: W.World,
                                        id: nat, rounds: seq<Round>)
      returns (worlds': seq<W.World>, moves': seq<W.Move>)
    requires RunTo(cfg, s, worlds, moves, w) && id in w.calls && w.calls[id].next + |rounds| <= w.calls[id].last + 1
    requires RoundsFrom(cfg, s, w.calls[id].owner, w.b, w.calls[id].next, rounds)
    requires forall i :: 0 <= i < |rounds| ==> AllAllowed(cfg, s, EndOf(w.b, rounds[..i]), rounds[i].others)
    ensures RunTo(cfg, s, worlds', moves', W.World(EndOf(w.b, rounds), Later(w.calls, id, |rounds|)))
    ensures MovesOf(id, W.Continue(id), moves, moves')
    decreases |rounds|
  {
    hide AllAllowed, OneRound, RunTo;
    if rounds == [] {
      worlds', moves' := worlds, moves;
      assert Later(w.calls, id, 0) == w.calls;
    } else {
      var front, last := rounds[..|rounds| - 1], rounds[|rounds| - 1];
      FrontRounds(cfg, s, w.calls[id].owner, w.b, w.calls[id].next, rounds);
      var worlds1, moves1 := RoundsExtend(cfg, s, worlds, moves, w, id, front);
      var w1 := W.World(EndOf(w.b, front), Later(w.calls, id, |front|));
      worlds', moves' := RoundExtends(cfg, s, worlds1, moves1, w1, id, last);
      assert Later(w1.calls, id, 1) == Later(w.calls, id, |rounds|);
      MovesThen(id, W.Continue(id), moves, moves1, moves');
    }
  }

  lemma FrontRounds(cfg: Config, s: Slot, owner: string, b: State, from: int, rounds: seq<Round>)
    requires rounds != [] && RoundsFrom(cfg, s, owner, b, from, rounds)
    ensures var front, last := rounds[..|rounds| - 1], rounds[|rounds| - 1];
            && RoundsFrom(cfg, s, owner, b, from, front)
              && OneRound(cfg, s, owner, EndOf(b, front), from + |front|, last)
            && (forall i :: 0 <= i < |front| ==> front[..i] == rounds[..i] && front[i] == rounds[i])
            && EndOf(b, rounds) == last.done
  {
    hide OneRound;
    var front := rounds[..|rounds| - 1];
    forall i | 0 <= i < |front|
      ensures OneRound(cfg, s, owner, EndOf(b, front[..i]), from + i, front[i])
    {
      assert front[..i] == rounds[..i];
    }
  }

  /** A cumulative acknowledgement whose check succeeded, whether it then acknowledges everything
      or gives up: it begins, continues once for each offset, and ends. */
  lemma CumulativeExtends(cfg: Config, s: Slot, worlds: seq<W.World>, moves: seq<W.Move>, w: W.World, id: nat,
                          owner: string, offset: int, trace: Trace, b': State, ok: bool)
      returns (worlds': seq<W.World>, moves': seq<W.Move>)
    requires RunTo(cfg, s, worlds, moves, w) && id !in w.calls && Checked(w.b, s, offset, owner)
    requires Traced(cfg, s, owner, Touched(w.b, s), At(w.b, s).committed + 1, offset, trace, b', ok)
    requires OthersAllowed(cfg, s, Touched(w.b, s), trace)
    ensures RunTo(cfg, s, worlds', moves', W.World(b', w.calls))
            && MovesOf(id, W.Begin(id, owner, offset), moves, moves')
  {
    hide RunTo, MovesOf, AllAllowed, Takes, RoundsFrom, Owns, OwnsRange;
    var begin, from, b1 := W.Begin(id, owner, offset), At(w.b, s).committed + 1, Touched(w.b, s);
    var worlds1, moves1 := BeginExtends(cfg, s, worlds, moves, w, id, owner, offset);
    var w1 := W.World(b1, w.calls[id := W.Call(owner, from, offset)]);
    var worlds2, moves2 := RoundsExtend(cfg, s, worlds1, moves1, w1, id, trace.rounds);
    var w2 := W.World(EndOf(b1, trace.rounds), Later(w1.calls, id, |trace.rounds|));
    worlds', moves' := EndExtends(cfg, s, worlds2, moves2, w2, id, trace.rest, b');
    assert w2.calls - {id} == w.calls;
    MovesThen(id, begin, moves, moves1, moves2);
    MovesThen(id, begin, moves, moves2, moves');
  }

  /** The check of the call. */
  lemma BeginExtends(cfg: Config, s: Slot, worlds: seq<W.World>, moves: seq<W.Move>, w: W.World, id: nat, owner: string,
                     offset: int)
      returns (worlds': seq<W.World>, moves': seq<W.Move>)
    requires RunTo(cfg, s, worlds, moves, w) && id !in w.calls && Checked(w.b, s, offset, owner)
    ensures var calls := w.calls[id := W.Call(owner, At(w.b, s).committed + 1, offset)];
            RunTo(cfg, s, worlds', moves', W.World(Touched(w.b, s), calls))
    ensures MovesOf(id, W.Begin(id, owner, offset), moves, moves')
  {
    hide RunTo, MovesOf, AllAllowed, Takes, W.Moves, W.Good, Owns;
    var begin, touch := W.Begin(id, owner, offset), TouchGroup(GroupId(s.topic, s.group));
    RunIsGood(cfg, s, worlds, moves, w);
    Touching(cfg, s, w);
    var worlds1, moves1 := StepsExtend(cfg, s, worlds, moves, w, [touch], Touched(w.b, s));
    MovesSteps(id, begin, moves, [touch]);
    var w1 := W.World(Touched(w.b, s), w.calls);
    var w2 := W.World(Touched(w.b, s), w.calls[id := W.Call(owner, At(w.b, s).committed + 1, offset)]);
    BeginMoves(cfg, s, w, w1, id, owner, offset);
    OneMore(cfg, s, worlds1, moves1, w1, begin, w2);
    MovesOne(id, begin, moves1, begin);
    worlds', moves' := worlds1 + [w2], moves1 + [begin];
    MovesThen(id, begin, moves, moves1, moves');
  }

  /** The end of the call: it has acknowledged everything, or it cannot go on. */
  lemma EndExtends(cfg: Config, s: Slot, worlds: seq<W.World>, moves: seq<W.Move>, w: W.World, id: nat,
                   rest: seq<Step>, b': State)
      returns (worlds': seq<W.World>, moves': seq<W.Move>)
    requires RunTo(cfg, s, worlds, moves, w) && id in w.calls && s.topic != "" && s.group != ""
    requires Takes(cfg, w.b, rest, b') && AllAllowed(cfg, s, w.b, rest)
    requires w.calls[id].next > w.calls[id].last
             || (Owns(b', s, w.calls[id].next, w.calls[id].owner) ==> Keyed(At(b', s).inflight[w.calls[id].next].msg))
    ensures RunTo(cfg, s, worlds', moves', W.World(b', w.calls - {id})) && MovesOf(id, W.Continue(id), moves, moves')
  {
    hide RunTo, MovesOf, AllAllowed, Takes, W.Moves, W.Good;
    var worlds1, moves1 := StepsExtend(cfg, s, worlds, moves, w, rest, b');
    MovesSteps(id, W.Continue(id), moves, rest);
    var w1, w2 := W.World(b', w.calls), W.World(b', w.calls - {id});
    RunIsGood(cfg, s, worlds1, moves1, w1);
    EndMoves(cfg, s, w1, id);
    OneMore(cfg, s, worlds1, moves1, w1, W.Continue(id), w2);
    MovesOne(id, W.Continue(id), moves1, W.Continue(id));
    worlds', moves' := worlds1 + [w2], moves1 + [W.Continue(id)];
    MovesThen(id, W.Continue(id), moves, moves1, moves');
  }

  lemma Touching(cfg: Config, s: Slot, w: W.World)
    requires W.Good(cfg, s, w) && Known(w.b, s)
    ensures Takes(cfg, w.b, [TouchGroup(GroupId(s.topic, s.group))], Touched(w.b, s))
    ensures AllAllowed(cfg, s, w.b, [TouchGroup(GroupId(s.topic, s.group))])
  {
    hide Agrees, RowsAgree;
    var gid := GroupId(s.topic, s.group);
    InvPaired(cfg, w.b);
    TouchFacts(cfg, w.b, gid);
    TakesOne(cfg, w.b, TouchGroup(gid));
  }

  lemma BeginMoves(cfg: Config, s: Slot, w: W.World, w1: W.World, id: nat, owner: string, offset: int)
    requires id !in w.calls && Checked(w.b, s, offset, owner) && w1 == W.World(Touched(w.b, s), w.calls)
    ensures W.Moves(cfg, s, w1, W.Begin(id, owner, offset),
                    W.World(w1.b, w1.calls[id := W.Call(owner, At(w.b, s).committed + 1, offset)]))
  {
    assert At(w1.b, s) == At(w.b, s);
    forall o | At(w.b, s).committed < o <= offset
      ensures W.Owned(At(w1.b, s), o, owner)
    {
      assert Owns(w.b, s, o, owner);
    }
  }

  lemma EndMoves(cfg: Config, s: Slot, w: W.World, id: nat)
    requires W.Good(cfg, s, w) && id in w.calls && s.topic != "" && s.group != ""
    requires w.calls[id].next > w.calls[id].last
             || (Owns(w.b, s, w.calls[id].next, w.calls[id].owner) ==> Keyed(At(w.b, s).inflight[w.calls[id].next].msg))
    ensures W.Moves(cfg, s, w, W.Continue(id), W.World(w.b, w.calls - {id}))
  {
    hide Agrees, RowsAgree, Keyed;
    InvPaired(cfg, w.b);
    var next := w.calls[id].next;
    if next in At(w.b, s).inflight {
      NoKeys(cfg, s, w, next);
      AtKeepsInv(cfg, w.b, s);
      assert EntryInv(LogOf(w.b, s), next, At(w.b, s).inflight[next]);
    }
  }
}
