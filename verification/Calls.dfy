/** What one call of the broker does to the state machine: a stretch of steps.  Every call of the
    class in Broker.dfy returns the steps it took, so that whatever holds of every run of the
    machine (BrokerRuns) holds of every history of calls, and whatever holds of every run of the
    watermark machine (Watermark) of every history of calls that it allows (WatermarkCalls). */
module Calls {
  import opened Common
  import opened BrokerState
  import opened Delivery
  import opened WalReplay
  import BrokerRuns

  /** The state after the steps, if each of them is possible when its turn comes. */
  ghost function After(cfg: Config, b: State, steps: seq<Step>): Option<State> {
    if steps == [] then Some(b)
    else
      var mid := After(cfg, b, steps[..|steps| - 1]);
      if mid.Some? && Paired(mid.value) && Enabled(cfg, mid.value, steps[|steps| - 1])
      then Some(Apply(cfg, mid.value, steps[|steps| - 1])) else None
  }

  ghost predicate Takes(cfg: Config, b: State, steps: seq<Step>, b': State) {
    After(cfg, b, steps) == Some(b')
  }

  lemma TakesNone(cfg: Config, b: State)
    ensures Takes(cfg, b, [], b)
  {
  }

  lemma TakesOneMore(cfg: Config, b: State, steps: seq<Step>, mid: State, step: Step)
    requires Takes(cfg, b, steps, mid) && Paired(mid) && Enabled(cfg, mid, step)
    ensures Takes(cfg, b, steps + [step], Apply(cfg, mid, step))
  {
    hide Apply, Enabled, Paired;
    assert (steps + [step])[..|steps + [step]| - 1] == steps;
  }

  lemma TakesOne(cfg: Config, b: State, step: Step)
    requires Paired(b) && Enabled(cfg, b, step)
    ensures Takes(cfg, b, [step], Apply(cfg, b, step))
  {
    hide Apply, Enabled, Paired;
    TakesNone(cfg, b);
    TakesOneMore(cfg, b, [], b, step);
    assert [] + [step] == [step];
  }

  lemma {:induction false} TakesMore(cfg: Config, b: State, xs: seq<Step>, mid: State, ys: seq<Step>, b': State)
    requires Takes(cfg, b, xs, mid) && Takes(cfg, mid, ys, b')
    ensures Takes(cfg, b, xs + ys, b')
    decreases |ys|
  {
    hide Apply, Enabled, Paired;
    if ys == [] {
      assert xs + ys == xs;
    } else {
      var front, last := ys[..|ys| - 1], ys[|ys| - 1];
      var before := After(cfg, mid, front).value;
      TakesMore(cfg, b, xs, mid, front, before);
      assert (xs + ys)[..|xs + ys| - 1] == xs + front;
    }
  }

  /** A stretch of steps keeps all invariants. */
  lemma {:induction false} TakesKeepsInv(cfg: Config, b: State, steps: seq<Step>, b': State)
    requires WalInv(cfg, b) && Takes(cfg, b, steps, b')
    ensures WalInv(cfg, b')
    decreases |steps|
  {
    hide Apply, Enabled, Inv, Agrees, RowsAgree;
    if steps != [] {
      var front, last := steps[..|steps| - 1], steps[|steps| - 1];
      var mid := After(cfg, b, front).value;
      TakesKeepsInv(cfg, b, front, mid);
      StepKeepsInv(cfg, mid, last);
      StepAgrees(cfg, mid, last);
      StepKeepsRows(cfg, mid, last);
    }
  }

  /** A run of the machine goes on with the steps of a call. */
  lemma {:induction false} CallsExtendRuns(cfg: Config, states: seq<State>, moves: seq<BrokerRuns.Move>,
                                           steps: seq<Step>, b': State)
      returns (states': seq<State>, moves': seq<BrokerRuns.Move>)
    requires BrokerRuns.IsRun(cfg, states, moves) && Takes(cfg, states[|moves|], steps, b')
    ensures BrokerRuns.IsRun(cfg, states', moves') && states <= states' && states'[|moves'|] == b'
    ensures moves' == moves + seq(|steps|, i requires 0 <= i < |steps| => BrokerRuns.Do(steps[i]))
    decreases |steps|
  {
    hide Apply, Enabled, Paired;
    if steps == [] {
      states', moves' := states, moves;
    } else {
      var front, last := steps[..|steps| - 1], steps[|steps| - 1];
      var mid := After(cfg, states[|moves|], front).value;
      var states1, moves1 := CallsExtendRuns(cfg, states, moves, front, mid);
      states', moves' := states1 + [b'], moves1 + [BrokerRuns.Do(last)];
      forall i | 0 <= i < |moves'|
        ensures BrokerRuns.Moves(cfg, states'[i], moves'[i], states'[i + 1])
      {
        assert i < |moves1| ==> BrokerRuns.Moves(cfg, states1[i], moves1[i], states1[i + 1]);
      }
    }
  }

  /** Within a stretch nothing is taken back: not the committed offset, not the cursor, not what
      was sent or has gone. */
  lemma {:induction false} TakesForward(cfg: Config, b: State, steps: seq<Step>, b': State, s: Slot)
    requires WalInv(cfg, b) && Takes(cfg, b, steps, b')
    ensures BrokerRuns.SlotForward(At(b, s), At(b', s))
    decreases |steps|
  {
    hide Apply, Enabled, Inv, Agrees, BrokerRuns.SlotForward, At;
    if steps == [] {
      BrokerRuns.SlotForwardSelf(At(b, s));
    } else {
      var front, last := steps[..|steps| - 1], steps[|steps| - 1];
      var mid := After(cfg, b, front).value;
      TakesForward(cfg, b, front, mid, s);
      TakesKeepsInv(cfg, b, front, mid);
      BrokerRuns.StepForward(cfg, mid, last, s);
      BrokerRuns.SlotForwardTransitive(At(b, s), At(mid, s), At(b', s));
    }
  }

  /** A stretch can be cut anywhere. */
  lemma {:induction false} TakesSplit(cfg: Config, b: State, xs: seq<Step>, ys: seq<Step>, b': State)
      returns (mid: State)
    requires Takes(cfg, b, xs + ys, b')
    ensures Takes(cfg, b, xs, mid) && Takes(cfg, mid, ys, b')
    decreases |ys|
  {
    hide Apply, Enabled, Paired;
    if ys == [] {
      assert xs + ys == xs;
      mid := b';
    } else {
      var front, last := ys[..|ys| - 1], ys[|ys| - 1];
      assert (xs + ys)[..|xs + ys| - 1] == xs + front;
      var before := After(cfg, b, xs + front).value;
      mid := TakesSplit(cfg, b, xs, front, before);
    }
  }

  lemma TakesOneStep(cfg: Config, b: State, step: Step, b': State)
    requires Takes(cfg, b, [step], b')
    ensures Paired(b) && Enabled(cfg, b, step) && b' == Apply(cfg, b, step)
  {
    hide Apply, Enabled, Paired;
    var front := [step][..|[step]| - 1];
    assert front == [];
    assert After(cfg, b, front) == Some(b);
  }
}
