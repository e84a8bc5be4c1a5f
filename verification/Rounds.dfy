/** Calls that let go of the lock between their sections (AckIfOwner, AckCumulativeIfOwner and
    flushPendingOffsets in internal/broker/broker.go): what other calls may do in between, and the
    trace that a cumulative acknowledgement leaves. */
module Rounds {
  import opened Common
  import opened Records
  import opened BrokerState
  import opened Delivery
  import opened WalReplay
  import opened Calls
  import opened CallFacts
  import I = Idempotency
  import BrokerRuns

  /** The steps are not those of a flush. */
  ghost predicate NoFlush(steps: seq<Step>) {
    forall i :: 0 <= i < |steps| ==> !steps[i].FlushTake? && !steps[i].FlushWrite? && !steps[i].FlushFail?
  }

  lemma MoreNoFlush(steps: seq<Step>, more: seq<Step>)
    requires NoFlush(steps) && NoFlush(more)
    ensures NoFlush(steps + more)
  {
  }

  lemma TopicNoFlush(topic: string, only: Option<nat>, steps: seq<Step>, from: nat)
    requires from <= |steps| && TopicSteps(topic, only, steps[from..]) && NoFlush(steps[..from])
    ensures NoFlush(steps)
  {
    forall i | from <= i < |steps|
      ensures !steps[i].FlushTake? && !steps[i].FlushWrite? && !steps[i].FlushFail?
    {
      assert TopicStep(topic, only, steps[from..][i - from]);
    }
    forall i | 0 <= i < from
      ensures !steps[i].FlushTake? && !steps[i].FlushWrite? && !steps[i].FlushFail?
    {
      assert steps[..from][i] == steps[i];
    }
  }

  lemma TickNoFlush(steps: seq<Step>)
    requires TickSteps(steps)
    ensures NoFlush(steps)
  {
    forall i | 0 <= i < |steps|
      ensures !steps[i].FlushTake? && !steps[i].FlushWrite? && !steps[i].FlushFail?
    {
      assert TickStep(steps[i]);
    }
  }

  /** Topics stay, with their partitions. */
  ghost predicate TopicsStay(b: State, b': State) {
    forall t :: t in b.topics ==> t in b'.topics && |b'.topics[t].logs| == |b.topics[t].logs|
  }

  lemma StepKeepsTopics(cfg: Config, b: State, step: Step)
    requires Paired(b) && Enabled(cfg, b, step)
    ensures TopicsStay(b, Apply(cfg, b, step))
  {
    if step.Produce? || step.Bury? {
      hide Apply, Enabled;
      AppendedRows(cfg, b, step);
    } else if !step.CreateTopic? && !step.EnsureDlq? {
      hide Apply, Enabled;
      QuietRows(cfg, b, step);
    }
  }

  lemma {:induction false} TakesTopics(cfg: Config, b: State, steps: seq<Step>, b': State)
    requires Takes(cfg, b, steps, b')
    ensures TopicsStay(b, b')
    decreases |steps|
  {
    hide Apply, Enabled, Paired;
    if steps != [] {
      var front, last := steps[..|steps| - 1], steps[|steps| - 1];
      var mid := After(cfg, b, front).value;
      TakesTopics(cfg, b, front, mid);
      StepKeepsTopics(cfg, mid, last);
    }
  }

  lemma StillKnown(b: State, b': State, s: Slot)
    requires TopicsStay(b, b') && Known(b, s)
    ensures Known(b', s)
  {
  }

  /** An acknowledgement and what dispatch makes of it. */
  ghost predicate AckShape(s: Slot, offset: int, steps: seq<Step>) {
    steps != [] && steps[0] == Ack(s, offset) && TopicSteps(s.topic, Some(s.partition), steps[1..])
  }

  /** One round of a cumulative call: other calls come first, then the owner, who has the entry in
      flight, acknowledges it. */
  datatype Round = Round(others: seq<Step>, ready: State, acking: seq<Step>, done: State)

  ghost predicate OneRound(cfg: Config, s: Slot, owner: string, b: State, offset: int, round: Round) {
    && Takes(cfg, b, round.others, round.ready) && Owns(round.ready, s, offset, owner)
    && Takes(cfg, round.ready, round.acking, round.done)
    && (!Keyed(At(round.ready, s).inflight[offset].msg) ==> AckShape(s, offset, round.acking))
  }

  function EndOf(b: State, rounds: seq<Round>): State {
    if rounds == [] then b else rounds[|rounds| - 1].done
  }

  /** The rounds follow each other, for one offset after the other. */
  ghost predicate RoundsFrom(cfg: Config, s: Slot, owner: string, b: State, from: int, rounds: seq<Round>) {
    forall i :: 0 <= i < |rounds| ==> OneRound(cfg, s, owner, EndOf(b, rounds[..i]), from + i, rounds[i])
  }

  /** A cumulative call after its check: its rounds, and what other calls did before it gave up. */
  datatype Trace = Trace(rounds: seq<Round>, rest: seq<Step>)

  const NO_TRACE: Trace := Trace([], [])

  ghost predicate Traced(cfg: Config, s: Slot, owner: string, b: State, from: int, offset: int, trace: Trace, b': State,
                         ok: bool)
  {
    && RoundsFrom(cfg, s, owner, b, from, trace.rounds)
    && Takes(cfg, EndOf(b, trace.rounds), trace.rest, b')
    && (if ok then |trace.rounds| == offset - from + 1 && trace.rest == []
        else |trace.rounds| < offset - from + 1
             && (Owns(b', s, from + |trace.rounds|, owner) ==> Keyed(At(b', s).inflight[from + |trace.rounds|].msg)))
  }

  /** Nobody else got in between. */
  ghost predicate Alone(trace: Trace) {
    trace.rest == [] && forall i :: 0 <= i < |trace.rounds| ==> trace.rounds[i].others == []
  }

  lemma NoRounds(cfg: Config, s: Slot, owner: string, b: State, from: int)
    ensures RoundsFrom(cfg, s, owner, b, from, []) && EndOf(b, []) == b && Alone(NO_TRACE)
  {
  }

  lemma NextRound(cfg: Config, s: Slot, owner: string, b: State, from: int, rounds: seq<Round>, round: Round)
    requires RoundsFrom(cfg, s, owner, b, from, rounds)
    requires OneRound(cfg, s, owner, EndOf(b, rounds), from + |rounds|, round)
    ensures RoundsFrom(cfg, s, owner, b, from, rounds + [round]) && EndOf(b, rounds + [round]) == round.done
  {
    hide OneRound;
    var rounds' := rounds + [round];
    forall i | 0 <= i < |rounds'|
      ensures OneRound(cfg, s, owner, EndOf(b, rounds'[..i]), from + i, rounds'[i])
    {
      assert i < |rounds| ==> rounds'[..i] == rounds[..i];
      assert i == |rounds| ==> rounds'[..i] == rounds;
    }
  }

  lemma SameOwner(b: State, b': State, s: Slot, offset: int, owner: string)
    requires b'.slots == b.slots && b'.topics == b.topics
    ensures Owns(b', s, offset, owner) <==> Owns(b, s, offset, owner)
    ensures At(b', s) == At(b, s)
  {
  }

  lemma UnregisterFacts(cfg: Config, b: State, gid: GroupId, i: nat)
    requires Paired(b) && gid in b.consumers && i < |b.consumers[gid]|
    ensures Enabled(cfg, b, Unregister(gid, i)) && Apply(cfg, b, Unregister(gid, i)) == Unregistered(b, gid, i)
  {
  }

  lemma UnregisteredLeases(b: State, gid: GroupId, i: nat)
    requires LeasesSet(b.consumers) && gid in b.consumers && i < |b.consumers[gid]|
    ensures LeasesSet(Unregistered(b, gid, i).consumers)
  {
  }

  // The log and the flush

  /** At most one record more, and no negative offset. */
  ghost predicate Longer(wal: seq<WalRecord>, wal': seq<WalRecord>) {
    || wal' == wal
    || (|wal'| == |wal| + 1 && wal' == wal + [wal'[|wal|]] && (wal'[|wal|].OffsetRecord? ==> wal'[|wal|].offset >= 0))
  }

  /** A step appends at most one record. */
  lemma StepLogs(cfg: Config, b: State, step: Step)
    requires Paired(b) && Enabled(cfg, b, step)
    ensures Longer(b.wal, Apply(cfg, b, step).wal)
  {
    if OnSlot(step) {
      hide Enabled, Apply, Moved;
      SlotStepIs(cfg, b, step);
    } else if step.Bury? {
      hide Enabled, Apply, LeaveSlot, DeadLetter, ToEntry, AppendTo;
      BuryIs(cfg, b, step);
    } else {
      hide I.Do, At, Slowest, Admits, ToEntry;
    }
  }

  function Logged(b: State, s: Slot): int
    requires Recovered(b.wal).Some?
  {
    LoggedOffset(Recovered(b.wal).value, s)
  }

  lemma LoggedGrows(b: State, b': State, s: Slot)
    requires Longer(b.wal, b'.wal)
    requires Recovered(b.wal).Some? && Recovered(b'.wal).Some?
    ensures Logged(b, s) <= Logged(b', s)
    ensures |b'.wal| == |b.wal| + 1 && b'.wal[|b.wal|].OffsetRecord? && b'.wal[|b.wal|].slot == s ==>
              Logged(b', s) >= b'.wal[|b.wal|].offset
  {
    hide AppendTo, FromEntry, Extend, NewTopic;
    if b'.wal != b.wal {
      RecoveredSnoc(b.wal, b'.wal[|b.wal|]);
    }
  }

  lemma StepKeepsTaken(cfg: Config, b: State, step: Step, s: Slot)
    requires Paired(b) && Enabled(cfg, b, step) && !step.FlushTake? && !step.FlushWrite? && !step.FlushFail?
    ensures At(Apply(cfg, b, step), s).taken == At(b, s).taken
  {
    if OnSlot(step) {
      hide Enabled, Apply, Moved;
      SlotStepIs(cfg, b, step);
      MovedKeepsTaken(cfg, b, step);
    } else if step.Bury? {
      BuryKeepsTaken(cfg, b, step, s);
    } else {
      hide I.Do, Slowest, Admits, ToEntry, AppendTo, NewTopic;
    }
  }

  lemma MovedKeepsTaken(cfg: Config, b: State, step: Step)
    requires OnSlot(step) && Able(b, step)
    ensures Moved(cfg, b, step).taken == At(b, step.slot).taken
  {
    hide NackLease, Again, Purge;
  }

  lemma BuryKeepsTaken(cfg: Config, b: State, step: Step, s: Slot)
    requires Paired(b) && Enabled(cfg, b, step) && step.Bury?
    ensures At(Apply(cfg, b, step), s).taken == At(b, s).taken
  {
    hide Enabled, Apply, DeadLetter, ToEntry, AppendTo, Purge;
    BuryIs(cfg, b, step);
  }

  /** Over any steps but those of a flush, what a flush has taken stays taken, and what the log
      holds of an offset never goes back. */
  lemma {:induction false} TakesLogs(cfg: Config, b: State, steps: seq<Step>, b': State, s: Slot)
    requires WalInv(cfg, b) && Takes(cfg, b, steps, b') && NoFlush(steps)
    ensures Recovered(b.wal).Some? && Recovered(b'.wal).Some? && Logged(b, s) <= Logged(b', s)
    ensures At(b', s).taken == At(b, s).taken
    decreases |steps|
  {
    hide WalInv, Enabled, Apply, Paired, At, Logged, Recovered;
    LogReplays(cfg, b);
    if steps != [] {
      var front, last := steps[..|steps| - 1], steps[|steps| - 1];
      var mid := After(cfg, b, front).value;
      TakesLogs(cfg, b, front, mid, s);
      TakesKeepsInv(cfg, b, steps, b');
      LogReplays(cfg, b');
      StepLogs(cfg, mid, last);
      LoggedGrows(mid, b', s);
      StepKeepsTaken(cfg, mid, last, s);
    }
  }

  /** Whatever a state had committed is logged by now, or taken and about to be. */
  ghost predicate Covered(b: State, goal: State)
    requires Recovered(b.wal).Some?
  {
    forall s :: Max(Logged(b, s), At(b, s).taken) >= At(goal, s).committed
  }

  lemma CoveredOnTake(cfg: Config, b: State, goal: State)
    requires WalInv(cfg, b) && forall s :: At(b, s).pending == -1 && At(goal, s).committed == At(b, s).committed
    ensures Recovered(b.wal).Some? && Covered(b, goal)
  {
    hide Inv, TopicsAgree, ItemsAgree, RetryOffsets, Recovered, RowsAgree;
    forall s
      ensures Max(Logged(b, s), At(b, s).taken) >= At(goal, s).committed
    {
      assert OffsetAgrees(LoggedOffset(Recovered(b.wal).value, s), At(b, s));
    }
  }

  lemma CoveredOnWrite(b: State, b': State, s: Slot, goal: State)
    requires Recovered(b.wal).Some? && Recovered(b'.wal).Some? && Covered(b, goal) && s in b.slots
    requires b'.slots == b.slots[s := b.slots[s].(taken := -1)]
    requires b'.wal == b.wal + [OffsetRecord(s, b.slots[s].taken)] && b.slots[s].taken >= 0
    ensures Covered(b', goal)
  {
    hide Recovered;
    forall u
      ensures Max(Logged(b', u), At(b', u).taken) >= At(goal, u).committed
    {
      LoggedGrows(b, b', u);
    }
  }

  lemma CoveredStays(cfg: Config, b: State, steps: seq<Step>, b': State, goal: State)
    requires WalInv(cfg, b) && Recovered(b.wal).Some? && Covered(b, goal) && Takes(cfg, b, steps, b') && NoFlush(steps)
    ensures Recovered(b'.wal).Some? && Covered(b', goal)
  {
    hide WalInv, Takes, NoFlush, Recovered, At, Logged;
    TakesLogs(cfg, b, steps, b', Slot("", "", 0));
    forall s
      ensures Max(Logged(b', s), At(b', s).taken) >= At(goal, s).committed
    {
      TakesLogs(cfg, b, steps, b', s);
    }
  }

  /** With nothing taken any more, all of it is logged. */
  lemma CoveredIsLogged(cfg: Config, b: State, goal: State, s: Slot)
    requires WalInv(cfg, b) && Recovered(b.wal).Some? && Covered(b, goal) && At(b, s).taken == -1
    ensures Logged(b, s) >= At(goal, s).committed
  {
    hide Inv, TopicsAgree, ItemsAgree, RetryOffsets, Recovered, RowsAgree;
    assert OffsetAgrees(LoggedOffset(Recovered(b.wal).value, s), At(b, s));
  }

  lemma SlotTaken(b: State, s: Slot)
    ensures At(b, s).taken >= 0 ==> s in b.slots && b.slots[s] == At(b, s)
  {
  }

  lemma IdemAny(cfg: Config, b: State, op: I.Op)
    requires I.WellScoped(op) && Addressed(op.k)
    ensures Enabled(cfg, b, Idem(op))
  {
  }

  lemma TakesNothing(cfg: Config, b: State, b': State)
    requires Takes(cfg, b, [], b')
    ensures b' == b
  {
  }

  lemma NoneNoFlush()
    ensures NoFlush([])
  {
  }

  lemma CreatedNoFlush(name: string, partitions: int, steps: seq<Step>)
    requires steps == [] || (partitions > 0 && steps == [CreateTopic(name, partitions, true)])
    ensures NoFlush(steps)
  {
  }

  /** A first step of the call's own, and then dispatch. */
  lemma FirstNoFlush(topic: string, steps: seq<Step>)
    requires steps == [] || ((steps[0].Produce? || steps[0].Ack? || steps[0].Register?)
                             && exists only :: TopicSteps(topic, only, steps[1..]))
    ensures NoFlush(steps)
  {
    if steps != [] {
      var only :| TopicSteps(topic, only, steps[1..]);
      TopicNoFlush(topic, only, steps, 1);
    }
  }

  lemma MadeDueNoFlush(steps: seq<Step>)
    requires steps != [] && steps[0].Nack? && TickSteps(steps[1..])
    ensures NoFlush(steps)
  {
    forall i | 1 <= i < |steps|
      ensures !steps[i].FlushTake? && !steps[i].FlushWrite? && !steps[i].FlushFail?
    {
      assert TickStep(steps[1..][i - 1]);
    }
  }

  /** The owner has everything above the committed offset in flight, up to this one. */
  ghost predicate Checked(b: State, s: Slot, offset: int, owner: string) {
    Known(b, s) && offset > At(b, s).committed && OwnsRange(b, s, At(b, s).committed + 1, offset, owner)
  }

  /** The check of a cumulative call makes the group's offset map. */
  function Touched(b: State, s: Slot): State {
    b.(groups := b.groups + {GroupId(s.topic, s.group)})
  }

  lemma RangeHead(b: State, s: Slot, lo: int, hi: int, owner: string)
    requires OwnsRange(b, s, lo, hi, owner) && PlainRange(b, s, lo, hi) && lo <= hi
    ensures Owns(b, s, lo, owner) && !Keyed(At(b, s).inflight[lo].msg)
  {
  }

  lemma AloneEarlier(trace: Trace, round: Round)
    requires Alone(trace.(rounds := trace.rounds + [round]))
    ensures Alone(trace) && round.others == []
  {
    var rounds := trace.rounds + [round];
    assert rounds[|trace.rounds|] == round;
    forall i | 0 <= i < |trace.rounds|
      ensures trace.rounds[i].others == []
    {
      assert rounds[i] == trace.rounds[i];
    }
  }

  lemma SameTaken(cfg: Config, b: State, steps: seq<Step>, b': State)
    requires WalInv(cfg, b) && Takes(cfg, b, steps, b') && NoFlush(steps)
    ensures forall s :: At(b', s).taken == At(b, s).taken
  {
    hide WalInv, Takes, NoFlush, At;
    forall s
      ensures At(b', s).taken == At(b, s).taken
    {
      TakesLogs(cfg, b, steps, b', s);
    }
  }

  lemma TakenFirst(b: State, todo: set<Slot>)
    requires todo == set s | s in b.slots && b.slots[s].taken >= 0
    ensures TakenAre(b, todo)
  {
  }

  lemma OneLessTaken(b: State, b': State, s: Slot)
    requires s in b.slots && b'.slots == b.slots[s := b.slots[s].(taken := -1)]
    ensures forall u :: At(b', u).taken == if u == s then -1 else At(b, u).taken
    ensures forall u :: u in b'.slots ==> u in b.slots && b'.slots[u].pending == b.slots[u].pending
  {
  }

  lemma NothingTaken(b: State)
    requires forall s :: At(b, s).taken < 0
    requires forall s :: s in b.slots ==> b.slots[s].taken >= -1
    ensures forall s :: At(b, s).taken == -1
    ensures forall s :: s in b.slots ==> b.slots[s].taken == -1
  {
    forall s | s in b.slots
      ensures b.slots[s].taken == -1
    {
      assert b.slots[s] == At(b, s);
    }
  }

  lemma RoundStart(cfg: Config, s: Slot, owner: string, b: State, offset: int, round: Round)
    requires OneRound(cfg, s, owner, b, offset, round) && round.others == []
    ensures round.ready == b
  {
  }

  /** The slots whose offset a flush has taken. */
  ghost predicate TakenAre(b: State, todo: set<Slot>) {
    forall s :: At(b, s).taken >= 0 <==> s in todo
  }

  ghost predicate NonePending(b: State) {
    forall s :: s in b.slots ==> b.slots[s].pending == -1
  }

  ghost predicate NoneTaken(b: State) {
    forall s :: s in b.slots ==> b.slots[s].taken == -1
  }

  lemma TakenStill(b: State, b': State, todo: set<Slot>)
    requires TakenAre(b, todo) && forall s :: At(b', s).taken == At(b, s).taken
    ensures TakenAre(b', todo)
  {
    hide At;
  }

  lemma TakenBut(b: State, b': State, todo: set<Slot>, s: Slot)
    requires TakenAre(b, todo) && forall u :: At(b', u).taken == if u == s then -1 else At(b, u).taken
    ensures TakenAre(b', todo - {s})
  {
    hide At;
  }

  /** With nothing taken any more, all of it is logged. */
  lemma AllCovered(cfg: Config, b: State, goal: State)
    requires WalInv(cfg, b) && Recovered(b.wal).Some? && Covered(b, goal) && TakenAre(b, {})
    ensures NoneTaken(b) && forall s :: LoggedOffset(Recovered(b.wal).value, s) >= At(goal, s).committed
  {
    hide WalInv, Covered, Recovered;
    TakenIsOffset(cfg, b);
    NothingTaken(b);
    forall s
      ensures LoggedOffset(Recovered(b.wal).value, s) >= At(goal, s).committed
    {
      CoveredIsLogged(cfg, b, goal, s);
    }
  }

  lemma RegisteredNoFlush(gid: GroupId, c: Consumer)
    ensures NoFlush([Register(gid, c)])
  {
  }

  lemma DispatchedNoFlush(topic: string, steps: seq<Step>)
    requires TopicSteps(topic, None, steps)
    ensures NoFlush(steps)
  {
    assert steps[0..] == steps;
    TopicNoFlush(topic, None, steps, 0);
  }

  lemma TouchedNoFlush(gid: GroupId)
    ensures NoFlush([TouchGroup(gid)])
  {
  }

  // Keyed messages

  /** The step commits the message's key for its owner. */
  predicate CommitsKey(s: Slot, m: Message, owner: string, step: Step) {
    step.Idem? && step.op.OpCommitIfOwner? && step.op.k == ConsumeKey(s, m) && step.op.worker == owner
  }

  /** The first step was a commit of the key; the store did not know it, or it is committed. */
  ghost predicate CommittedOrUnknown(cfg: Config, b: State, s: Slot, m: Message, owner: string,
                                     steps: seq<Step>, b': State)
  {
    && steps != [] && CommitsKey(s, m, owner, steps[0])
    && (I.Do(b.items, cfg.ttl, steps[0].op).reply == I.NotFound || DoneFor(b', s, m))
  }

  /** The first step tried to commit the key, and the call succeeds if the work was done, or if the
      owner's lease ran then and the log does not refuse. */
  ghost predicate MayCommit(env: Env, b: State, s: Slot, m: Message, owner: string, steps: seq<Step>,
                            err: Option<Error>)
  {
    && steps != [] && CommitsKey(s, m, owner, steps[0])
    && (DoneFor(b, s, m) ==> err.None?)
    && (I.Runs(b.items, ConsumeKey(s, m), I.Named(owner), steps[0].op.now) && !LogRefuses(env) ==> err.None?)
  }

  /** What is done for a group stays done. */
  lemma {:induction false} TakesKeepsDone(cfg: Config, b: State, steps: seq<Step>, b': State, s: Slot, m: Message)
    requires Takes(cfg, b, steps, b') && DoneFor(b, s, m)
    ensures DoneFor(b', s, m)
    decreases |steps|
  {
    hide Apply, Enabled, Paired;
    if steps != [] {
      var front, last := steps[..|steps| - 1], steps[|steps| - 1];
      var mid := After(cfg, b, front).value;
      TakesKeepsDone(cfg, b, front, mid, s, m);
      BrokerRuns.StepKeepsCommitted(cfg, mid, last, ConsumeKey(s, m));
    }
  }
}
