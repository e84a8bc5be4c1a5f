/** Whole runs of the broker: any sequence of steps from the empty broker, with crashes and
    restarts from the log anywhere between them. */
module BrokerRuns {
  import opened Common
  import opened Backoff
  import opened Records
  import opened PartitionLog
  import opened BrokerState
  import opened Delivery
  import opened WalReplay
  import I = Idempotency

  datatype Move = Do(step: Step) | Crash(now: int)

  ghost predicate Moves(cfg: Config, b: State, mv: Move, b': State) {
    match mv
    case Do(step) => Paired(b) && Enabled(cfg, b, step) && b' == Apply(cfg, b, step)
    case Crash(now) => Recovered(b.wal).Some? && b' == Rebuilt(Recovered(b.wal).value, b.wal, now)
  }

  ghost predicate IsRun(cfg: Config, states: seq<State>, moves: seq<Move>) {
    && |states| == |moves| + 1 && states[0] == INITIAL
    && forall i :: 0 <= i < |moves| ==> Moves(cfg, states[i], moves[i], states[i + 1])
  }

  lemma InitialInv(cfg: Config)
    ensures WalInv(cfg, INITIAL)
  {
    assert Recovered(INITIAL.wal) == Some(NOTHING);
    assert IdemLog(INITIAL.wal) == [];
    assert I.Restored([]) == map[];
    assert CanonicalLog([]) == [];
  }

  lemma MoveKeepsInv(cfg: Config, b: State, mv: Move, b': State)
    requires WalInv(cfg, b) && Moves(cfg, b, mv, b')
    ensures WalInv(cfg, b')
  {
    hide Inv, Agrees, RowsAgree, Enabled, Apply, Rebuilt, RestartFaithful, SameMessages;
    match mv
    case Do(step) =>
      StepKeepsInv(cfg, b, step);
      StepAgrees(cfg, b, step);
      StepKeepsRows(cfg, b, step);
    case Crash(now) => RestartAgrees(cfg, b, now);
  }

  /** Every state of every run satisfies the delivery and the log invariants. */
  lemma {:induction false} RunInv(cfg: Config, states: seq<State>, moves: seq<Move>, i: nat)
    requires IsRun(cfg, states, moves) && i <= |moves|
    ensures WalInv(cfg, states[i])
  {
    hide WalInv, Moves;
    if i == 0 {
      InitialInv(cfg);
    } else {
      RunInv(cfg, states, moves, i - 1);
      MoveKeepsInv(cfg, states[i - 1], moves[i - 1], states[i]);
    }
  }

  // Delivery

  /** What a slot never takes back within one process. */
  ghost predicate SlotForward(ss: SlotState, ss': SlotState) {
    && ss.committed <= ss'.committed
    && (ss.next.Some? ==> ss'.next.Some? && ss.next.value <= ss'.next.value && ss'.start == ss.start)
    && ss.sent <= ss'.sent
    && (forall o :: o in ss.gone ==> o in ss'.gone && ss'.gone[o] == ss.gone[o])
  }

  lemma SlotForwardTransitive(a: SlotState, b: SlotState, c: SlotState)
    requires SlotForward(a, b) && SlotForward(b, c)
    ensures SlotForward(a, c)
  {
  }

  /** The slot transitions only go forward. */
  lemma PassForward(ss: SlotState, offset: int, why: Exit)
    requires Partitioned(ss) && ss.next.Some? && offset == ss.next.value
    ensures SlotForward(ss, Pass(ss, offset, why))
  {
  }

  lemma LeaveForward(ss: SlotState, offset: int, why: Exit)
    requires Partitioned(ss)
    ensures offset in ss.inflight ==> SlotForward(ss, LeaveSlot(ss, offset, why))
    ensures SlotForward(ss, AckSlot(ss, offset))
  {
  }

  lemma SlotStepForward(cfg: Config, b: State, step: Step)
    requires OnSlot(step) && Inv(cfg, b) && Paired(b) && Enabled(cfg, b, step)
    ensures SlotForward(At(b, step.slot), At(Apply(cfg, b, step), step.slot))
  {
    hide Inv, Apply, Enabled, SlotForward, Moved;
    SlotStepIs(cfg, b, step);
    if step.Skip? || step.SendSimple? || step.Ack? || step.Settle? {
      LeaveStepForward(cfg, b, step);
    } else {
      StayStepForward(cfg, b, step);
    }
  }

  lemma LeaveStepForward(cfg: Config, b: State, step: Step)
    requires step.Skip? || step.SendSimple? || step.Ack? || step.Settle?
    requires Inv(cfg, b) && Able(b, step)
    ensures SlotForward(At(b, step.slot), Moved(cfg, b, step))
  {
    hide Inv, SlotForward, EntryInv, ExitInv, Partitioned, FirstsIncrease, Pass, AckSlot, LeaveSlot;
    var s := step.slot;
    var ss := At(b, s);
    AtKeepsInv(cfg, b, s);
    if step.Skip? {
      PassForward(ss, Head(b, s).offset, SkippedDone);
    } else if step.SendSimple? {
      PassForward(ss, Head(b, s).offset, AutoCommitted);
    } else if step.Ack? {
      LeaveForward(ss, step.offset, Acked);
    } else {
      LeaveForward(ss, step.offset, SettledDone);
    }
  }

  lemma StayStepForward(cfg: Config, b: State, step: Step)
    requires step.Init? || step.Send? || step.Note? || step.Nack? || step.Redeliver?
    requires Inv(cfg, b) && Able(b, step)
    ensures SlotForward(At(b, step.slot), Moved(cfg, b, step))
  {
    hide Inv, NackLease, Again, EntryInv, ExitInv, FirstsIncrease;
    AtKeepsInv(cfg, b, step.slot);
  }

  lemma BuryForward(cfg: Config, b: State, step: Step)
    requires Inv(cfg, b) && Paired(b) && Enabled(cfg, b, step) && step.Bury?
    ensures SlotForward(At(b, step.slot), At(Apply(cfg, b, step), step.slot))
    ensures forall u :: u != step.slot ==> At(Apply(cfg, b, step), u) == At(b, u)
  {
    hide Inv, SlotInv, SlotForward, Enabled, Apply, LeaveSlot, AppendTo, DeadLetter, ToEntry;
    BuryIs(cfg, b, step);
    AtKeepsInv(cfg, b, step.slot);
    BuryPartitioned(cfg, LogOf(b, step.slot), At(b, step.slot));
    LeaveForward(At(b, step.slot), step.offset, DeadLettered(At(b, step.slot).inflight[step.offset].attempts));
  }

  lemma BuryPartitioned(cfg: Config, log: Log, ss: SlotState)
    requires SlotInv(cfg, log, ss)
    ensures Partitioned(ss)
  {
  }

  lemma FlushForward(cfg: Config, b: State, step: Step, s: Slot)
    requires Paired(b) && Enabled(cfg, b, step) && (step.FlushTake? || step.FlushWrite? || step.FlushFail?)
    ensures SlotForward(At(b, s), At(Apply(cfg, b, step), s))
  {
  }

  /** The cursor never moves back, what was sent stays sent, what is gone stays gone. */
  lemma StepForward(cfg: Config, b: State, step: Step, s: Slot)
    requires Inv(cfg, b) && Paired(b) && Enabled(cfg, b, step)
    ensures SlotForward(At(b, s), At(Apply(cfg, b, step), s))
  {
    if OnSlot(step) {
      hide Inv, SlotForward, Enabled, Apply;
      OtherSlotsSame(cfg, b, step);
      SlotStepForward(cfg, b, step);
      SlotForwardSelf(At(b, s));
    } else if step.Bury? {
      hide Inv, SlotForward, Enabled, Apply;
      BuryForward(cfg, b, step);
      SlotForwardSelf(At(b, s));
    } else if step.FlushTake? || step.FlushWrite? || step.FlushFail? {
      hide Inv, SlotForward, Enabled, Apply;
      FlushForward(cfg, b, step, s);
    } else {
      hide SlotForward, I.Do, Slowest, Admits, AppendTo, ToEntry, NewTopic, Inv;
      SlotForwardSelf(At(b, s));
    }
  }

  lemma SlotForwardSelf(ss: SlotState)
    ensures SlotForward(ss, ss)
  {
  }

  ghost predicate NoCrash(moves: seq<Move>, i: nat, j: nat) {
    forall k :: i <= k < j && k < |moves| ==> moves[k].Do?
  }

  /** Within one process: the cursor only moves forward, dispatch first-delivers each offset at
      most once and in increasing order, every offset from the start of the cursor up to the
      cursor is in flight or gone and never both, and in-flight entries are below the cursor and
      within the limit. */
  lemma {:induction false} DeliveryTheorem(cfg: Config, states: seq<State>, moves: seq<Move>, i: nat, j: nat, s: Slot)
    requires IsRun(cfg, states, moves) && i <= j <= |moves| && NoCrash(moves, i, j)
    ensures SlotForward(At(states[i], s), At(states[j], s))
    ensures SlotInv(cfg, LogOf(states[j], s), At(states[j], s))
    decreases j - i
  {
    hide SlotInv, SlotForward, Agrees, Enabled, Apply;
    RunInv(cfg, states, moves, j);
    AtKeepsInv(cfg, states[j], s);
    if i == j {
      SlotForwardSelf(At(states[i], s));
    } else {
      DeliveryTheorem(cfg, states, moves, i, j - 1, s);
      RunInv(cfg, states, moves, j - 1);
      assert moves[j - 1].Do? && Moves(cfg, states[j - 1], moves[j - 1], states[j]);
      StepForward(cfg, states[j - 1], moves[j - 1].step, s);
      SlotForwardTransitive(At(states[i], s), At(states[j - 1], s), At(states[j], s));
    }
  }

  // Crash points

  /** At every crash point of every run that began with an empty log, replay never reports an
      offset mismatch and gives back what it should. */
  lemma CrashPointTheorem(cfg: Config, states: seq<State>, moves: seq<Move>, i: nat, now: int)
    requires IsRun(cfg, states, moves) && i <= |moves|
    ensures Recovered(states[i].wal).Some?
    ensures var b' := Rebuilt(Recovered(states[i].wal).value, states[i].wal, now);
            RestartFaithful(states[i], b') && SameMessages(states[i].topics, b'.topics)
  {
    hide RestartFaithful, SameMessages, Rebuilt, Inv, TopicsAgree, OffsetsAgree, ItemsAgree, RetryOffsets;
    RunInv(cfg, states, moves, i);
    RestartAgrees(cfg, states[i], now);
  }

  /** In every state the committed offset is the greatest of the logged, the pending and the
      taken one; with nothing pending or taken, a restart gives exactly the live offsets. */
  lemma OffsetTheorem(cfg: Config, states: seq<State>, moves: seq<Move>, i: nat, s: Slot, now: int)
    requires IsRun(cfg, states, moves) && i <= |moves|
    ensures Recovered(states[i].wal).Some?
    ensures var b := states[i];
            var r := Recovered(b.wal).value;
            var ss := At(b, s);
            && ss.committed == Max(LoggedOffset(r, s), Max(ss.pending, ss.taken))
            && (ss.pending == -1 && ss.taken == -1 ==> At(Rebuilt(r, b.wal, now), s).committed == ss.committed)
  {
    hide Inv, TopicsAgree, ItemsAgree, RetryOffsets, RecoveredItems, Recovered;
    RunInv(cfg, states, moves, i);
    assert OffsetAgrees(LoggedOffset(Recovered(states[i].wal).value, s), At(states[i], s));
  }

  // Committed keys

  lemma MoveKeepsCommitted(cfg: Config, b: State, mv: Move, b': State, k: I.Key)
    requires WalInv(cfg, b) && Moves(cfg, b, mv, b') && k.scope == I.Consume && I.CommittedIn(b.items, k)
    ensures I.CommittedIn(b'.items, k) && b'.items[k].result == b.items[k].result
  {
    match mv
    case Do(step) => StepKeepsCommitted(cfg, b, step, k);
    case Crash(now) =>
      hide Inv, Agrees, RowsAgree, Rebuilt;
      RestartAgrees(cfg, b, now);
  }

  lemma StepKeepsCommitted(cfg: Config, b: State, step: Step, k: I.Key)
    requires Paired(b) && Enabled(cfg, b, step) && k.scope == I.Consume && I.CommittedIn(b.items, k)
    ensures var b' := Apply(cfg, b, step); I.CommittedIn(b'.items, k) && b'.items[k] == b.items[k]
  {
    if step.Idem? {
      hide I.Do, I.WellScoped, Addressed;
      I.CommittedStays(b.items, cfg.ttl, step.op, k);
    } else if OnSlot(step) {
      hide Enabled, Apply, Moved;
      SlotStepIs(cfg, b, step);
    } else if step.Bury? {
      hide Enabled, Apply, LeaveSlot, AppendTo, DeadLetter, ToEntry;
      BuryIs(cfg, b, step);
    } else {
      hide Slowest, Admits, AppendTo, ToEntry, NewTopic, Take, GiveBack;
    }
  }

  lemma {:induction false} CommittedPersists(cfg: Config, states: seq<State>, moves: seq<Move>, i: nat, j: nat,
                                             k: I.Key)
    requires IsRun(cfg, states, moves) && i <= j <= |moves|
    requires k.scope == I.Consume && I.CommittedIn(states[i].items, k)
    ensures I.CommittedIn(states[j].items, k) && states[j].items[k].result == states[i].items[k].result
    decreases j - i
  {
    hide WalInv, Moves, I.CommittedIn;
    if i < j {
      CommittedPersists(cfg, states, moves, i, j - 1, k);
      RunInv(cfg, states, moves, j - 1);
      MoveKeepsCommitted(cfg, states[j - 1], moves[j - 1], states[j], k);
    } else {
      KeptIsKept(states[i].items, k);
    }
  }

  lemma KeptIsKept(items: I.Items, k: I.Key)
    requires I.CommittedIn(items, k)
    ensures k in items
  {
  }

  /** No log ever holds two records of a consume key of which the first is its commit: a key is
      committed at most once, whatever the restarts. */
  lemma CommittedOnce(cfg: Config, states: seq<State>, moves: seq<Move>, i: nat, j: nat, k: nat)
    requires IsRun(cfg, states, moves) && i <= |moves|
    requires j < k < |IdemLog(states[i].wal)| && IdemLog(states[i].wal)[j].key == IdemLog(states[i].wal)[k].key
    ensures IdemLog(states[i].wal)[j].status != I.Committed
  {
    hide Inv, TopicsAgree, OffsetsAgree, RetryOffsets, Recovered;
    RunInv(cfg, states, moves, i);
  }

  /** After a restart at any point, producing a keyed message that is in a partition's log once
      more is refused as done, exactly until the time-to-live has passed since the restart. */
  lemma ReproducedIsRefused(cfg: Config, states: seq<State>, moves: seq<Move>, i: nat, now: int,
                            t: string, p: nat, o: nat, at: int, stamp: int)
    requires IsRun(cfg, states, moves) && i <= |moves|
    requires o < |LogIn(states[i].topics, t, p)|
    requires var m := LogIn(states[i].topics, t, p)[o]; m.envelope.Some? && m.envelope.value.idempotencyKey != ""
    ensures Recovered(states[i].wal).Some?
    ensures var b' := Rebuilt(Recovered(states[i].wal).value, states[i].wal, now);
            var env := LogIn(states[i].topics, t, p)[o].envelope.value;
            I.Begin(b'.items, cfg.ttl, I.Key(I.Produce, env.tenantId, t, "", env.idempotencyKey), at, stamp).reply
            == if at <= now + cfg.ttl then I.AlreadyDone("") else I.Granted
  {
    hide WalInv, RestartFaithful, Moves, RecoveredItems, Recovered, Canonical, FromEntry;
    ReplayedCanonical(cfg, states, moves, i, t, p);
    var b := states[i];
    var m := LogIn(b.topics, t, p)[o];
    CanonicalBehaves(m, 0);
    var j := MessagesHaveRecords(b.wal, t, p, o);
    ProduceKeysRestored(b.wal, now, j);
  }

  lemma ReplayedCanonical(cfg: Config, states: seq<State>, moves: seq<Move>, i: nat, t: string, p: nat)
    requires IsRun(cfg, states, moves) && i <= |moves|
    ensures Recovered(states[i].wal).Some?
    ensures LogIn(Recovered(states[i].wal).value.topics, t, p) == CanonicalLog(LogIn(states[i].topics, t, p))
  {
    hide Inv, RowsAgree, ItemsAgree, OffsetsAgree, RetryOffsets, Recovered, Canonical;
    RunInv(cfg, states, moves, i);
    assert t !in states[i].topics ==> LogIn(Recovered(states[i].wal).value.topics, t, p) == [];
  }

  /** The message a step puts on a consumer's queue, if any. */
  ghost predicate Queues(b: State, step: Step, s: Slot, m: Message) {
    match step
    case Send(u, _, _) => u == s && HasHead(b, s) && m == Head(b, s)
    case SendSimple(u) => u == s && HasHead(b, s) && m == Head(b, s)
    case Redeliver(u, offset, _, _) => u == s && Flying(b, s, offset) && m == At(b, s).inflight[offset].msg
    case _ => false
  }

  /** Once a consume key is committed, no operation, eviction or restart changes its result, and
      no later step, before or after any number of restarts, queues a message with that key to
      that group. */
  lemma CommittedNeverSentAgain(cfg: Config, states: seq<State>, moves: seq<Move>, i: nat, j: nat, s: Slot, m: Message)
    requires IsRun(cfg, states, moves) && i <= j < |moves|
    requires m.envelope.Some? && m.envelope.value.idempotencyKey != ""
    requires I.CommittedIn(states[i].items, I.Key(I.Consume, m.envelope.value.tenantId, s.topic, s.group,
                                                  m.envelope.value.idempotencyKey))
    requires moves[j].Do?
    ensures !Queues(states[j], moves[j].step, s, m)
  {
    CommittedPersists(cfg, states, moves, i, j, ConsumeKey(s, m));
    hide WalInv, Slowest, Admits;
    assert Moves(cfg, states[j], moves[j], states[j + 1]);
  }

  // Dead letters

  /** Dead-lettering a message of an ordinary topic happens at its retry limit, appends exactly
      one record to the dead-letter topic and to the log, and that record carries all the message
      says, with its origin, the attempts made and the last error in place of its retry policy,
      also after a restart. */
  lemma BuryTheorem(cfg: Config, b: State, s: Slot, offset: int, p: nat, slowest: int, now: int)
    requires Inv(cfg, b) && Paired(b) && Enabled(cfg, b, Bury(s, offset, p, slowest, now)) && !("dlq." <= s.topic)
    ensures var b' := Apply(cfg, b, Bury(s, offset, p, slowest, now));
            var e := At(b, s).inflight[offset];
            var m := LogOf(b, s)[offset];
            var dlq := "dlq." + s.topic;
            && AtLimit(e) && e.attempts == e.msg.envelope.value.retryPolicy.value.maxAttempts
            && RetryLimit(m) > 0 && e.attempts == RetryLimit(m)
            && offset !in At(b', s).inflight && At(b', s).gone[offset] == DeadLettered(RetryLimit(m))
            && Exists(b', dlq, p)
            && |b'.topics[dlq].logs[p]| == |b.topics[dlq].logs[p]| + 1 && |b'.wal| == |b.wal| + 1
            && (forall t, q: nat :: t in b.topics && (t != dlq || q != p) ==>
                  LogIn(b'.topics, t, q) == LogIn(b.topics, t, q))
            && var dead := b'.topics[dlq].logs[p][|b.topics[dlq].logs[p]|];
            && b'.wal[|b.wal|] == MessageRecord(ToEntry(dlq, dead))
            && IsDeadLetterOf(dead, s, offset, m, e, now) && IsDeadLetterOf(Canonical(dead), s, offset, m, e, now)
  {
    hide Inv, Enabled, Apply, Purge;
    BuryIs(cfg, b, Bury(s, offset, p, slowest, now));
    EntryAt(cfg, b, s, offset);
    LogsIndexed(cfg, b, s, offset);
    var e := At(b, s).inflight[offset];
    var dead := Placed(DeadLetter(s.topic, e, now), p, |b.topics[DlqTopic(s.topic)].logs[p]|);
    DeadLetterContents(s, offset, e, now, p, |b.topics[DlqTopic(s.topic)].logs[p]|);
  }

  lemma LogsIndexed(cfg: Config, b: State, s: Slot, offset: int)
    requires Inv(cfg, b) && 0 <= offset < |LogOf(b, s)|
    ensures LogOf(b, s)[offset].offset == offset && LogOf(b, s)[offset].partition == s.partition
  {
    assert TopicInv(b.topics[s.topic]);
    assert LogInv(b.topics[s.topic].logs[s.partition], b.topics[s.topic].sums[s.partition], s.partition);
  }

  /** A dead letter of the message: its key, its value and its envelope, with the place of origin
      and the history of the entry in place of the target and the retry policy. */
  ghost predicate IsDeadLetterOf(dead: Message, s: Slot, offset: int, m: Message, e: Entry, now: int) {
    && dead.key == m.key && dead.value == m.value
    && (dead.routing == m.routing || (dead.routing.None? && m.routing == Some(Routing("", map[]))))
    && dead.envelope.Some? && RetryLimit(dead) == 0
    && var env := dead.envelope.value;
    && env.retryPolicy.None? && env.targetTopic == "" && env.partitionOverride.None?
    && env.dlq == Some(DlqMetadata(s.topic, s.partition, offset, e.attempts, e.lastError, now / 1_000_000))
    && (m.envelope.Some? ==>
          && env.tenantId == m.envelope.value.tenantId && env.idempotencyKey == m.envelope.value.idempotencyKey
          && env.labels == m.envelope.value.labels && env.deadline == m.envelope.value.deadline
          && env.runId == m.envelope.value.runId && env.stepId == m.envelope.value.stepId
          && env.parentStepId == m.envelope.value.parentStepId)
    && (m.envelope.None? ==>
          env == Envelope("", "", "", map[], "", None, "", None, None, "", env.dlq))
  }

  lemma DeadLetterContents(s: Slot, offset: int, e: Entry, now: int, p: int, place: int)
    requires e.msg.offset == offset && e.msg.partition == s.partition && s.topic != ""
    ensures var dead := Placed(DeadLetter(s.topic, e, now), p, place);
            && IsDeadLetterOf(dead, s, offset, e.msg, e, now)
            && IsDeadLetterOf(Canonical(dead), s, offset, e.msg, e, now)
            && dead.attempts == e.attempts && dead.lastError == e.lastError
  {
  }

  /** The message at this place of a partition, if there is one, has no retry limit. */
  ghost predicate Unlimited(b: State, t: string, p: nat, o: nat) {
    o < |LogIn(b.topics, t, p)| && RetryLimit(LogIn(b.topics, t, p)[o]) == 0
  }

  /** Within a process partitions only grow. */
  lemma StepKeepsLogs(cfg: Config, b: State, step: Step, t: string, p: nat)
    requires Paired(b) && Enabled(cfg, b, step)
    ensures LogIn(b.topics, t, p) <= LogIn(Apply(cfg, b, step).topics, t, p)
  {
    if step.Bury? {
      BuryKeepsLogs(cfg, b, step, t, p);
    } else if step.Produce? || step.CreateTopic? || step.EnsureDlq? {
      TopicKeepsLogs(cfg, b, step, t, p);
    } else {
      QuietRows(cfg, b, step);
    }
    hide Enabled, Apply;
  }

  lemma BuryKeepsLogs(cfg: Config, b: State, step: Step, t: string, p: nat)
    requires Paired(b) && Enabled(cfg, b, step) && step.Bury?
    ensures LogIn(b.topics, t, p) <= LogIn(Apply(cfg, b, step).topics, t, p)
  {
    hide Enabled, Apply, LeaveSlot, DeadLetter, ToEntry;
    BuryIs(cfg, b, step);
  }

  lemma TopicKeepsLogs(cfg: Config, b: State, step: Step, t: string, p: nat)
    requires Paired(b) && Enabled(cfg, b, step) && (step.Produce? || step.CreateTopic? || step.EnsureDlq?)
    ensures LogIn(b.topics, t, p) <= LogIn(Apply(cfg, b, step).topics, t, p)
  {
    hide Slowest, Admits, ToEntry;
  }

  lemma MoveKeepsUnlimited(cfg: Config, b: State, mv: Move, b': State, t: string, p: nat, o: nat)
    requires WalInv(cfg, b) && Moves(cfg, b, mv, b') && Unlimited(b, t, p, o)
    ensures Unlimited(b', t, p, o)
  {
    hide RetryLimit;
    match mv
    case Do(step) =>
      hide WalInv, Enabled, Apply;
      StepKeepsLogs(cfg, b, step, t, p);
    case Crash(now) =>
      hide Inv, Agrees, RowsAgree, Recovered, Canonical, RowsRestored;
      RestartAgrees(cfg, b, now);
      CanonicalBehaves(LogIn(b.topics, t, p)[o], 0);
      assert LogIn(b'.topics, t, p) == CanonicalLog(LogIn(b.topics, t, p));
  }

  lemma {:induction false} UnlimitedStays(cfg: Config, states: seq<State>, moves: seq<Move>, i: nat, j: nat, t: string,
                                          p: nat, o: nat)
    requires IsRun(cfg, states, moves) && i <= j <= |moves| && Unlimited(states[i], t, p, o)
    ensures Unlimited(states[j], t, p, o)
    decreases j - i
  {
    hide WalInv, Moves, Unlimited;
    if i < j {
      UnlimitedStays(cfg, states, moves, i, j - 1, t, p, o);
      RunInv(cfg, states, moves, j - 1);
      MoveKeepsUnlimited(cfg, states[j - 1], moves[j - 1], states[j], t, p, o);
    }
  }

  /** A dead letter never becomes the subject of a dead-lettering in turn, at any later move,
      restarts included. */
  lemma DeadLettersStay(cfg: Config, states: seq<State>, moves: seq<Move>, i: nat, j: nat)
    requires IsRun(cfg, states, moves) && i < j < |moves|
    requires moves[i].Do? && moves[i].step.Bury? && !IsDlq(moves[i].step.slot.topic)
    requires moves[j].Do? && moves[j].step.Bury?
    ensures var first, later := moves[i].step, moves[j].step;
            var place := |LogIn(states[i].topics, DlqTopic(first.slot.topic), first.partition)|;
            !(later.slot.topic == DlqTopic(first.slot.topic) && later.slot.partition == first.partition
              && later.offset == place)
  {
    hide WalInv, Unlimited, Enabled, Apply, Paired;
    var first, later := moves[i].step, moves[j].step;
    var t := DlqTopic(first.slot.topic);
    var place := |LogIn(states[i].topics, t, first.partition)|;
    assert Moves(cfg, states[i], moves[i], states[i + 1]);
    assert Moves(cfg, states[j], moves[j], states[j + 1]);
    RunInv(cfg, states, moves, i);
    RunInv(cfg, states, moves, j);
    BuriedIsUnlimited(cfg, states[i], first, states[i + 1]);
    UnlimitedStays(cfg, states, moves, i + 1, j, t, first.partition, place);
    BuriesLimited(cfg, states[j], later);
  }

  lemma BuriedIsUnlimited(cfg: Config, b: State, step: Step, b': State)
    requires WalInv(cfg, b) && Moves(cfg, b, Do(step), b') && step.Bury? && !IsDlq(step.slot.topic)
    ensures var t := DlqTopic(step.slot.topic); Unlimited(b', t, step.partition, |LogIn(b.topics, t, step.partition)|)
  {
    hide Inv, Agrees, RowsAgree, RetryLimit, IsDeadLetterOf, Slowest, Admits, DoneFor, LeaseFor, LeaveSlot, DeadLetter,
      ToEntry, Expired;
    EntryAt(cfg, b, step.slot, step.offset);
    BuryTheorem(cfg, b, step.slot, step.offset, step.partition, step.slowest, step.now);
    var t := DlqTopic(step.slot.topic);
    var log := b'.topics[t].logs[step.partition];
    DeadHasNoLimit(log[|log| - 1], step.slot, step.offset, LogOf(b, step.slot)[step.offset],
                   At(b, step.slot).inflight[step.offset], step.now);
  }

  lemma DeadHasNoLimit(dead: Message, s: Slot, offset: int, m: Message, e: Entry, now: int)
    requires IsDeadLetterOf(dead, s, offset, m, e, now)
    ensures RetryLimit(dead) == 0
  {
  }

  /** Only messages with a retry limit are dead-lettered. */
  lemma BuriesLimited(cfg: Config, b: State, step: Step)
    requires WalInv(cfg, b) && Paired(b) && Enabled(cfg, b, step) && step.Bury?
    ensures step.offset >= 0 && !Unlimited(b, step.slot.topic, step.slot.partition, step.offset)
  {
    hide Inv, Agrees, RowsAgree, Slowest, Admits, DoneFor, LeaseFor, RetryLimit, Expired;
    EntryAt(cfg, b, step.slot, step.offset);
  }

  // Time between deliveries

  /** What decides when an entry is due again. */
  ghost predicate SameTimer(e: Entry, e': Entry) {
    e'.msg == e.msg && e'.sentAt == e.sentAt && e'.nextAt == e.nextAt && e'.attempts == e.attempts
      && e'.owner == e.owner
  }

  /** The steps that restart the timer of an entry. */
  predicate Restarts(step: Step, s: Slot, offset: int) {
    (step.Redeliver? || step.Nack?) && step.slot == s && step.offset == offset
  }

  /** Every entry that is in flight before and after has the timer it had. */
  ghost predicate TimersKept(ss: SlotState, ss': SlotState) {
    forall o :: o in ss.inflight && o in ss'.inflight ==> SameTimer(ss.inflight[o], ss'.inflight[o])
  }

  lemma TimersKeptHere(cfg: Config, b: State, step: Step)
    requires OnSlot(step) && Inv(cfg, b) && Paired(b) && Enabled(cfg, b, step) && !step.Redeliver? && !step.Nack?
    ensures TimersKept(At(b, step.slot), At(Apply(cfg, b, step), step.slot))
  {
    hide Inv, Enabled, Apply, Moved, TimersKept;
    SlotStepIs(cfg, b, step);
    TimersMoved(cfg, b, step);
  }

  lemma TimersMoved(cfg: Config, b: State, step: Step)
    requires OnSlot(step) && Able(b, step) && Inv(cfg, b) && !step.Redeliver? && !step.Nack?
    ensures TimersKept(At(b, step.slot), Moved(cfg, b, step))
  {
    hide Inv, EntryInv, ExitInv, FirstsIncrease, Partitioned, Purge;
    if step.Send? {
      AtKeepsInv(cfg, b, step.slot);
      LaunchPartitions(At(b, step.slot), Head(b, step.slot), step.owner, step.now);
    }
  }

  ghost predicate TimerSame(ss: SlotState, ss': SlotState, offset: int) {
    offset in ss.inflight && offset in ss'.inflight ==> SameTimer(ss.inflight[offset], ss'.inflight[offset])
  }

  lemma TimerKeptByOthers(cfg: Config, b: State, step: Step, s: Slot, offset: int)
    requires Paired(b) && Enabled(cfg, b, step) && (step.Redeliver? || step.Nack?) && step.slot == s
             && step.offset != offset
    ensures TimerSame(At(b, s), At(Apply(cfg, b, step), s), offset)
  {
    hide Slowest, Admits, DoneFor, Leased, LeaseFor, NackLease, Expired, Again;
  }

  lemma TimerKeptByBury(cfg: Config, b: State, step: Step, s: Slot, offset: int)
    requires Paired(b) && Enabled(cfg, b, step) && step.Bury?
    ensures TimerSame(At(b, s), At(Apply(cfg, b, step), s), offset)
  {
    hide Enabled, Apply, AppendTo, DeadLetter, ToEntry, Purge;
    BuryIs(cfg, b, step);
  }

  lemma TimerKeptElsewhere(cfg: Config, b: State, step: Step, s: Slot, offset: int)
    requires Paired(b) && Enabled(cfg, b, step) && !OnSlot(step) && !step.Bury?
    ensures TimerSame(At(b, s), At(Apply(cfg, b, step), s), offset)
  {
    hide I.Do, Slowest, Admits, AppendTo, ToEntry, NewTopic;
  }

  /** Other steps leave an in-flight entry's timer alone. */
  lemma TimerKept(cfg: Config, b: State, step: Step, s: Slot, offset: int)
    requires Inv(cfg, b) && Paired(b) && Enabled(cfg, b, step) && !Restarts(step, s, offset)
    ensures TimerSame(At(b, s), At(Apply(cfg, b, step), s), offset)
  {
    hide Inv, Apply, Enabled;
    if !OnSlot(step) && !step.Bury? {
      TimerKeptElsewhere(cfg, b, step, s, offset);
    } else if step.Bury? {
      TimerKeptByBury(cfg, b, step, s, offset);
    } else if step.slot != s {
      OtherSlotsSame(cfg, b, step);
    } else if step.Redeliver? || step.Nack? {
      TimerKeptByOthers(cfg, b, step, s, offset);
    } else {
      TimersKeptHere(cfg, b, step);
    }
  }

  /** From one state to a later one of the same process, with no step that restarts its timer, an
      entry that is still in flight has the timer it had. */
  lemma {:induction false} TimerOverRun(cfg: Config, states: seq<State>, moves: seq<Move>, i: nat, j: nat, s: Slot,
                                        offset: int)
    requires IsRun(cfg, states, moves) && i <= j <= |moves| && NoCrash(moves, i, j)
    requires forall k :: i <= k < j ==> !Restarts(moves[k].step, s, offset)
    requires offset in At(states[i], s).inflight && offset in At(states[j], s).inflight
    ensures SameTimer(At(states[i], s).inflight[offset], At(states[j], s).inflight[offset])
    decreases j - i
  {
    hide Inv, Agrees, Apply, Enabled, Partitioned;
    if i < j {
      RunInv(cfg, states, moves, j - 1);
      RunInv(cfg, states, moves, i);
      RunInv(cfg, states, moves, j);
      assert Moves(cfg, states[j - 1], moves[j - 1], states[j]);
      StillFlying(cfg, states, moves, i, j, s, offset);
      TimerOverRun(cfg, states, moves, i, j - 1, s, offset);
      TimerKept(cfg, states[j - 1], moves[j - 1].step, s, offset);
    }
  }

  /** Between two states in which it is in flight, an entry was in flight all the time. */
  lemma StillFlying(cfg: Config, states: seq<State>, moves: seq<Move>, i: nat, j: nat, s: Slot, offset: int)
    requires IsRun(cfg, states, moves) && i < j <= |moves| && NoCrash(moves, i, j)
    requires offset in At(states[i], s).inflight && offset in At(states[j], s).inflight
    ensures offset in At(states[j - 1], s).inflight
  {
    hide Inv, Agrees, Apply, Enabled, EntryInv, ExitInv, FirstsIncrease, IsRun;
    DeliveryTheorem(cfg, states, moves, i, j - 1, s);
    DeliveryTheorem(cfg, states, moves, j - 1, j, s);
    DeliveryTheorem(cfg, states, moves, i, i, s);
    DeliveryTheorem(cfg, states, moves, j, j, s);
  }

  lemma LeaseIsPositive(streams: seq<Consumer>, owner: string, ackTimeout: int)
    requires ackTimeout > 0
    ensures LeaseFor(streams, owner, ackTimeout) > 0
  {
  }

  /** A step that puts this offset of the slot on a consumer's queue. */
  ghost predicate Delivers(b: State, step: Step, s: Slot, offset: int) {
    (step.Redeliver? && step.slot == s && step.offset == offset)
    || (step.Send? && step.slot == s && HasHead(b, s) && Head(b, s).offset == offset)
  }

  lemma DeliveredIsTimed(cfg: Config, b: State, step: Step, s: Slot, offset: int)
    requires Paired(b) && Enabled(cfg, b, step) && Delivers(b, step, s, offset)
    ensures var ss := At(Apply(cfg, b, step), s);
            && offset in ss.inflight
            && ss.inflight[offset].sentAt == step.now && ss.inflight[offset].owner == step.owner
            && (step.Redeliver? && HasBackoff(Policy(ss.inflight[offset].msg)) ==>
                  ss.inflight[offset].nextAt ==
                    Some(step.now + Delay(Policy(ss.inflight[offset].msg), ss.inflight[offset].attempts - 1)))
  {
    hide Slowest, Admits, DoneFor, Leased, LeaseFor, Expired, Delay;
  }

  /** In a run without a negative acknowledgement in between, the delivery after a redelivery of
      a message comes at least the owner's lease and the backoff of that retry later (the attempt
      count less one is the number of retries so far); after the first delivery, at least the
      owner's lease. */
  lemma SpacingTheorem(cfg: Config, states: seq<State>, moves: seq<Move>, i: nat, j: nat, s: Slot, offset: int)
    requires IsRun(cfg, states, moves) && i < j < |moves| && NoCrash(moves, i, j + 1) && cfg.ackTimeout > 0
    requires Delivers(states[i], moves[i].step, s, offset)
    requires moves[j].step.Redeliver? && moves[j].step.slot == s && moves[j].step.offset == offset
    requires forall k :: i < k < j ==> !Restarts(moves[k].step, s, offset)
    ensures offset in At(states[i + 1], s).inflight
    ensures var first, second := moves[i].step.now, moves[j].step.now;
            var e := At(states[i + 1], s).inflight[offset];
            && (forall lease :: LatestLease(Streams(states[j], s), moves[i].step.owner, cfg.ackTimeout, lease) ==>
                  second >= first + lease)
            && (moves[i].step.Redeliver? ==> second >= first + Delay(Policy(e.msg), e.attempts - 1))
  {
    assert Moves(cfg, states[i], moves[i], states[i + 1]);
    assert Moves(cfg, states[j], moves[j], states[j + 1]);
    DeliveredIsTimed(cfg, states[i], moves[i].step, s, offset);
    assert Flying(states[j], s, offset);
    TimerOverRun(cfg, states, moves, i + 1, j, s, offset);
    LeaseIsPositive(Streams(states[j], s), moves[i].step.owner, cfg.ackTimeout);
    forall lease | LatestLease(Streams(states[j], s), moves[i].step.owner, cfg.ackTimeout, lease)
      ensures lease == LeaseFor(Streams(states[j], s), moves[i].step.owner, cfg.ackTimeout)
    {
      LeaseIsLatest(Streams(states[j], s), moves[i].step.owner, cfg.ackTimeout, lease);
    }
    hide LatestLease;
    hide IsRun, Slowest, Admits, DoneFor, Leased, LeaseFor, NackLease, Held, Apply, Delivers;
  }

  // Partition logs and backpressure

  /** In every reachable state, live or replayed, offsets are indices and the byte sums are the
      prefix sums, so all ways of counting what lies after an offset agree. */
  lemma LogTheorem(cfg: Config, states: seq<State>, moves: seq<Move>, i: nat, topic: string, p: nat, after: int)
    requires IsRun(cfg, states, moves) && i <= |moves| && Exists(states[i], topic, p)
    ensures var t := states[i].topics[topic];
            && p < |t.sums| && OffsetsAreIndices(t.logs[p]) && RunningSums(t.logs[p], t.sums[p])
            && CountAfter(t.logs[p], after) == BufferedCount(t.logs[p], after) == RowLag(t.logs[p], after)
            && BytesAfter(t.logs[p], after)
               == (if Max(0, after + 1) >= |t.logs[p]| then 0
                   else t.sums[p][|t.logs[p]| - 1] - (if after < 0 then 0 else t.sums[p][after]))
  {
    hide Agrees, SlotsInv;
    RunInv(cfg, states, moves, i);
    var t := states[i].topics[topic];
    assert TopicInv(t);
    assert LogInv(t.logs[p], t.sums[p], p);
    CountsAgree(t.logs[p], after);
    BytesAreDifference(t.logs[p], after);
    var log := t.logs[p];
    assert log[..|log|] == log;
  }

  /** An accepted produce leaves at most maxMsgs messages and fewer than maxBytes bytes after the
      slowest acknowledgement. */
  lemma ProduceTheorem(cfg: Config, b: State, topic: string, p: nat, m: Message, slowest: int)
    requires Inv(cfg, b) && Paired(b) && Enabled(cfg, b, Produce(topic, p, m, slowest, true))
    ensures var log := Apply(cfg, b, Produce(topic, p, m, slowest, true)).topics[topic].logs[p];
            && (cfg.maxMsgs > 0 ==> CountAfter(log, slowest) <= cfg.maxMsgs)
            && (cfg.maxBytes > 0 ==> BytesAfter(log, slowest) < cfg.maxBytes)
            && CountAfter(log, slowest) == RowLag(log, slowest) == BufferedCount(log, slowest)
  {
    hide Slowest, ToEntry;
    assert TopicInv(b.topics[topic]);
    var log := b.topics[topic].logs[p];
    var placed := Placed(m, p, |log|);
    assert LogInv(log, b.topics[topic].sums[p], p);
    CountsAgree(log, slowest);
    CountsAgree(log + [placed], slowest);
    if slowest < |log| {
      AppendCounts(log, placed, slowest);
    } else {
      BytesAreDifference(log + [placed], slowest);
    }
  }
}
