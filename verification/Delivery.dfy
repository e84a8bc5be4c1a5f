/** What every step of the broker keeps about delivery: the cursor, the in-flight set and how
    messages leave it, the retry count, the dead letters, and the partition logs. */
module Delivery {
  import opened Common
  import opened Records
  import opened PartitionLog
  import opened BrokerState
  import I = Idempotency

  // Partition logs

  ghost predicate LogInv(log: Log, sums: seq<int>, p: nat) {
    && OffsetsAreIndices(log) && RunningSums(log, sums)
    && (forall i :: 0 <= i < |log| ==> log[i].partition == p)
  }

  ghost predicate TopicInv(t: Topic) {
    |t.sums| == |t.logs| && forall p :: 0 <= p < |t.logs| ==> LogInv(t.logs[p], t.sums[p], p)
  }

  lemma AppendKeepsTopic(t: Topic, p: nat, m: Message)
    requires TopicInv(t) && p < |t.logs|
    ensures TopicInv(AppendTo(t, p, Placed(m, p, |t.logs[p]|)))
  {
    AppendKeepsSums(t.logs[p], t.sums[p], Placed(m, p, |t.logs[p]|));
  }

  // One slot

  /** The in-flight entry of a message: its own copy of it, and a retry count within the limit. */
  ghost predicate EntryInv(log: Log, offset: int, e: Entry) {
    && 0 <= offset < |log| && e.msg == log[offset]
    && 1 <= e.attempts && (RetryLimit(e.msg) > 0 ==> e.attempts <= RetryLimit(e.msg))
  }

  /** How a message may have gone: by dead-lettering only at its retry limit. */
  ghost predicate ExitInv(log: Log, offset: int, why: Exit) {
    && 0 <= offset < |log|
    && (why.DeadLettered? ==> RetryLimit(log[offset]) > 0 && why.attempts == RetryLimit(log[offset]))
  }

  /** Between the place where the cursor started and the cursor, every offset is either in
      flight or gone, and never both; nothing else is. */
  ghost predicate Partitioned(ss: SlotState) {
    && (ss.next.None? ==> ss.inflight == map[] && ss.gone == map[] && ss.sent == [])
    && (ss.next.Some? ==>
          && ss.start <= ss.next.value
          && (forall o :: o in ss.inflight ==> ss.start <= o < ss.next.value && o !in ss.gone)
          && (forall o :: o in ss.gone ==> ss.start <= o < ss.next.value)
          && (forall o :: ss.start <= o < ss.next.value ==> o in ss.inflight || o in ss.gone))
  }

  /** Dispatch has queued strictly increasing offsets, all below the cursor. */
  ghost predicate FirstsIncrease(ss: SlotState) {
    && (forall i, j :: 0 <= i < j < |ss.sent| ==> ss.sent[i] < ss.sent[j])
    && (forall i :: 0 <= i < |ss.sent| ==> ss.next.Some? && ss.start <= ss.sent[i] < ss.next.value)
  }

  ghost predicate SlotInv(cfg: Config, log: Log, ss: SlotState) {
    && Partitioned(ss) && FirstsIncrease(ss)
    && (ss.next.Some? ==> ss.next.value <= |log|)
    && (cfg.maxInFlight > 0 ==> |ss.inflight| <= cfg.maxInFlight)
    && (forall o :: o in ss.inflight ==> EntryInv(log, o, ss.inflight[o]))
    && (forall o :: o in ss.gone ==> ExitInv(log, o, ss.gone[o]))
  }

  lemma GrowKeepsSlot(cfg: Config, log: Log, ss: SlotState, m: Message)
    requires SlotInv(cfg, log, ss)
    ensures SlotInv(cfg, log + [m], ss)
  {
  }

  lemma StartKeepsSlot(cfg: Config, log: Log, ss: SlotState)
    requires SlotInv(cfg, log, ss) && ss.next.None?
    ensures SlotInv(cfg, log, StartCursor(ss, |log|))
  {
  }

  lemma PassKeepsSlot(cfg: Config, log: Log, ss: SlotState, why: Exit)
    requires SlotInv(cfg, log, ss) && OffsetsAreIndices(log) && ss.next.Some? && ss.next.value < |log|
    requires why == SkippedDone || why == AutoCommitted
    ensures SlotInv(cfg, log, Pass(ss, log[ss.next.value].offset, why))
  {
    hide EntryInv, ExitInv, Partitioned, FirstsIncrease, Purge;
    assert log[ss.next.value].offset == ss.next.value;
    PassPartitions(ss, ss.next.value, why);
    QuietExit(log, ss.next.value, why);
  }

  lemma PassPartitions(ss: SlotState, offset: int, why: Exit)
    requires Partitioned(ss) && FirstsIncrease(ss) && ss.next == Some(offset)
    ensures Partitioned(Pass(ss, offset, why)) && FirstsIncrease(Pass(ss, offset, why))
  {
    hide Purge;
  }

  lemma QuietExit(log: Log, offset: int, why: Exit)
    requires 0 <= offset < |log| && !why.DeadLettered?
    ensures ExitInv(log, offset, why)
  {
  }

  lemma LaunchKeepsSlot(cfg: Config, log: Log, ss: SlotState, owner: string, now: int)
    requires SlotInv(cfg, log, ss) && OffsetsAreIndices(log) && ss.next.Some? && ss.next.value < |log|
    requires cfg.maxInFlight > 0 ==> |ss.inflight| < cfg.maxInFlight
    ensures SlotInv(cfg, log, Launch(ss, log[ss.next.value], owner, now))
  {
    hide Partitioned, FirstsIncrease, ExitInv, EntryInv, RetryLimit;
    var m := log[ss.next.value];
    LaunchPartitions(ss, m, owner, now);
    FirstEntry(log, m.offset, Entry(m, now, 1, None, SeedError(ss, m.offset), owner));
    InsertGrows(ss.inflight, m.offset, Entry(m, now, 1, None, SeedError(ss, m.offset), owner));
  }

  lemma FirstEntry(log: Log, offset: int, e: Entry)
    requires 0 <= offset < |log| && e.msg == log[offset] && e.attempts == 1
    ensures EntryInv(log, offset, e)
  {
  }

  lemma InsertGrows(m: map<int, Entry>, o: int, e: Entry)
    requires o !in m
    ensures |m[o := e]| == |m| + 1
  {
    assert m[o := e].Keys == m.Keys + {o};
  }

  lemma LaunchPartitions(ss: SlotState, m: Message, owner: string, now: int)
    requires Partitioned(ss) && FirstsIncrease(ss) && ss.next.Some? && m.offset == ss.next.value
    ensures Partitioned(Launch(ss, m, owner, now)) && FirstsIncrease(Launch(ss, m, owner, now))
    ensures m.offset !in ss.inflight
  {
  }

  lemma AckKeepsSlot(cfg: Config, log: Log, ss: SlotState, offset: int)
    requires SlotInv(cfg, log, ss)
    ensures SlotInv(cfg, log, AckSlot(ss, offset))
  {
    if offset in ss.inflight {
      assert EntryInv(log, offset, ss.inflight[offset]);
      QuietExit(log, offset, Acked);
      hide SlotInv;
      GoneKeepsSlot(cfg, log, ss, AckSlot(ss, offset), offset, Acked);
    } else {
      hide SlotInv;
      SameKeepsSlot(cfg, log, ss, AckSlot(ss, offset));
    }
  }

  /** What the invariant of a slot does not speak of. */
  lemma SameKeepsSlot(cfg: Config, log: Log, ss: SlotState, ss': SlotState)
    requires SlotInv(cfg, log, ss)
    requires ss'.next == ss.next && ss'.start == ss.start && ss'.inflight == ss.inflight && ss'.gone == ss.gone
             && ss'.sent == ss.sent
    ensures SlotInv(cfg, log, ss')
  {
    hide EntryInv, ExitInv;
  }

  /** An entry leaves. */
  lemma GoneKeepsSlot(cfg: Config, log: Log, ss: SlotState, ss': SlotState, offset: int, why: Exit)
    requires SlotInv(cfg, log, ss) && offset in ss.inflight && ExitInv(log, offset, why)
    requires ss'.next == ss.next && ss'.start == ss.start && ss'.sent == ss.sent
    requires ss'.inflight == ss.inflight - {offset} && ss'.gone == ss.gone[offset := why]
    ensures SlotInv(cfg, log, ss')
  {
    hide EntryInv, ExitInv, Partitioned, FirstsIncrease;
    RemovalShrinks(ss.inflight, offset);
    GonePartitions(ss, ss', offset, why);
  }

  lemma GonePartitions(ss: SlotState, ss': SlotState, offset: int, why: Exit)
    requires Partitioned(ss) && FirstsIncrease(ss) && offset in ss.inflight
    requires ss'.next == ss.next && ss'.start == ss.start && ss'.sent == ss.sent
    requires ss'.inflight == ss.inflight - {offset} && ss'.gone == ss.gone[offset := why]
    ensures Partitioned(ss') && FirstsIncrease(ss')
  {
  }

  lemma RemovalShrinks(m: map<int, Entry>, o: int)
    requires o in m
    ensures |m - {o}| == |m| - 1
  {
    assert (m - {o}).Keys == m.Keys - {o};
  }

  lemma LeaveKeepsSlot(cfg: Config, log: Log, ss: SlotState, offset: int, why: Exit)
    requires SlotInv(cfg, log, ss) && offset in ss.inflight && ExitInv(log, offset, why)
    ensures SlotInv(cfg, log, LeaveSlot(ss, offset, why))
  {
    hide SlotInv, Purge;
    GoneKeepsSlot(cfg, log, ss, LeaveSlot(ss, offset, why), offset, why);
  }

  /** Rewriting an entry in place. */
  lemma RewriteKeepsSlot(cfg: Config, log: Log, ss: SlotState, offset: int, e: Entry)
    requires SlotInv(cfg, log, ss) && offset in ss.inflight && EntryInv(log, offset, e)
    ensures SlotInv(cfg, log, ss.(inflight := ss.inflight[offset := e]))
  {
    assert ss.inflight[offset := e].Keys == ss.inflight.Keys;
  }

  lemma NoteKeepsSlot(cfg: Config, log: Log, ss: SlotState, offset: int, text: string, inEntry: bool)
    requires SlotInv(cfg, log, ss)
    ensures SlotInv(cfg, log, NoteSlot(ss, offset, text, inEntry))
  {
    if inEntry && offset in ss.inflight {
      RewriteKeepsSlot(cfg, log, ss, offset, ss.inflight[offset].(lastError := text));
    }
  }

  lemma AgainKeepsEntry(log: Log, offset: int, e: Entry, owner: string, now: int)
    requires EntryInv(log, offset, e) && !Exhausted(e)
    ensures EntryInv(log, offset, Again(e, owner, now))
  {
  }

  // The whole broker

  ghost predicate TopicsInv(b: State) {
    forall t :: t in b.topics ==> TopicInv(b.topics[t])
  }

  ghost predicate SlotsInv(cfg: Config, b: State) {
    forall s :: s in b.slots ==> SlotInv(cfg, LogOf(b, s), b.slots[s])
  }

  ghost predicate Inv(cfg: Config, b: State) {
    TopicsInv(b) && SlotsInv(cfg, b)
  }

  lemma AtKeepsInv(cfg: Config, b: State, s: Slot)
    requires Inv(cfg, b)
    ensures SlotInv(cfg, LogOf(b, s), At(b, s)) && OffsetsAreIndices(LogOf(b, s)) && Paired(b)
  {
  }

  lemma PutKeepsInv(cfg: Config, b: State, s: Slot, ss: SlotState)
    requires Inv(cfg, b) && SlotInv(cfg, LogOf(b, s), ss)
    ensures Inv(cfg, Put(b, s, ss)) && Inv(cfg, PutOffset(b, s, ss))
  {
    hide SlotInv, TopicInv;
  }

  lemma AppendKeepsInv(cfg: Config, b: State, topic: string, p: nat, m: Message)
    requires Inv(cfg, b) && Exists(b, topic, p) && Paired(b)
    ensures Inv(cfg, Append(b, topic, p, m))
  {
    var b' := Append(b, topic, p, m);
    AppendKeepsTopic(b.topics[topic], p, m);
    forall s | s in b'.slots
      ensures SlotInv(cfg, LogOf(b', s), b'.slots[s])
    {
      if s.topic == topic && s.partition == p {
        GrowKeepsSlot(cfg, LogOf(b, s), b.slots[s], Placed(m, p, |b.topics[topic].logs[p]|));
      }
    }
  }

  lemma NewTopicInv(partitions: nat)
    ensures TopicInv(NewTopic(partitions))
  {
  }

  lemma AddTopicKeepsInv(cfg: Config, b: State, name: string, partitions: nat)
    requires Inv(cfg, b) && name !in b.topics
    ensures Inv(cfg, b.(topics := b.topics[name := NewTopic(partitions)]))
  {
    hide SlotInv;
    NewTopicInv(partitions);
    var b' := b.(topics := b.topics[name := NewTopic(partitions)]);
    forall s | s in b'.slots
      ensures SlotInv(cfg, LogOf(b', s), b'.slots[s])
    {
      assert LogOf(b', s) == LogOf(b, s);
    }
  }

  /** Steps that change only the flush bookkeeping or nothing about delivery. */
  lemma OffsetsOnlyKeepsInv(cfg: Config, b: State, b': State)
    requires Inv(cfg, b) && b'.topics == b.topics && b'.slots.Keys == b.slots.Keys
    requires forall s :: s in b.slots ==>
               b'.slots[s] == b.slots[s].(pending := b'.slots[s].pending, taken := b'.slots[s].taken)
    ensures Inv(cfg, b')
  {
    hide SlotInv, TopicInv;
    forall s | s in b'.slots
      ensures SlotInv(cfg, LogOf(b', s), b'.slots[s])
    {
      assert LogOf(b', s) == LogOf(b, s);
      SameKeepsSlot(cfg, LogOf(b, s), b.slots[s], b'.slots[s]);
    }
  }

  /** Every step keeps the delivery invariant. */
  lemma StepKeepsInv(cfg: Config, b: State, step: Step)
    requires Inv(cfg, b) && Paired(b) && Enabled(cfg, b, step)
    ensures Inv(cfg, Apply(cfg, b, step))
  {
    hide Inv, Apply, Enabled, Paired;
    match step
    case CreateTopic(_, _, _) => TopicStepKeepsInv(cfg, b, step);
    case Produce(_, _, _, _, _) => TopicStepKeepsInv(cfg, b, step);
    case EnsureDlq(_) => TopicStepKeepsInv(cfg, b, step);
    case Init(_) => CursorStepKeepsInv(cfg, b, step);
    case Skip(_) => CursorStepKeepsInv(cfg, b, step);
    case SendSimple(_) => CursorStepKeepsInv(cfg, b, step);
    case Send(_, _, _) => CursorStepKeepsInv(cfg, b, step);
    case Ack(_, _) => AckStepKeepsInv(cfg, b, step);
    case Note(_, _, _, _, _) => AckStepKeepsInv(cfg, b, step);
    case Settle(_, _) => AckStepKeepsInv(cfg, b, step);
    case Nack(s, offset, now) => NackKeepsInv(cfg, b, s, offset, now);
    case Redeliver(s, offset, owner, now) => RedeliverKeepsInv(cfg, b, s, offset, owner, now);
    case Bury(_, _, _, _, _) => BuryStepKeepsInv(cfg, b, step);
    case Register(_, _) => QuietStepKeepsInv(cfg, b, step);
    case Unregister(_, _) => QuietStepKeepsInv(cfg, b, step);
    case TouchGroup(_) => QuietStepKeepsInv(cfg, b, step);
    case Idem(_) => QuietStepKeepsInv(cfg, b, step);
    case FlushTake => QuietStepKeepsInv(cfg, b, step);
    case FlushWrite(_) => QuietStepKeepsInv(cfg, b, step);
    case FlushFail => QuietStepKeepsInv(cfg, b, step);
  }

  lemma TopicStepKeepsInv(cfg: Config, b: State, step: Step)
    requires Inv(cfg, b) && Paired(b) && Enabled(cfg, b, step)
             && (step.CreateTopic? || step.Produce? || step.EnsureDlq?)
    ensures Inv(cfg, Apply(cfg, b, step))
  {
    hide SlotInv, TopicInv, Slowest, Admits;
    match step
    case CreateTopic(name, partitions, logged) => AddTopicKeepsInv(cfg, b, name, partitions);
    case Produce(topic, p, m, _, _) => AppendKeepsInv(cfg, b, topic, p, m);
    case EnsureDlq(topic) =>
      if DlqTopic(topic) !in b.topics {
        AddTopicKeepsInv(cfg, b, DlqTopic(topic), if |b.topics[topic].logs| > 0 then |b.topics[topic].logs| else 1);
      }
  }

  lemma CursorStepKeepsInv(cfg: Config, b: State, step: Step)
    requires Inv(cfg, b) && Paired(b) && Enabled(cfg, b, step)
    requires step.Init? || step.Skip? || step.SendSimple? || step.Send?
    ensures Inv(cfg, Apply(cfg, b, step))
  {
    hide Inv, SlotInv, Pass, Launch, StartCursor, Put, PutOffset, DoneFor, Leased;
    var s := step.slot;
    AtKeepsInv(cfg, b, s);
    match step
    case Init(_) =>
      StartKeepsSlot(cfg, LogOf(b, s), At(b, s));
      PutKeepsInv(cfg, b, s, StartCursor(At(b, s), |LogOf(b, s)|));
    case Skip(_) =>
      PassKeepsSlot(cfg, LogOf(b, s), At(b, s), SkippedDone);
      PutKeepsInv(cfg, b, s, Pass(At(b, s), Head(b, s).offset, SkippedDone));
    case SendSimple(_) =>
      PassKeepsSlot(cfg, LogOf(b, s), At(b, s), AutoCommitted);
      PutKeepsInv(cfg, b, s, Pass(At(b, s), Head(b, s).offset, AutoCommitted));
    case Send(_, owner, now) =>
      LaunchKeepsSlot(cfg, LogOf(b, s), At(b, s), owner, now);
      PutKeepsInv(cfg, b, s, Launch(At(b, s), Head(b, s), owner, now));
  }

  lemma AckStepKeepsInv(cfg: Config, b: State, step: Step)
    requires Inv(cfg, b) && Paired(b) && Enabled(cfg, b, step) && (step.Ack? || step.Note? || step.Settle?)
    ensures Inv(cfg, Apply(cfg, b, step))
  {
    hide Inv, SlotInv, AckSlot, NoteSlot, LeaveSlot, ExitInv, EntryInv, Put, PutOffset, DoneFor;
    var s := step.slot;
    AtKeepsInv(cfg, b, s);
    match step
    case Ack(_, offset) =>
      AckKeepsSlot(cfg, LogOf(b, s), At(b, s), offset);
      PutKeepsInv(cfg, b, s, AckSlot(At(b, s), offset));
    case Note(_, offset, text, inEntry, logged) =>
      NoteKeepsSlot(cfg, LogOf(b, s), At(b, s), offset, text, inEntry);
      PutKeepsInv(cfg, b, s, NoteSlot(At(b, s), offset, text, inEntry));
      SameInv(cfg, Put(b, s, NoteSlot(At(b, s), offset, text, inEntry)), Apply(cfg, b, step));
    case Settle(_, offset) =>
      SettledExit(cfg, b, s, offset);
      LeaveKeepsInv(cfg, b, s, offset, SettledDone);
  }

  lemma SettledExit(cfg: Config, b: State, s: Slot, offset: int)
    requires Inv(cfg, b) && Flying(b, s, offset)
    ensures ExitInv(LogOf(b, s), offset, SettledDone)
  {
    hide Inv;
    EntryAt(cfg, b, s, offset);
  }

  lemma SameInv(cfg: Config, b: State, b': State)
    requires Inv(cfg, b) && b'.topics == b.topics && b'.slots == b.slots
    ensures Inv(cfg, b')
  {
    hide SlotInv, TopicInv;
    forall s | s in b'.slots
      ensures SlotInv(cfg, LogOf(b', s), b'.slots[s])
    {
      assert LogOf(b', s) == LogOf(b, s);
    }
  }

  lemma BuryStepKeepsInv(cfg: Config, b: State, step: Step)
    requires Inv(cfg, b) && Paired(b) && Enabled(cfg, b, step) && step.Bury?
    ensures Inv(cfg, Apply(cfg, b, step))
  {
    hide Inv, SlotInv, TopicInv, LeaveSlot, DeadLetter, Slowest, Admits, Append, PutOffset;
    BuryKeepsInv(cfg, b, step.slot, step.offset, step.partition, step.now);
  }

  lemma QuietStepKeepsInv(cfg: Config, b: State, step: Step)
    requires Inv(cfg, b) && Paired(b) && Enabled(cfg, b, step)
    requires step.Register? || step.Unregister? || step.TouchGroup? || step.Idem?
             || step.FlushTake? || step.FlushWrite? || step.FlushFail?
    ensures Inv(cfg, Apply(cfg, b, step))
  {
    hide Inv, I.Do;
    OffsetsOnlyKeepsInv(cfg, b, Apply(cfg, b, step));
  }

  lemma EntryAt(cfg: Config, b: State, s: Slot, offset: int)
    requires Inv(cfg, b) && Flying(b, s, offset)
    ensures EntryInv(LogOf(b, s), offset, At(b, s).inflight[offset])
  {
    AtKeepsInv(cfg, b, s);
  }

  lemma NackKeepsInv(cfg: Config, b: State, s: Slot, offset: int, now: int)
    requires Inv(cfg, b) && Paired(b) && Enabled(cfg, b, Nack(s, offset, now))
    ensures Inv(cfg, Apply(cfg, b, Nack(s, offset, now)))
  {
    hide SlotInv, TopicInv;
    AtKeepsInv(cfg, b, s);
    EntryAt(cfg, b, s, offset);
    var ss := At(b, s);
    var e := ss.inflight[offset];
    var lease := NackLease(Streams(b, s), e.owner, cfg.ackTimeout);
    var e' := e.(nextAt := None, sentAt := now - lease - MILLISECOND);
    RewriteKeepsSlot(cfg, LogOf(b, s), ss, offset, e');
    PutKeepsInv(cfg, b, s, ss.(inflight := ss.inflight[offset := e']));
  }

  lemma RedeliverKeepsInv(cfg: Config, b: State, s: Slot, offset: int, owner: string, now: int)
    requires Inv(cfg, b) && Paired(b) && Enabled(cfg, b, Redeliver(s, offset, owner, now))
    ensures Inv(cfg, Apply(cfg, b, Redeliver(s, offset, owner, now)))
  {
    hide SlotInv, TopicInv;
    AtKeepsInv(cfg, b, s);
    EntryAt(cfg, b, s, offset);
    var ss := At(b, s);
    AgainKeepsEntry(LogOf(b, s), offset, ss.inflight[offset], owner, now);
    RewriteKeepsSlot(cfg, LogOf(b, s), ss, offset, Again(ss.inflight[offset], owner, now));
    PutKeepsInv(cfg, b, s, ss.(inflight := ss.inflight[offset := Again(ss.inflight[offset], owner, now)]));
  }

  lemma LeaveKeepsInv(cfg: Config, b: State, s: Slot, offset: int, why: Exit)
    requires Inv(cfg, b) && Flying(b, s, offset) && ExitInv(LogOf(b, s), offset, why)
    ensures Inv(cfg, PutOffset(b, s, LeaveSlot(At(b, s), offset, why)))
  {
    hide SlotInv, TopicInv;
    AtKeepsInv(cfg, b, s);
    LeaveKeepsSlot(cfg, LogOf(b, s), At(b, s), offset, why);
    PutKeepsInv(cfg, b, s, LeaveSlot(At(b, s), offset, why));
  }

  lemma BuryKeepsInv(cfg: Config, b: State, s: Slot, offset: int, p: nat, now: int)
    requires Inv(cfg, b) && Paired(b) && Flying(b, s, offset) && Exhausted(At(b, s).inflight[offset])
    requires !IsDlq(s.topic) ==> Exists(b, DlqTopic(s.topic), p)
    ensures var e := At(b, s).inflight[offset];
            var b' := PutOffset(b, s, LeaveSlot(At(b, s), offset, DeadLettered(e.attempts)));
            Inv(cfg, if IsDlq(s.topic) then b' else Append(b', DlqTopic(s.topic), p, DeadLetter(s.topic, e, now)))
  {
    hide SlotInv, TopicInv;
    EntryAt(cfg, b, s, offset);
    var e := At(b, s).inflight[offset];
    LeaveKeepsInv(cfg, b, s, offset, DeadLettered(e.attempts));
    var b' := PutOffset(b, s, LeaveSlot(At(b, s), offset, DeadLettered(e.attempts)));
    if !IsDlq(s.topic) {
      AppendKeepsInv(cfg, b', DlqTopic(s.topic), p, DeadLetter(s.topic, e, now));
    }
  }
}
