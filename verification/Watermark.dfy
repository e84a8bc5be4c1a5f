/** Cumulative acknowledgement (AckCumulativeIfOwner in internal/broker/broker.go) on a slot that
    uses only leasing consumers and plain messages: no idempotency key, no retry limit.

    A cumulative call checks its range under the lock and then acknowledges one offset after the
    other, releasing the lock in between; calls of any owners, redeliveries and crashes may come
    between any two of its steps. */
module Watermark {
  import opened Common
  import opened Records
  import opened BrokerState
  import opened Delivery
  import opened WalReplay
  import I = Idempotency

  /** A cumulative call under way: the next offset it will acknowledge and the last. */
  datatype Call = Call(owner: string, next: int, last: int)

  datatype World = World(b: State, calls: map<nat, Call>)

  datatype Move =
    | Do(step: Step)
    | Begin(id: nat, owner: string, offset: int)
    | Continue(id: nat)
    | Crash(now: int)

  predicate Plain(m: Message) {
    !Keyed(m) && RetryLimit(m) == 0
  }

  /** The offset is settled already, or it is the next one and in flight. */
  predicate Marks(ss: SlotState, offset: int) {
    offset <= ss.committed || (offset == ss.committed + 1 && offset in ss.inflight)
  }

  /** The dead letter of this step goes to the slot's partition. */
  predicate BuriesInto(s: Slot, step: Step) {
    step.Bury? && !IsDlq(step.slot.topic) && DlqTopic(step.slot.topic) == s.topic && step.partition == s.partition
  }

  /** What the slot's users may do by other means: nothing but leasing consumers, plain messages
      (dead letters too), and single acknowledgements only of the next offset. */
  predicate Allowed(b: State, s: Slot, step: Step) {
    match step
    case Ack(u, offset) => u == s ==> Marks(At(b, s), offset)
    case Produce(topic, p, m, _, _) => topic == s.topic && p == s.partition ==> Plain(m)
    case Register(gid, c) => gid == GroupId(s.topic, s.group) ==> c.lease > 0
    case Bury(u, offset, _, _, _) =>
      BuriesInto(s, step) && offset in At(b, u).inflight ==> !Keyed(At(b, u).inflight[offset].msg)
    case _ => true
  }

  function Owned(ss: SlotState, offset: int, owner: string): bool {
    offset in ss.inflight && ss.inflight[offset].owner == owner
  }

  ghost predicate Moves(cfg: Config, s: Slot, w: World, mv: Move, w': World) {
    match mv
    case Do(step) =>
      Paired(w.b) && Enabled(cfg, w.b, step) && Allowed(w.b, s, step) && w' == World(Apply(cfg, w.b, step), w.calls)
    case Begin(id, owner, offset) =>
      var ss := At(w.b, s);
      && Known(w.b, s) && id !in w.calls && offset > ss.committed
      && (forall o :: ss.committed < o <= offset ==> Owned(ss, o, owner))
      && w' == World(w.b, w.calls[id := Call(owner, ss.committed + 1, offset)])
    case Continue(id) =>
      && id in w.calls && Paired(w.b)
      && var c := w.calls[id];
      if c.next > c.last || !Owned(At(w.b, s), c.next, c.owner) then w' == World(w.b, w.calls - {id})
      else
        && Enabled(cfg, w.b, Ack(s, c.next))
        && w' == World(Apply(cfg, w.b, Ack(s, c.next)), w.calls[id := c.(next := c.next + 1)])
    case Crash(now) =>
      Recovered(w.b.wal).Some? && w' == World(Rebuilt(Recovered(w.b.wal).value, w.b.wal, now), map[])
  }

  // The invariant

  /** The in-flight offsets are exactly those between the committed offset and the cursor. */
  ghost predicate Watermarked(ss: SlotState, len: nat) {
    && -1 <= ss.committed < len
    && (ss.next.None? ==> ss.inflight == map[])
    && (ss.next.Some? ==>
          && ss.committed < ss.next.value <= len
          && forall o :: o in ss.inflight <==> ss.committed < o < ss.next.value)
  }

  ghost predicate PlainSlot(b: State, s: Slot) {
    && (forall i :: 0 <= i < |LogOf(b, s)| ==> Plain(LogOf(b, s)[i]))
    && (forall c :: c in Streams(b, s) ==> c.lease > 0)
  }

  ghost predicate CallsBehind(calls: map<nat, Call>, committed: int) {
    forall id :: id in calls ==> calls[id].next <= committed + 1
  }

  ghost predicate Good(cfg: Config, s: Slot, w: World) {
    && WalInv(cfg, w.b)
    && Watermarked(At(w.b, s), |LogOf(w.b, s)|)
    && PlainSlot(w.b, s) && CallsBehind(w.calls, At(w.b, s).committed)
  }

  lemma SameMark(ss: SlotState, len: nat, ss': SlotState, len': nat)
    requires Watermarked(ss, len) && len <= len'
    requires ss'.committed == ss.committed && ss'.next == ss.next && ss'.inflight.Keys == ss.inflight.Keys
    ensures Watermarked(ss', len')
  {
  }

  lemma StartMark(ss: SlotState, len: nat)
    requires Watermarked(ss, len) && ss.next.None?
    ensures Watermarked(StartCursor(ss, len), len)
  {
  }

  lemma LaunchMark(ss: SlotState, len: nat, m: Message, owner: string, now: int)
    requires Watermarked(ss, len) && ss.next.Some? && m.offset == ss.next.value < len
    ensures Watermarked(Launch(ss, m, owner, now), len)
  {
  }

  /** Exactly when an acknowledgement, single or not, leaves the committed offset a watermark. */
  lemma AckKeepsMark(ss: SlotState, len: nat, offset: nat)
    requires Watermarked(ss, len) && ss.next.Some?
    ensures Watermarked(AckSlot(ss, offset), len) <==> Marks(ss, offset)
  {
    var ss' := AckSlot(ss, offset);
    assert offset > ss.committed + 1 && ss.committed + 1 < ss.next.value ==> ss.committed + 1 in ss'.inflight;
    assert offset > ss.committed && offset !in ss.inflight ==> offset >= ss.next.value;
  }

  /** Exactly when an entry that leaves otherwise does, as a dead letter or as done. */
  lemma LeaveKeepsMark(ss: SlotState, len: nat, offset: nat, why: Exit)
    requires Watermarked(ss, len) && ss.next.Some?
    ensures Watermarked(LeaveSlot(ss, offset, why), len) <==> Marks(ss, offset)
  {
    var ss' := LeaveSlot(ss, offset, why);
    assert offset > ss.committed + 1 && ss.committed + 1 < ss.next.value ==> ss.committed + 1 in ss'.inflight;
    assert offset > ss.committed && offset !in ss.inflight ==> offset >= ss.next.value;
  }

  /** An acknowledgement of a settled offset on a slot without a cursor changes nothing. */
  lemma OldAckMark(ss: SlotState, len: nat, offset: nat)
    requires Watermarked(ss, len) && Marks(ss, offset)
    ensures Watermarked(AckSlot(ss, offset), len) && AckSlot(ss, offset).committed >= ss.committed
  {
    if ss.next.Some? {
      AckKeepsMark(ss, len, offset);
    }
  }

  /** Acknowledging the offset after the committed one moves the mark by one. */
  lemma AckMark(ss: SlotState, len: nat, offset: int)
    requires Watermarked(ss, len) && offset in ss.inflight && offset <= ss.committed + 1
    ensures offset == ss.committed + 1
    ensures Watermarked(AckSlot(ss, offset), len) && AckSlot(ss, offset).committed == offset
  {
  }

  /** What cannot happen on such a slot. */
  lemma Impossible(cfg: Config, b: State, step: Step, s: Slot)
    requires Inv(cfg, b) && PlainSlot(b, s) && Enabled(cfg, b, step)
    ensures !(step.Skip? && step.slot == s) && !(step.SendSimple? && step.slot == s)
    ensures !(step.Settle? && step.slot == s) && !(step.Bury? && step.slot == s)
  {
    hide Inv, Slowest, Admits, LeaseFor, Expired, RetryLimit;
    if (step.Settle? || step.Bury?) && step.slot == s {
      EntryAt(cfg, b, s, step.offset);
    }
  }

  /** The slot's mark after a step of its own. */
  lemma OwnStepMark(cfg: Config, b: State, step: Step)
    requires Inv(cfg, b) && Paired(b) && Enabled(cfg, b, step)
    requires step.Init? || step.Send? || step.Note? || step.Nack? || step.Redeliver?
    requires Watermarked(At(b, step.slot), |LogOf(b, step.slot)|)
    ensures var b' := Apply(cfg, b, step);
            && Watermarked(At(b', step.slot), |LogOf(b', step.slot)|)
            && At(b', step.slot).committed == At(b, step.slot).committed
            && LogOf(b', step.slot) == LogOf(b, step.slot) && Streams(b', step.slot) == Streams(b, step.slot)
  {
    hide Inv, Enabled, Apply, Watermarked;
    var s := step.slot;
    var ss, len := At(b, s), |LogOf(b, s)|;
    FrameMark(cfg, b, step, s);
    if step.Init? {
      CursorMark(cfg, b, step);
      StartMark(ss, len);
    } else if step.Send? {
      AtKeepsInv(cfg, b, s);
      CursorMark(cfg, b, step);
      LaunchMark(ss, len, Head(b, s), step.owner, step.now);
    } else {
      EntryMark(cfg, b, step);
      SameMark(ss, len, At(Apply(cfg, b, step), s), len);
    }
  }

  /** An allowed acknowledgement. */
  lemma OwnAckMark(cfg: Config, b: State, s: Slot, offset: nat)
    requires Paired(b) && Enabled(cfg, b, Ack(s, offset)) && Marks(At(b, s), offset)
    requires Watermarked(At(b, s), |LogOf(b, s)|)
    ensures var b' := Apply(cfg, b, Ack(s, offset));
            && Watermarked(At(b', s), |LogOf(b', s)|) && At(b', s).committed >= At(b, s).committed
            && LogOf(b', s) == LogOf(b, s) && Streams(b', s) == Streams(b, s)
  {
    hide Watermarked, AckSlot, Marks;
    FrameMark(cfg, b, Ack(s, offset), s);
    OldAckMark(At(b, s), |LogOf(b, s)|, offset);
  }

  lemma CursorMark(cfg: Config, b: State, step: Step)
    requires Paired(b) && Enabled(cfg, b, step) && (step.Init? || step.Send?)
    ensures step.Init? ==> At(b, step.slot).next.None?
                           && At(Apply(cfg, b, step), step.slot) == StartCursor(At(b, step.slot), |LogOf(b, step.slot)|)
    ensures step.Send? ==>
              && HasHead(b, step.slot)
              && At(Apply(cfg, b, step), step.slot) == Launch(At(b, step.slot), Head(b, step.slot), step.owner,
                                                              step.now)
  {
    hide Enabled, Apply, Launch, StartCursor;
    SlotStepIs(cfg, b, step);
  }

  lemma EntryMark(cfg: Config, b: State, step: Step)
    requires Paired(b) && Enabled(cfg, b, step) && (step.Note? || step.Nack? || step.Redeliver?)
    ensures var ss, ss' := At(b, step.slot), At(Apply(cfg, b, step), step.slot);
            ss'.committed == ss.committed && ss'.next == ss.next && ss'.inflight.Keys == ss.inflight.Keys
  {
    hide Enabled, Apply, NackLease, Again;
    SlotStepIs(cfg, b, step);
  }

  /** A step elsewhere: the slot, its log up to plain messages, and its streams stay as required. */
  lemma OtherStepMark(cfg: Config, b: State, step: Step, s: Slot)
    requires Inv(cfg, b) && Paired(b) && Enabled(cfg, b, step) && Allowed(b, s, step)
    requires !(step.Init? || step.Send? || step.Note? || step.Nack? || step.Redeliver? || step.Ack? || step.Skip?
               || step.SendSimple? || step.Settle? || step.Bury?) || step.slot != s
    requires PlainSlot(b, s)
    ensures var b' := Apply(cfg, b, step);
            && PlainSlot(b', s) && |LogOf(b, s)| <= |LogOf(b', s)|
            && At(b', s).committed == At(b, s).committed && At(b', s).next == At(b, s).next
            && At(b', s).inflight == At(b, s).inflight
  {
    hide Inv;
    if step.Produce? {
      ProduceMark(cfg, b, step, s);
    } else if step.Register? || step.Unregister? {
      StreamMark(cfg, b, step, s);
    } else if step.CreateTopic? || step.EnsureDlq? {
      CreateMark(cfg, b, step, s);
    } else if step.Bury? {
      BuryMark(cfg, b, step, s);
    } else {
      RestMark(cfg, b, step, s);
    }
    hide Enabled, Apply, PlainSlot;
  }

  lemma ProduceMark(cfg: Config, b: State, step: Step, s: Slot)
    requires Paired(b) && Enabled(cfg, b, step) && Allowed(b, s, step) && step.Produce? && PlainSlot(b, s)
    ensures var b' := Apply(cfg, b, step);
            PlainSlot(b', s) && |LogOf(b, s)| <= |LogOf(b', s)| && At(b', s) == At(b, s)
  {
    hide Slowest, Admits, ToEntry, Keyed, RetryLimit;
    var b' := Apply(cfg, b, step);
    var here := step.logged && step.topic == s.topic && step.partition == s.partition;
    var placed := Placed(step.msg, step.partition, |b.topics[step.topic].logs[step.partition]|);
    PlacedPlain(step.msg, step.partition, |b.topics[step.topic].logs[step.partition]|);
    assert LogOf(b', s) == if here then LogOf(b, s) + [placed] else LogOf(b, s);
    assert Streams(b', s) == Streams(b, s);
  }

  lemma PlacedPlain(m: Message, p: int, offset: int)
    ensures Plain(Placed(m, p, offset)) == Plain(m)
  {
  }

  lemma StreamMark(cfg: Config, b: State, step: Step, s: Slot)
    requires Paired(b) && Enabled(cfg, b, step) && Allowed(b, s, step) && (step.Register? || step.Unregister?)
             && PlainSlot(b, s)
    ensures var b' := Apply(cfg, b, step); PlainSlot(b', s) && LogOf(b', s) == LogOf(b, s) && At(b', s) == At(b, s)
  {
    hide Plain;
    var b' := Apply(cfg, b, step);
    assert LogOf(b', s) == LogOf(b, s);
    forall c | c in Streams(b', s)
      ensures c in Streams(b, s) || c.lease > 0
    {
    }
  }

  lemma CreateMark(cfg: Config, b: State, step: Step, s: Slot)
    requires Paired(b) && Enabled(cfg, b, step) && (step.CreateTopic? || step.EnsureDlq?) && PlainSlot(b, s)
    ensures var b' := Apply(cfg, b, step); PlainSlot(b', s) && LogOf(b', s) == LogOf(b, s) && At(b', s) == At(b, s)
  {
    hide PlainSlot;
    var b' := Apply(cfg, b, step);
    assert LogOf(b', s) == LogOf(b, s);
    assert Streams(b', s) == Streams(b, s);
    SamePlain(b, b', s);
  }

  lemma BuryMark(cfg: Config, b: State, step: Step, s: Slot)
    requires Inv(cfg, b) && Paired(b) && Enabled(cfg, b, step) && Allowed(b, s, step) && PlainSlot(b, s)
    requires step.Bury? && step.slot != s
    ensures var b' := Apply(cfg, b, step);
            PlainSlot(b', s) && |LogOf(b, s)| <= |LogOf(b', s)| && At(b', s) == At(b, s)
  {
    hide Inv, Apply, Enabled, PlainSlot;
    var b' := Apply(cfg, b, step);
    BuriedAt(cfg, b, step, s);
    if BuriesInto(s, step) {
      BuriedPlain(cfg, b, step, s);
    } else {
      SamePlain(b, b', s);
    }
  }

  lemma BuriedAt(cfg: Config, b: State, step: Step, s: Slot)
    requires Paired(b) && Enabled(cfg, b, step) && step.Bury? && step.slot != s
    ensures var b' := Apply(cfg, b, step);
            && At(b', s) == At(b, s) && Streams(b', s) == Streams(b, s) && step.offset in At(b, step.slot).inflight
            && if BuriesInto(s, step)
               then
                 var dead := DeadLetter(step.slot.topic, At(b, step.slot).inflight[step.offset], step.now);
                 LogOf(b', s) == LogOf(b, s) + [Placed(dead, s.partition, |LogOf(b, s)|)]
               else LogOf(b', s) == LogOf(b, s)
  {
    hide Enabled, Apply, LeaveSlot, DeadLetter, ToEntry;
    BuryIs(cfg, b, step);
  }

  lemma BuriedPlain(cfg: Config, b: State, step: Step, s: Slot)
    requires Paired(b) && Enabled(cfg, b, step) && Allowed(b, s, step) && PlainSlot(b, s)
    requires step.Bury? && step.slot != s && BuriesInto(s, step)
    ensures PlainSlot(Apply(cfg, b, step), s) && |LogOf(b, s)| <= |LogOf(Apply(cfg, b, step), s)|
  {
    hide Enabled, Apply, Plain;
    BuriedAt(cfg, b, step, s);
    var e := At(b, step.slot).inflight[step.offset];
    DeadIsPlain(step.slot.topic, e, step.now, s.partition, |LogOf(b, s)|);
  }

  lemma DeadIsPlain(topic: string, e: Entry, now: int, p: nat, offset: int)
    ensures Plain(Placed(DeadLetter(topic, e, now), p, offset)) <==> !Keyed(e.msg)
  {
  }

  lemma FrameMark(cfg: Config, b: State, step: Step, s: Slot)
    requires Paired(b) && Enabled(cfg, b, step)
    requires !(step.Produce? || step.Register? || step.Unregister? || step.CreateTopic? || step.EnsureDlq?
               || step.Bury?)
    ensures var b' := Apply(cfg, b, step); LogOf(b', s) == LogOf(b, s) && Streams(b', s) == Streams(b, s)
  {
    if OnSlot(step) {
      hide Enabled, Apply, Moved;
      SlotStepIs(cfg, b, step);
    } else {
      hide At, I.Do;
    }
  }

  lemma FlushMark(cfg: Config, b: State, step: Step, s: Slot)
    requires Paired(b) && Enabled(cfg, b, step)
    requires step.TouchGroup? || step.Idem? || step.FlushTake? || step.FlushWrite? || step.FlushFail?
    ensures var b' := Apply(cfg, b, step);
            && At(b', s).committed == At(b, s).committed && At(b', s).next == At(b, s).next
            && At(b', s).inflight == At(b, s).inflight
  {
    hide I.Do;
  }

  lemma RestMark(cfg: Config, b: State, step: Step, s: Slot)
    requires Paired(b) && Enabled(cfg, b, step) && PlainSlot(b, s)
    requires !(step.Produce? || step.Register? || step.Unregister? || step.CreateTopic? || step.EnsureDlq?
               || step.Bury?)
    requires step.TouchGroup? || step.Idem? || step.FlushTake? || step.FlushWrite? || step.FlushFail? || step.slot != s
    ensures var b' := Apply(cfg, b, step);
            && PlainSlot(b', s) && LogOf(b', s) == LogOf(b, s)
            && At(b', s).committed == At(b, s).committed && At(b', s).next == At(b, s).next
            && At(b', s).inflight == At(b, s).inflight
  {
    hide Apply, Enabled, PlainSlot;
    FrameMark(cfg, b, step, s);
    SamePlain(b, Apply(cfg, b, step), s);
    if step.TouchGroup? || step.Idem? || step.FlushTake? || step.FlushWrite? || step.FlushFail? {
      FlushMark(cfg, b, step, s);
    } else {
      OtherSlotsSame(cfg, b, step);
    }
  }

  lemma StepKeepsGood(cfg: Config, s: Slot, w: World, step: Step)
    requires Good(cfg, s, w) && Paired(w.b) && Enabled(cfg, w.b, step) && Allowed(w.b, s, step)
    ensures Good(cfg, s, World(Apply(cfg, w.b, step), w.calls))
  {
    hide Inv, Agrees, RowsAgree, Enabled, Apply, Watermarked, PlainSlot;
    StepKeepsInv(cfg, w.b, step);
    StepAgrees(cfg, w.b, step);
    StepKeepsRows(cfg, w.b, step);
    Impossible(cfg, w.b, step, s);
    if (step.Init? || step.Send? || step.Note? || step.Nack? || step.Redeliver?) && step.slot == s {
      OwnStepMark(cfg, w.b, step);
      SamePlain(w.b, Apply(cfg, w.b, step), s);
    } else if step.Ack? && step.slot == s {
      AckOffset(cfg, w.b, step);
      OwnAckMark(cfg, w.b, s, step.offset);
      SamePlain(w.b, Apply(cfg, w.b, step), s);
    } else {
      OtherStepMark(cfg, w.b, step, s);
      SameMark(At(w.b, s), |LogOf(w.b, s)|, At(Apply(cfg, w.b, step), s), |LogOf(Apply(cfg, w.b, step), s)|);
    }
  }

  lemma AckOffset(cfg: Config, b: State, step: Step)
    requires step.Ack? && Enabled(cfg, b, step)
    ensures step.offset >= 0
  {
  }

  lemma SamePlain(b: State, b': State, s: Slot)
    requires PlainSlot(b, s) && LogOf(b', s) == LogOf(b, s) && Streams(b', s) == Streams(b, s)
    ensures PlainSlot(b', s)
  {
  }

  /** A cumulative call's acknowledgement hits exactly the offset after the committed one. */
  lemma ContinueKeepsGood(cfg: Config, s: Slot, w: World, id: nat)
    requires Good(cfg, s, w) && id in w.calls && Paired(w.b)
    requires Owned(At(w.b, s), w.calls[id].next, w.calls[id].owner) && Enabled(cfg, w.b, Ack(s, w.calls[id].next))
    ensures w.calls[id].next == At(w.b, s).committed + 1
    ensures Good(cfg, s,
                 World(Apply(cfg, w.b, Ack(s, w.calls[id].next)),
                       w.calls[id := w.calls[id].(next := w.calls[id].next + 1)]))
  {
    hide Inv, Agrees, RowsAgree, Watermarked, PlainSlot, AckSlot;
    var step := Ack(s, w.calls[id].next);
    StepKeepsInv(cfg, w.b, step);
    StepAgrees(cfg, w.b, step);
    StepKeepsRows(cfg, w.b, step);
    AckMark(At(w.b, s), |LogOf(w.b, s)|, w.calls[id].next);
    SamePlain(w.b, Apply(cfg, w.b, step), s);
  }

  lemma CrashKeepsGood(cfg: Config, s: Slot, w: World, now: int)
    requires Good(cfg, s, w)
    ensures Good(cfg, s, World(Rebuilt(Recovered(w.b.wal).value, w.b.wal, now), map[]))
    ensures At(Rebuilt(Recovered(w.b.wal).value, w.b.wal, now), s).committed <= At(w.b, s).committed
  {
    hide Inv, Agrees, RowsAgree, Recovered, RecoveredItems;
    assert Recovered(w.b.wal).Some? by { RecoverySucceeds(w.b); }
    RestartAgrees(cfg, w.b, now);
    RestartPlain(w.b, s, now);
    CommittedAtLeast(cfg, Rebuilt(Recovered(w.b.wal).value, w.b.wal, now), s);
  }

  lemma RecoverySucceeds(b: State)
    requires Agrees(b)
    ensures Recovered(b.wal).Some?
  {
  }

  lemma CommittedAtLeast(cfg: Config, b: State, s: Slot)
    requires Agrees(b)
    ensures At(b, s).committed >= -1
  {
    assert OffsetAgrees(LoggedOffset(Recovered(b.wal).value, s), At(b, s));
  }

  lemma RestartPlain(b: State, s: Slot, now: int)
    requires Agrees(b) && PlainSlot(b, s)
    ensures var b' := Rebuilt(Recovered(b.wal).value, b.wal, now); PlainSlot(b', s) && |LogOf(b', s)| == |LogOf(b, s)|
  {
    hide RecoveredItems, Recovered, Canonical, RetryLimit, IdempotencyKey, ItemsAgree, OffsetsAgree, TopicInv;
    var r := Recovered(b.wal).value;
    var b' := Rebuilt(r, b.wal, now);
    assert LogOf(b', s) == LogIn(r.topics, s.topic, s.partition);
    if s.topic in b.topics {
      assert LogIn(r.topics, s.topic, s.partition) == CanonicalLog(LogIn(b.topics, s.topic, s.partition));
    }
    forall i | 0 <= i < |LogOf(b', s)|
      ensures Plain(LogOf(b', s)[i])
    {
      CanonicalBehaves(LogOf(b, s)[i], 0);
    }
  }

  lemma MoveKeepsGood(cfg: Config, s: Slot, w: World, mv: Move, w': World)
    requires Good(cfg, s, w) && Moves(cfg, s, w, mv, w')
    ensures Good(cfg, s, w')
  {
    hide WalInv, Watermarked, PlainSlot, Enabled, Apply, Rebuilt, Recovered;
    match mv
    case Do(step) => StepKeepsGood(cfg, s, w, step);
    case Begin(_, _, _) =>
    case Continue(id) =>
      var c := w.calls[id];
      if !(c.next > c.last || !Owned(At(w.b, s), c.next, c.owner)) {
        ContinueKeepsGood(cfg, s, w, id);
      }
    case Crash(now) => CrashKeepsGood(cfg, s, w, now);
  }

  ghost predicate IsRun(cfg: Config, s: Slot, worlds: seq<World>, moves: seq<Move>) {
    && |worlds| == |moves| + 1 && worlds[0] == World(INITIAL, map[])
    && forall i :: 0 <= i < |moves| ==> Moves(cfg, s, worlds[i], moves[i], worlds[i + 1])
  }

  /** Under any interleaving of owners, redeliveries, flushes and crashes, the in-flight set is
      exactly the offsets strictly between the committed offset and the cursor. */
  lemma {:induction false} WatermarkTheorem(cfg: Config, s: Slot, worlds: seq<World>, moves: seq<Move>, i: nat)
    requires IsRun(cfg, s, worlds, moves) && i <= |moves|
    ensures Good(cfg, s, worlds[i])
  {
    hide Good, Moves;
    if i == 0 {
      InitialGood(cfg, s);
    } else {
      WatermarkTheorem(cfg, s, worlds, moves, i - 1);
      MoveKeepsGood(cfg, s, worlds[i - 1], moves[i - 1], worlds[i]);
    }
  }

  lemma InitialGood(cfg: Config, s: Slot)
    ensures Good(cfg, s, World(INITIAL, map[]))
  {
    assert Recovered(INITIAL.wal) == Some(NOTHING);
    assert IdemLog(INITIAL.wal) == [];
    assert I.Restored([]) == map[];
    assert CanonicalLog([]) == [];
  }

  // What was acknowledged

  /** The move acknowledges this offset, which is in flight: a single acknowledgement, or one of a
      cumulative call of its owner. */
  ghost predicate Acknowledges(s: Slot, w: World, mv: Move, offset: int) {
    && offset in At(w.b, s).inflight
    && match mv
       case Do(step) => step == Ack(s, offset)
       case Continue(id) =>
         && id in w.calls && w.calls[id].next == offset && offset <= w.calls[id].last
         && Owned(At(w.b, s), offset, w.calls[id].owner)
       case _ => false
  }

  /** A step moves the committed offset only by an acknowledgement of the next one. */
  lemma StepCommits(cfg: Config, s: Slot, w: World, step: Step, offset: int)
    requires Good(cfg, s, w) && Paired(w.b) && Enabled(cfg, w.b, step) && Allowed(w.b, s, step)
    requires At(w.b, s).committed < offset <= At(Apply(cfg, w.b, step), s).committed
    ensures Acknowledges(s, w, Do(step), offset)
  {
    hide Inv, Agrees, RowsAgree, Enabled, Apply, Watermarked, PlainSlot;
    Impossible(cfg, w.b, step, s);
    if (step.Init? || step.Send? || step.Note? || step.Nack? || step.Redeliver?) && step.slot == s {
      OwnStepMark(cfg, w.b, step);
    } else if step.Ack? && step.slot == s {
      SlotStepIs(cfg, w.b, step);
    } else {
      OtherStepMark(cfg, w.b, step, s);
    }
  }

  lemma MoveCommits(cfg: Config, s: Slot, w: World, mv: Move, w': World, offset: int)
    requires Good(cfg, s, w) && Moves(cfg, s, w, mv, w')
    requires At(w.b, s).committed < offset <= At(w'.b, s).committed
    ensures Acknowledges(s, w, mv, offset)
  {
    hide WalInv, Watermarked, PlainSlot, Enabled, Apply, Rebuilt, Recovered, At;
    match mv
    case Do(step) => StepCommits(cfg, s, w, step, offset);
    case Begin(_, _, _) =>
    case Continue(id) =>
      var c := w.calls[id];
      if !(c.next > c.last || !Owned(At(w.b, s), c.next, c.owner)) {
        ContinueKeepsGood(cfg, s, w, id);
        ContinueCommits(cfg, s, w, id);
      }
    case Crash(now) => CrashKeepsGood(cfg, s, w, now);
  }

  lemma ContinueCommits(cfg: Config, s: Slot, w: World, id: nat)
    requires Good(cfg, s, w) && id in w.calls && Paired(w.b) && Enabled(cfg, w.b, Ack(s, w.calls[id].next))
    requires Owned(At(w.b, s), w.calls[id].next, w.calls[id].owner)
    ensures At(Apply(cfg, w.b, Ack(s, w.calls[id].next)), s).committed == w.calls[id].next
  {
    hide WalInv, Enabled, Apply, Watermarked, PlainSlot, AckSlot;
    SlotStepIs(cfg, w.b, Ack(s, w.calls[id].next));
    AckMark(At(w.b, s), |LogOf(w.b, s)|, w.calls[id].next);
  }

  /** One of the first i moves acknowledged the offset. */
  ghost predicate Acknowledged(s: Slot, worlds: seq<World>, moves: seq<Move>, i: nat, offset: int)
    requires i <= |moves| <= |worlds|
  {
    exists j :: 0 <= j < i && Acknowledges(s, worlds[j], moves[j], offset)
  }

  /** Every offset at or below the committed one was in flight and acknowledged at some earlier
      move, crashes included. */
  lemma {:induction false} AcknowledgedTheorem(cfg: Config, s: Slot, worlds: seq<World>, moves: seq<Move>, i: nat,
                                               offset: int)
    requires IsRun(cfg, s, worlds, moves) && i <= |moves| && 0 <= offset <= At(worlds[i].b, s).committed
    ensures Acknowledged(s, worlds, moves, i, offset)
  {
    hide Good, Moves, Acknowledges;
    if i == 0 {
      NothingCommitted(s);
    } else if offset <= At(worlds[i - 1].b, s).committed {
      AcknowledgedTheorem(cfg, s, worlds, moves, i - 1, offset);
    } else {
      WatermarkTheorem(cfg, s, worlds, moves, i - 1);
      MoveCommits(cfg, s, worlds[i - 1], moves[i - 1], worlds[i], offset);
    }
  }

  lemma NothingCommitted(s: Slot)
    ensures At(INITIAL, s).committed == -1
  {
  }

  /** After a crash at any point, every message below the new cursor was in flight and acknowledged
      before the crash, and those that were in flight are at or above it: none is skipped. */
  lemma NothingSkippedTheorem(cfg: Config, s: Slot, worlds: seq<World>, moves: seq<Move>, i: nat, now: int)
    requires IsRun(cfg, s, worlds, moves) && i <= |moves|
    ensures Recovered(worlds[i].b.wal).Some?
    ensures var b' := Rebuilt(Recovered(worlds[i].b.wal).value, worlds[i].b.wal, now);
            var started := StartCursor(At(b', s), |LogOf(b', s)|);
            && At(b', s).next.None? && |LogOf(b', s)| == |LogOf(worlds[i].b, s)|
            && (forall o :: 0 <= o < started.next.value ==> Acknowledged(s, worlds, moves, i, o))
            && (forall o :: o in At(worlds[i].b, s).inflight ==> started.next.value <= o)
  {
    hide Acknowledged, Recovered, Rebuilt, Moves;
    CursorAfterCrash(cfg, s, worlds, moves, i, now);
    var b' := Rebuilt(Recovered(worlds[i].b.wal).value, worlds[i].b.wal, now);
    var started := StartCursor(At(b', s), |LogOf(b', s)|);
    forall o | 0 <= o < started.next.value
      ensures Acknowledged(s, worlds, moves, i, o)
    {
      AcknowledgedTheorem(cfg, s, worlds, moves, i, o);
    }
  }

  lemma CursorAfterCrash(cfg: Config, s: Slot, worlds: seq<World>, moves: seq<Move>, i: nat, now: int)
    requires IsRun(cfg, s, worlds, moves) && i <= |moves|
    ensures Recovered(worlds[i].b.wal).Some?
    ensures var b' := Rebuilt(Recovered(worlds[i].b.wal).value, worlds[i].b.wal, now);
            var started := StartCursor(At(b', s), |LogOf(b', s)|);
            && At(b', s).next.None? && started.next.value <= At(worlds[i].b, s).committed + 1
            && |LogOf(b', s)| == |LogOf(worlds[i].b, s)|
            && (forall o :: o in At(worlds[i].b, s).inflight ==> started.next.value <= o)
  {
    hide Inv, Recovered, RecoveredItems, PlainSlot;
    WatermarkTheorem(cfg, s, worlds, moves, i);
    RecoverySucceeds(worlds[i].b);
    CrashKeepsGood(cfg, s, worlds[i], now);
    RestartPlain(worlds[i].b, s, now);
    hide Agrees;
  }
}
