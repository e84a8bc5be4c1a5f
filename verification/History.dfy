/** What the broker has done for whom: which keys are one key, why dispatch skips a message, what
    becomes of a noted error, and what a negative acknowledgement does to an entry's lease. */
module History {
  import opened Common
  import opened Records
  import opened BrokerState
  import opened Delivery
  import opened WalReplay
  import opened BrokerRuns
  import I = Idempotency

  // Whose work a key stands for

  /** Two messages share their work exactly if topic, group, tenant and idempotency key agree; an
      absent envelope reads as an empty one. */
  lemma SameWork(s: Slot, m: Message, s': Slot, m': Message)
    ensures ConsumeKey(s, m) == ConsumeKey(s', m') <==>
              && s.topic == s'.topic && s.group == s'.group
              && (if m.envelope.Some? then m.envelope.value.tenantId else "")
                 == (if m'.envelope.Some? then m'.envelope.value.tenantId else "")
              && (if m.envelope.Some? then m.envelope.value.idempotencyKey else "")
                 == (if m'.envelope.Some? then m'.envelope.value.idempotencyKey else "")
    ensures Keyed(m) <==> m.envelope.Some? && m.envelope.value.idempotencyKey != ""
    ensures ConsumeKey(s, m).scope == I.Consume
  {
  }

  /** The key of a tenant's message for a group. */
  predicate NamesWork(k: I.Key, s: Slot, e: Envelope) {
    && k.scope == I.Consume && k.tenant == e.tenantId && k.topic == s.topic && k.group == s.group
    && k.key == e.idempotencyKey
  }

  /** An operation on another tenant's, topic's, group's or message's key does not change whether
      the work is done. */
  lemma OthersWork(cfg: Config, b: State, op: I.Op, s: Slot, m: Message)
    requires Paired(b) && Enabled(cfg, b, Idem(op)) && m.envelope.Some? && !NamesWork(op.k, s, m.envelope.value)
    ensures DoneFor(Apply(cfg, b, Idem(op)), s, m) <==> DoneFor(b, s, m)
  {
    hide I.Do, I.WellScoped, Addressed;
    if op.k != ConsumeKey(s, m) {
      I.OthersStay(b.items, cfg.ttl, op, ConsumeKey(s, m));
    }
  }

  /** The holder of a running lease committed this key. */
  ghost predicate CommitsWork(cfg: Config, b: State, mv: Move, k: I.Key) {
    && mv.Do? && mv.step.Idem? && mv.step.op.OpCommitIfOwner? && mv.step.op.k == k
    && I.Runs(b.items, k, I.Named(mv.step.op.worker), mv.step.op.now)
  }

  lemma StepCommits(cfg: Config, b: State, step: Step, k: I.Key)
    requires Paired(b) && Enabled(cfg, b, step) && k.scope == I.Consume && k.key != ""
    requires !I.CommittedIn(b.items, k) && I.CommittedIn(Apply(cfg, b, step).items, k)
    ensures CommitsWork(cfg, b, Do(step), k)
  {
    if step.Idem? {
      hide I.Do, Addressed;
      I.CommitIsLogged(b.items, cfg.ttl, step.op, k);
      OpCommits(b.items, cfg.ttl, step.op, k);
    } else if OnSlot(step) {
      hide Enabled, Apply, Moved;
      SlotStepIs(cfg, b, step);
    } else if step.Bury? {
      hide Enabled, Apply, LeaveSlot, AppendTo, DeadLetter, ToEntry;
      BuryIs(cfg, b, step);
    } else {
      hide Slowest, Admits, AppendTo, ToEntry, NewTopic, Take, GiveBack;
    }
  }

  lemma OpCommits(items: I.Items, ttl: int, op: I.Op, k: I.Key)
    requires I.WellScoped(op) && k.scope == I.Consume && k.key != ""
    requires !I.CommittedIn(items, k) && I.CommittedIn(I.Do(items, ttl, op).items, k)
    ensures op.OpCommitIfOwner? && op.k == k && I.Runs(items, k, I.Named(op.worker), op.now)
  {
  }

  ghost predicate CommittedBefore(cfg: Config, states: seq<State>, moves: seq<Move>, j: nat, k: I.Key)
    requires j <= |moves| <= |states|
  {
    exists i :: 0 <= i < j && CommitsWork(cfg, states[i], moves[i], k)
  }

  /** A committed consume key was committed by the holder of its lease, at some earlier move,
      restarts included. */
  lemma {:induction false} CommittedWasDone(cfg: Config, states: seq<State>, moves: seq<Move>, j: nat, k: I.Key)
    requires IsRun(cfg, states, moves) && j <= |moves|
    requires k.scope == I.Consume && k.key != "" && I.CommittedIn(states[j].items, k)
    ensures CommittedBefore(cfg, states, moves, j, k)
  {
    hide WalInv, CommitsWork, Enabled, Apply, Rebuilt, RestartFaithful;
    if j > 0 {
      var b, mv, b' := states[j - 1], moves[j - 1], states[j];
      assert Moves(cfg, b, mv, b');
      RunInv(cfg, states, moves, j - 1);
      if I.CommittedIn(b.items, k) {
        CommittedWasDone(cfg, states, moves, j - 1, k);
      } else if mv.Do? {
        StepCommits(cfg, b, mv.step, k);
      } else {
        CrashCommits(cfg, b, mv.now, k);
      }
    }
  }

  lemma CrashCommits(cfg: Config, b: State, now: int, k: I.Key)
    requires WalInv(cfg, b) && k.scope == I.Consume && Recovered(b.wal).Some?
    ensures I.CommittedIn(Rebuilt(Recovered(b.wal).value, b.wal, now).items, k) <==> I.CommittedIn(b.items, k)
  {
    hide Inv, Agrees, RowsAgree, Rebuilt, Recovered, SameMessages;
    RestartAgrees(cfg, b, now);
  }

  /** Dispatch skips a message, and redelivery settles one, only if the work of that very tenant,
      topic, group and idempotency key was committed by the holder of its lease before. */
  lemma SkippedWasDone(cfg: Config, states: seq<State>, moves: seq<Move>, j: nat, s: Slot, m: Message)
    requires IsRun(cfg, states, moves) && j < |moves| && moves[j].Do?
    requires (moves[j].step == Skip(s) && HasHead(states[j], s) && m == Head(states[j], s))
             || (moves[j].step.Settle? && moves[j].step.slot == s && Flying(states[j], s, moves[j].step.offset)
                 && m == At(states[j], s).inflight[moves[j].step.offset].msg)
    ensures m.envelope.Some? && m.envelope.value.idempotencyKey != ""
    ensures CommittedBefore(cfg, states, moves, j,
                            I.Key(I.Consume, m.envelope.value.tenantId, s.topic, s.group,
                                  m.envelope.value.idempotencyKey))
  {
    hide WalInv, CommittedBefore;
    assert Moves(cfg, states[j], moves[j], states[j + 1]);
    CommittedWasDone(cfg, states, moves, j, ConsumeKey(s, m));
  }

  // Negative acknowledgements

  /** After a negative acknowledgement the entry is due at once, unless its owner's latest stream
      has a lease longer than its first leasing stream's. */
  lemma NackExpires(cfg: Config, b: State, s: Slot, offset: int, now: int, latest: int, first: int)
    requires Paired(b) && Flying(b, s, offset)
    requires LatestLease(Streams(b, s), At(b, s).inflight[offset].owner, cfg.ackTimeout, latest)
    requires FirstsLease(Streams(b, s), At(b, s).inflight[offset].owner, cfg.ackTimeout, first)
    ensures var e, e' := At(b, s).inflight[offset], At(Apply(cfg, b, Nack(s, offset, now)), s).inflight[offset];
            && e' == e.(nextAt := None, sentAt := e'.sentAt)
            && (now - e'.sentAt >= latest <==> latest <= first + 1_000_000)
  {
    LeaseIsLatest(Streams(b, s), At(b, s).inflight[offset].owner, cfg.ackTimeout, latest);
    NackLeaseIsFirsts(Streams(b, s), At(b, s).inflight[offset].owner, cfg.ackTimeout, first);
    hide NackLease, LeaseFor, LatestLease, FirstsLease;
  }

  /** All streams of the owner have the same lease. */
  ghost predicate SharesLease(streams: seq<Consumer>, owner: string) {
    forall c, d :: c in streams && d in streams && c.owner == owner && d.owner == owner ==> c.lease == d.lease
  }

  /** With one lease for all its streams, an owner's entry is always due. */
  lemma OneLease(streams: seq<Consumer>, owner: string, ackTimeout: int, latest: int, first: int)
    requires LatestLease(streams, owner, ackTimeout, latest) && FirstsLease(streams, owner, ackTimeout, first)
    requires SharesLease(streams, owner)
    ensures latest == first
  {
    LeaseIsLatest(streams, owner, ackTimeout, latest);
    NackLeaseIsFirsts(streams, owner, ackTimeout, first);
    hide LatestLease, FirstsLease;
    SameLeases(streams, owner, ackTimeout);
  }

  lemma {:induction false} SameLeases(streams: seq<Consumer>, owner: string, ackTimeout: int)
    requires SharesLease(streams, owner)
    ensures LeaseFor(streams, owner, ackTimeout) == NackLease(streams, owner, ackTimeout)
  {
    if streams != [] {
      var front, last := streams[..|streams| - 1], streams[|streams| - 1];
      assert streams == front + [last] && last in streams;
      assert forall c :: c in front ==> c in streams;
      SameLeases(front, owner, ackTimeout);
      NackLeaseSnoc(front, last, owner, ackTimeout);
      if last.owner == owner {
        OwnersLease(front, last, owner, ackTimeout);
      }
    }
  }

  lemma {:induction false} NackLeaseSnoc(front: seq<Consumer>, last: Consumer, owner: string, ackTimeout: int)
    ensures NackLease(front + [last], owner, ackTimeout) ==
              NackLease(front, owner, if last.owner == owner && last.lease > 0 then last.lease else ackTimeout)
  {
    if front != [] {
      assert (front + [last])[1..] == front[1..] + [last];
      NackLeaseSnoc(front[1..], last, owner, ackTimeout);
    }
  }

  lemma {:induction false} OwnersLease(front: seq<Consumer>, last: Consumer, owner: string, ackTimeout: int)
    requires last.owner == owner
    requires forall i :: 0 <= i < |front| && front[i].owner == owner ==> front[i].lease == last.lease
    ensures var d := if last.lease > 0 then last.lease else ackTimeout; NackLease(front, owner, d) == d
  {
    if front != [] {
      OwnersLease(front[1..], last, owner, ackTimeout);
    }
  }

  // Errors that were noted

  /** The log and, above the committed offset, the memory hold this error for the message. */
  ghost predicate Remembers(b: State, s: Slot, o: int, text: string) {
    && Recovered(b.wal).Some? && Remembered(Recovered(b.wal).value, s, o, text)
    && InMemory(At(b, s), o, text)
  }

  ghost predicate Remembered(r: Recovery, s: Slot, o: int, text: string) {
    s in r.retry && o in r.retry[s] && r.retry[s][o] == text
  }

  ghost predicate InMemory(ss: SlotState, o: int, text: string) {
    ss.committed < o ==> o in ss.retry && ss.retry[o] == text
  }

  /** A record that is not about this error. */
  predicate OtherRecord(rec: WalRecord, s: Slot, o: int) {
    !(rec.RetryRecord? && rec.slot == s && rec.offset == o)
  }

  lemma RecordKeepsError(wal: seq<WalRecord>, rec: WalRecord, s: Slot, o: int, text: string)
    requires Recovered(wal).Some? && Recovered(wal + [rec]).Some? && OtherRecord(rec, s, o)
    requires Remembered(Recovered(wal).value, s, o, text)
    ensures Remembered(Recovered(wal + [rec]).value, s, o, text)
  {
    hide FromEntry, NewTopic, Extend, AppendTo, TopicFor;
    RecoveredSnoc(wal, rec);
  }

  /** A step adds at most one record. */
  ghost predicate AddsOne(wal: seq<WalRecord>, wal': seq<WalRecord>, s: Slot, o: int) {
    wal' == wal || (|wal'| == |wal| + 1 && wal' == wal + [wal'[|wal|]] && OtherRecord(wal'[|wal|], s, o))
  }

  predicate NotesError(step: Step, s: Slot, o: int) {
    step.Note? && step.slot == s && step.offset == o
  }

  lemma StepAddsOne(cfg: Config, b: State, step: Step, s: Slot, o: int)
    requires Paired(b) && Enabled(cfg, b, step) && !NotesError(step, s, o)
    ensures AddsOne(b.wal, Apply(cfg, b, step).wal, s, o)
  {
    if OnSlot(step) {
      hide Enabled, Apply, Moved;
      SlotStepIs(cfg, b, step);
    } else if step.Bury? {
      hide Enabled, Apply, LeaveSlot, AppendTo, DeadLetter, ToEntry;
      BuryIs(cfg, b, step);
    } else {
      hide I.Do, Slowest, Admits, AppendTo, ToEntry, NewTopic, Take, GiveBack;
    }
  }

  lemma SlotStepRemembers(cfg: Config, b: State, step: Step, o: int, text: string)
    requires OnSlot(step) && Able(b, step) && !NotesError(step, step.slot, o)
    requires Inv(cfg, b) && InMemory(At(b, step.slot), o, text)
    ensures InMemory(Moved(cfg, b, step), o, text)
  {
    hide Inv, NackLease, Again;
    if step.Skip? || step.SendSimple? {
      LogsIndexed(cfg, b, step.slot, At(b, step.slot).next.value);
    }
  }

  lemma OtherStepRemembers(cfg: Config, b: State, step: Step, s: Slot, o: int, text: string)
    requires Paired(b) && Enabled(cfg, b, step) && !OnSlot(step) && InMemory(At(b, s), o, text)
    ensures InMemory(At(Apply(cfg, b, step), s), o, text)
  {
    if step.Bury? {
      hide Enabled, Apply, AppendTo, DeadLetter, ToEntry;
      BuryIs(cfg, b, step);
    } else {
      hide I.Do, Slowest, Admits, AppendTo, ToEntry, NewTopic;
    }
  }

  lemma StepRemembers(cfg: Config, b: State, step: Step, s: Slot, o: int, text: string)
    requires WalInv(cfg, b) && Paired(b) && Enabled(cfg, b, step) && !NotesError(step, s, o)
    requires Remembers(b, s, o, text)
    ensures Remembers(Apply(cfg, b, step), s, o, text)
  {
    hide Enabled, Apply, Inv, RowsAgree, TopicsAgree, OffsetsAgree, ItemsAgree, RetryOffsets, Remembered, InMemory,
      Recovered, Moved, OtherRecord;
    var b' := Apply(cfg, b, step);
    StepAgrees(cfg, b, step);
    StepAddsOne(cfg, b, step, s, o);
    if b'.wal != b.wal {
      RecordKeepsError(b.wal, b'.wal[|b.wal|], s, o, text);
    }
    if OnSlot(step) {
      OtherSlotsSame(cfg, b, step);
      SlotStepIs(cfg, b, step);
      if step.slot == s {
        SlotStepRemembers(cfg, b, step, o, text);
      }
    } else {
      OtherStepRemembers(cfg, b, step, s, o, text);
    }
  }

  lemma CrashRemembers(cfg: Config, b: State, now: int, s: Slot, o: int, text: string)
    requires WalInv(cfg, b) && Remembers(b, s, o, text)
    ensures Remembers(Rebuilt(Recovered(b.wal).value, b.wal, now), s, o, text)
  {
    hide Inv, Agrees, RowsAgree, Recovered, RecoveredItems;
  }

  lemma NoteRemembers(cfg: Config, b: State, step: Step)
    requires WalInv(cfg, b) && Paired(b) && Enabled(cfg, b, step) && step.Note? && step.logged
    ensures Remembers(Apply(cfg, b, step), step.slot, step.offset, step.text)
  {
    hide Inv, RowsAgree, TopicsAgree, OffsetsAgree, ItemsAgree, RetryOffsets, Recovered;
    StepAgrees(cfg, b, step);
    RecoveredSnoc(b.wal, RetryRecord(step.slot, step.offset, step.text));
  }

  /** An error that was logged for a message is remembered while the message lies above the
      committed offset, whatever restarts there are, until another error is noted for it; and if
      the message is sent, its entry carries the error. */
  lemma {:induction false} ErrorStays(cfg: Config, states: seq<State>, moves: seq<Move>, i: nat, j: nat, s: Slot,
                                      o: int)
    requires IsRun(cfg, states, moves) && i < j <= |moves|
    requires moves[i].Do? && NotesError(moves[i].step, s, o) && moves[i].step.logged
    requires forall k :: i < k < j && moves[k].Do? ==> !NotesError(moves[k].step, s, o)
    ensures Remembers(states[j], s, o, moves[i].step.text)
    decreases j
  {
    hide WalInv, Remembers, Enabled, Apply, Rebuilt, Recovered;
    assert Moves(cfg, states[j - 1], moves[j - 1], states[j]);
    RunInv(cfg, states, moves, j - 1);
    if j == i + 1 {
      NoteRemembers(cfg, states[i], moves[i].step);
    } else {
      ErrorStays(cfg, states, moves, i, j - 1, s, o);
      if moves[j - 1].Do? {
        StepRemembers(cfg, states[j - 1], moves[j - 1].step, s, o, moves[i].step.text);
      } else {
        CrashRemembers(cfg, states[j - 1], moves[j - 1].now, s, o, moves[i].step.text);
      }
    }
  }

  /** Dispatch gives the entry the error that is remembered. */
  lemma SentWithError(cfg: Config, b: State, step: Step, s: Slot, o: int, text: string)
    requires WalInv(cfg, b) && Paired(b) && Enabled(cfg, b, step) && Remembers(b, s, o, text)
    requires step.Send? && step.slot == s && At(b, s).next == Some(o) && At(b, s).committed < o
    ensures var ss := At(Apply(cfg, b, step), s); o in ss.inflight && ss.inflight[o].lastError == text
  {
    hide Agrees, RowsAgree, SlotsInv, Recovered, Remembered;
    LogsIndexed(cfg, b, s, o);
  }

  // Who counts for backpressure

  /** Every group with a committed offset has an offset map, so that the slowest acknowledgement
      takes it into account. */
  ghost predicate Counts(b: State) {
    forall s :: At(b, s).committed >= 0 ==> GroupId(s.topic, s.group) in b.groups
  }

  lemma SlotStepCounts(cfg: Config, b: State, step: Step)
    requires Paired(b) && Enabled(cfg, b, step) && OnSlot(step) && Counts(b)
    ensures Counts(Apply(cfg, b, step))
  {
    hide Enabled, Apply, Moved, Able;
    SlotStepIs(cfg, b, step);
    GroupsGrow(cfg, b, step);
    if !WritesOffset(step) {
      MovedCommits(cfg, b, step);
    }
    OtherSlotsSame(cfg, b, step);
  }

  /** The steps that write an offset. */
  predicate WritesOffset(step: Step) {
    step.Skip? || step.SendSimple? || step.Ack? || step.Settle?
  }

  lemma GroupsGrow(cfg: Config, b: State, step: Step)
    requires Paired(b) && Enabled(cfg, b, step) && OnSlot(step)
    ensures b.groups <= Apply(cfg, b, step).groups
    ensures WritesOffset(step) ==> GroupId(step.slot.topic, step.slot.group) in Apply(cfg, b, step).groups
  {
    hide NackLease, Again, Pass, AckSlot, LeaveSlot, Launch, NoteSlot, StartCursor, Paired, DoneFor, Leased, LeaseFor;
  }

  lemma MovedCommits(cfg: Config, b: State, step: Step)
    requires OnSlot(step) && Able(b, step) && !WritesOffset(step)
    ensures Moved(cfg, b, step).committed == At(b, step.slot).committed
  {
    hide NackLease, Again;
  }

  lemma StepCounts(cfg: Config, b: State, step: Step)
    requires Paired(b) && Enabled(cfg, b, step) && Counts(b)
    ensures Counts(Apply(cfg, b, step))
  {
    if OnSlot(step) {
      hide Enabled, Apply, Counts;
      SlotStepCounts(cfg, b, step);
    } else if step.Bury? {
      hide Slowest, Admits, DoneFor, LeaseFor, Expired, DeadLetter, ToEntry, AppendTo, Purge;
    } else {
      hide I.Do, Slowest, Admits, AppendTo, ToEntry, NewTopic;
    }
  }

  lemma CrashCounts(r: Recovery, wal: seq<WalRecord>, now: int)
    ensures Counts(Rebuilt(r, wal, now))
  {
    hide RecoveredItems;
  }

  lemma {:induction false} AcknowledgedCounts(cfg: Config, states: seq<State>, moves: seq<Move>, i: nat)
    requires IsRun(cfg, states, moves) && i <= |moves|
    ensures Counts(states[i])
  {
    hide Enabled, Apply, Rebuilt, Recovered;
    if i > 0 {
      assert Moves(cfg, states[i - 1], moves[i - 1], states[i]);
      AcknowledgedCounts(cfg, states, moves, i - 1);
      hide Counts;
      match moves[i - 1]
      case Do(step) => StepCounts(cfg, states[i - 1], step);
      case Crash(now) => CrashCounts(Recovered(states[i - 1].wal).value, states[i - 1].wal, now);
    }
  }
}
