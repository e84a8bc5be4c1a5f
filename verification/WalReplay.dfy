/** Rebuilding the broker from its write-ahead log (NewInMemoryBrokerFromWAL in
    internal/broker/wal_replay.go), and what every step keeps so that replay agrees with the live
    state at every crash point. */
module WalReplay {
  import opened Common
  import opened Records
  import opened PartitionLog
  import opened BrokerState
  import opened Delivery
  import I = Idempotency

  // Replay

  /** Topics, committed offsets and retry states gathered so far. */
  datatype Recovery = Recovery(topics: map<string, Topic>, committed: map<Slot, int>,
                               retry: map<Slot, map<int, string>>)

  const NOTHING: Recovery := Recovery(map[], map[], map[])

  /** Partitions appear when a record mentions them. */
  function Extend(t: Topic, n: nat): (r: Topic)
    requires |t.sums| == |t.logs|
    ensures |r.sums| == |r.logs| == (if |t.logs| >= n then |t.logs| else n)
  {
    if |t.logs| >= n then t
    else Topic(t.logs + seq(n - |t.logs|, i => []), t.sums + seq(n - |t.logs|, i => []))
  }

  predicate EvenRows(topics: map<string, Topic>) {
    forall t :: t in topics ==> |topics[t].sums| == |topics[t].logs|
  }

  function TopicFor(topics: map<string, Topic>, topic: string): Topic {
    if topic in topics then topics[topic] else Topic([], [])
  }

  function RetryAt(retry: map<Slot, map<int, string>>, s: Slot): map<int, string> {
    if s in retry then retry[s] else map[]
  }

  /** One record; None is the "unexpected offset" error. */
  function RecoverOne(r: Recovery, rec: WalRecord): (r': Option<Recovery>)
    requires EvenRows(r.topics)
    ensures r'.Some? ==> EvenRows(r'.value.topics)
  {
    match rec
    case TopicRecord(topic, partitions) =>
      if topic == "" || partitions == 0 then Some(r)
      else if topic !in r.topics then Some(r.(topics := r.topics[topic := NewTopic(partitions)]))
      else Some(r.(topics := r.topics[topic := Extend(r.topics[topic], partitions)]))
    case MessageRecord(e) =>
      var t := Extend(TopicFor(r.topics, e.topic), e.partition + 1);
      if e.offset != |t.logs[e.partition]| then None
      else Some(r.(topics := r.topics[e.topic := AppendTo(t, e.partition, FromEntry(e))]))
    case OffsetRecord(s, offset) =>
      var newer := s !in r.committed || offset > r.committed[s];
      Some(r.(committed := if newer then r.committed[s := offset] else r.committed))
    case RetryRecord(s, offset, text) =>
      if s.topic == "" || s.group == "" then Some(r)
      else Some(r.(retry := r.retry[s := RetryAt(r.retry, s)[offset := text]]))
    case IdemRecord(_) => Some(r)
  }

  function Recovered(wal: seq<WalRecord>): (r: Option<Recovery>)
    ensures r.Some? ==> EvenRows(r.value.topics)
  {
    if wal == [] then Some(NOTHING)
    else
      var before := Recovered(wal[..|wal| - 1]);
      if before.None? then None else RecoverOne(before.value, wal[|wal| - 1])
  }

  lemma RecoveredSnoc(wal: seq<WalRecord>, rec: WalRecord)
    ensures Recovered(wal + [rec]) == if Recovered(wal).None? then None else RecoverOne(Recovered(wal).value, rec)
  {
    assert (wal + [rec])[..|wal + [rec]| - 1] == wal;
  }

  /** The idempotency items: produce keys from messages, consume keys from their own records. */
  function RecoverItem(items: I.Items, rec: WalRecord, now: int): I.Items {
    match rec
    case MessageRecord(e) =>
      var m := FromEntry(e);
      if Keyed(m) then I.Commit(items, I.ProduceKey(TenantId(m), e.topic, IdempotencyKey(m)), "", now) else items
    case IdemRecord(r) =>
      if r.key.scope != I.Consume || r.key.topic == "" || r.key.group == "" || r.key.key == "" then items
      else I.Restore(items, r)
    case _ => items
  }

  function RecoveredItems(wal: seq<WalRecord>, now: int): I.Items {
    if wal == [] then map[] else RecoverItem(RecoveredItems(wal[..|wal| - 1], now), wal[|wal| - 1], now)
  }

  /** Old errors at or below the committed offset are purged. */
  function RecoveredSlot(r: Recovery, s: Slot): SlotState {
    var committed := if s in r.committed then r.committed[s] else -1;
    FRESH.(committed := committed,
           retry := if s in r.committed then Purge(RetryAt(r.retry, s), committed) else RetryAt(r.retry, s))
  }

  /** The broker after a restart. */
  function Rebuilt(r: Recovery, wal: seq<WalRecord>, now: int): State {
    State(r.topics,
          map s | s in r.committed.Keys + r.retry.Keys :: RecoveredSlot(r, s),
          set s | s in r.committed :: GroupId(s.topic, s.group),
          map[], RecoveredItems(wal, now), wal)
  }

  // Agreement between the log and the live state

  function CanonicalLog(log: Log): Log {
    seq(|log|, i requires 0 <= i < |log| => Canonical(log[i]))
  }

  function LogIn(topics: map<string, Topic>, topic: string, p: nat): Log {
    if topic in topics && p < |topics[topic].logs| then topics[topic].logs[p] else []
  }

  /** Replayed partitions are the live ones, in canonical form; unlogged topics are empty. */
  ghost predicate TopicsAgree(live: map<string, Topic>, replayed: map<string, Topic>) {
    && (forall t :: t in replayed ==> t in live && |replayed[t].logs| <= |live[t].logs| && TopicInv(replayed[t]))
    && (forall t, p: nat :: t in live ==> LogIn(replayed, t, p) == CanonicalLog(LogIn(live, t, p)))
  }

  function LoggedOffset(r: Recovery, s: Slot): int {
    if s in r.committed then r.committed[s] else -1
  }

  /** The committed offset is the greatest of the logged, the pending and the taken one. */
  ghost predicate OffsetAgrees(logged: int, ss: SlotState) {
    ss.pending >= -1 && ss.taken >= -1 && ss.committed == Max(logged, Max(ss.pending, ss.taken)) && logged >= -1
  }

  ghost predicate OffsetsAgree(r: Recovery, b: State) {
    forall s :: OffsetAgrees(LoggedOffset(r, s), At(b, s))
  }

  function IdemLog(wal: seq<WalRecord>): seq<I.Record> {
    if wal == [] then []
    else
      var front, last := IdemLog(wal[..|wal| - 1]), wal[|wal| - 1];
      if last.IdemRecord? then front + [last.record] else front
  }

  ghost predicate ItemsAgree(b: State) {
    && I.LogAgrees(b.items, IdemLog(b.wal))
    && (forall i :: 0 <= i < |IdemLog(b.wal)| ==> Addressed(IdemLog(b.wal)[i].key) && IdemLog(b.wal)[i].key.key != "")
  }

  /** The retry states a log can hold belong to non-negative offsets. */
  ghost predicate RetryOffsets(r: Recovery) {
    forall s, o :: s in r.retry && o in r.retry[s] ==> o >= 0
  }

  ghost predicate Agrees(b: State) {
    && Recovered(b.wal).Some?
    && TopicsAgree(b.topics, Recovered(b.wal).value.topics)
    && OffsetsAgree(Recovered(b.wal).value, b)
    && RetryOffsets(Recovered(b.wal).value)
    && ItemsAgree(b)
  }

  // Topics

  lemma CanonicalSnoc(log: Log, m: Message)
    ensures CanonicalLog(log + [m]) == CanonicalLog(log) + [Canonical(m)]
  {
  }

  lemma CanonicalLogTwice(log: Log)
    ensures CanonicalLog(CanonicalLog(log)) == CanonicalLog(log)
  {
    forall i | 0 <= i < |log|
      ensures CanonicalLog(CanonicalLog(log))[i] == CanonicalLog(log)[i]
    {
      CanonicalTwice(log[i]);
    }
  }

  lemma ExtendInv(t: Topic, n: nat)
    requires TopicInv(t)
    ensures TopicInv(Extend(t, n))
    ensures forall p: nat :: p < |Extend(t, n).logs| ==> Extend(t, n).logs[p] == if p < |t.logs| then t.logs[p] else []
  {
    hide OffsetsAreIndices, RunningSums;
    var r := Extend(t, n);
    forall p | 0 <= p < |r.logs|
      ensures LogInv(r.logs[p], r.sums[p], p)
    {
      if p >= |t.logs| {
        EmptyLogInv(p);
      }
    }
  }

  lemma EmptyLogInv(p: nat)
    ensures LogInv([], [], p)
  {
  }

  /** A logged creation. */
  lemma CreateAgrees(live: map<string, Topic>, replayed: map<string, Topic>, name: string, partitions: nat)
    requires TopicsAgree(live, replayed) && name !in live
    ensures TopicsAgree(live[name := NewTopic(partitions)], replayed[name := NewTopic(partitions)])
    ensures TopicsAgree(live[name := NewTopic(partitions)], replayed)
  {
    hide Canonical;
    NewTopicInv(partitions);
    assert CanonicalLog([]) == [];
    assert name !in replayed;
    var live', replayed' := live[name := NewTopic(partitions)], replayed[name := NewTopic(partitions)];
    forall t, p: nat | t in live'
      ensures LogIn(replayed', t, p) == CanonicalLog(LogIn(live', t, p)) == LogIn(replayed, t, p)
    {
      assert t != name ==> LogIn(replayed, t, p) == CanonicalLog(LogIn(live, t, p));
    }
  }

  /** A logged message. */
  lemma AppendAgrees(live: map<string, Topic>, replayed: map<string, Topic>, topic: string, p: nat, m: Message)
    requires TopicsAgree(live, replayed) && topic in live && p < |live[topic].logs|
    requires |live[topic].sums| == |live[topic].logs|
    requires m.partition == p && m.offset == |live[topic].logs[p]|
    ensures EvenRows(replayed)
    ensures var t := Extend(TopicFor(replayed, topic), p + 1);
            && m.offset == |t.logs[p]|
            && TopicsAgree(live[topic := AppendTo(live[topic], p, m)],
                           replayed[topic := AppendTo(t, p, Canonical(m))])
  {
    hide Canonical, TopicInv;
    assert EvenRows(replayed) by { ReplayedRows(live, replayed); }
    var t0 := TopicFor(replayed, topic);
    TopicForInv(live, replayed, topic);
    ExtendInv(t0, p + 1);
    var t := Extend(t0, p + 1);
    assert t.logs[p] == LogIn(replayed, topic, p) == CanonicalLog(live[topic].logs[p]);
    AppendKeepsTopic(t, p, Canonical(m));
    assert Placed(Canonical(m), p, |t.logs[p]|) == Canonical(m) by { CanonicalPlace(m); }
    CanonicalSnoc(live[topic].logs[p], m);
    var live' := live[topic := AppendTo(live[topic], p, m)];
    var replayed' := replayed[topic := AppendTo(t, p, Canonical(m))];
    forall u, q: nat | u in live'
      ensures LogIn(replayed', u, q) == CanonicalLog(LogIn(live', u, q))
    {
      assert LogIn(replayed, u, q) == CanonicalLog(LogIn(live, u, q));
      if u == topic && q != p {
        assert LogIn(replayed', u, q) == LogIn(replayed, u, q);
      }
    }
  }

  lemma CanonicalPlace(m: Message)
    ensures Canonical(m).partition == m.partition && Canonical(m).offset == m.offset
  {
  }

  lemma ReplayedRows(live: map<string, Topic>, replayed: map<string, Topic>)
    requires TopicsAgree(live, replayed)
    ensures EvenRows(replayed)
  {
  }

  lemma TopicForInv(live: map<string, Topic>, replayed: map<string, Topic>, topic: string)
    requires TopicsAgree(live, replayed)
    ensures TopicInv(TopicFor(replayed, topic))
    ensures topic in live ==> |TopicFor(replayed, topic).logs| <= |live[topic].logs|
  {
  }

  // Offsets

  lemma AdvanceAgrees(logged: int, ss: SlotState, offset: int)
    requires OffsetAgrees(logged, ss) && offset >= 0
    ensures OffsetAgrees(logged, Advance(ss, offset))
  {
  }

  /** Writing the taken offset moves it from the flush to the log. */
  lemma WriteAgrees(logged: int, ss: SlotState)
    requires OffsetAgrees(logged, ss) && ss.taken >= 0
    ensures OffsetAgrees(Max(logged, ss.taken), ss.(taken := -1)) && logged >= -1
  {
  }

  lemma TakeAgrees(logged: int, ss: SlotState)
    requires OffsetAgrees(logged, ss)
    ensures ss.taken == -1 ==> OffsetAgrees(logged, Take(ss))
    ensures OffsetAgrees(logged, GiveBack(ss))
  {
  }

  /** Changing one slot's offsets. */
  lemma PutAgrees(r: Recovery, b: State, b': State, s: Slot)
    requires OffsetsAgree(r, b) && OffsetAgrees(LoggedOffset(r, s), At(b', s))
    requires forall u :: u != s ==> At(b', u) == At(b, u)
    ensures OffsetsAgree(r, b')
  {
    hide OffsetAgrees;
  }

  // Items

  lemma IdemLogSnoc(wal: seq<WalRecord>, rec: WalRecord)
    ensures IdemLog(wal + [rec]) == if rec.IdemRecord? then IdemLog(wal) + [rec.record] else IdemLog(wal)
  {
    assert (wal + [rec])[..|wal + [rec]| - 1] == wal;
  }

  lemma LoggedIsAddressed(items: I.Items, ttl: int, op: I.Op)
    requires I.WellScoped(op) && Addressed(op.k)
    ensures var e := I.Do(items, ttl, op);
            e.logged.Some? ==>
              var k := e.logged.value.key;
              k == op.k && Addressed(k) && k.key != ""
  {
  }

  lemma IdemAgrees(cfg: Config, b: State, op: I.Op)
    requires ItemsAgree(b) && I.WellScoped(op) && Addressed(op.k)
    ensures var e := I.Do(b.items, cfg.ttl, op);
            ItemsAgree(b.(items := e.items,
                          wal := if e.logged.Some? then b.wal + [IdemRecord(e.logged.value)] else b.wal))
  {
    hide I.LogAgrees, I.Do, I.WellScoped, Addressed, IdemLog;
    var e := I.Do(b.items, cfg.ttl, op);
    I.StepKeepsLog(b.items, IdemLog(b.wal), cfg.ttl, op);
    LoggedIsAddressed(b.items, cfg.ttl, op);
    if e.logged.Some? {
      IdemLogSnoc(b.wal, IdemRecord(e.logged.value));
      assert IdemLog(b.wal + [IdemRecord(e.logged.value)]) == I.Append(IdemLog(b.wal), e.logged);
    } else {
      assert I.Append(IdemLog(b.wal), e.logged) == IdemLog(b.wal);
    }
  }

  /** On consume keys, replay restores what the consume records say. */
  lemma {:induction false} ItemsRestored(wal: seq<WalRecord>, now: int, k: I.Key)
    requires k.scope == I.Consume
    requires forall i :: 0 <= i < |IdemLog(wal)| ==>
               IdemLog(wal)[i].key.scope == I.Consume && Addressed(IdemLog(wal)[i].key) && IdemLog(wal)[i].key.key != ""
    ensures k in RecoveredItems(wal, now) <==> k in I.Restored(IdemLog(wal))
    ensures k in RecoveredItems(wal, now) ==> RecoveredItems(wal, now)[k] == I.Restored(IdemLog(wal))[k]
  {
    hide RecoverItem, I.Restore;
    if wal != [] {
      var front, last := wal[..|wal| - 1], wal[|wal| - 1];
      assert wal == front + [last];
      IdemLogSnoc(front, last);
      assert IdemLog(front) <= IdemLog(wal);
      ItemsRestored(front, now, k);
      if last.IdemRecord? {
        I.RestoredSnoc(IdemLog(front), last.record);
        assert IdemLog(wal)[|IdemLog(wal)| - 1] == last.record;
      }
      ItemRestored(RecoveredItems(front, now), I.Restored(IdemLog(front)), last, now, k);
    }
  }

  lemma ItemRestored(items: I.Items, restored: I.Items, rec: WalRecord, now: int, k: I.Key)
    requires k.scope == I.Consume && (k in items <==> k in restored) && (k in items ==> items[k] == restored[k])
    requires rec.IdemRecord? ==>
               rec.record.key.scope == I.Consume && Addressed(rec.record.key) && rec.record.key.key != ""
    ensures var items', restored' := RecoverItem(items, rec, now),
                                     if rec.IdemRecord? then I.Restore(restored, rec.record) else restored;
            (k in items' <==> k in restored') && (k in items' ==> items'[k] == restored'[k])
  {
    hide FromEntry, TenantId, IdempotencyKey;
  }

  /** The produce key of every message in the log comes back committed, at the time of the restart. */
  lemma {:induction false} ProduceKeysRestored(wal: seq<WalRecord>, now: int, i: nat)
    requires i < |wal| && wal[i].MessageRecord? && Keyed(FromEntry(wal[i].entry))
    ensures var m := FromEntry(wal[i].entry);
            var k := I.ProduceKey(TenantId(m), wal[i].entry.topic, IdempotencyKey(m));
            k in RecoveredItems(wal, now) && RecoveredItems(wal, now)[k] == I.Item(I.Committed, "", "", now, "", None)
  {
    hide FromEntry, TenantId, IdempotencyKey;
    var front, last := wal[..|wal| - 1], wal[|wal| - 1];
    assert wal == front + [last];
    if i < |front| {
      assert front[i] == wal[i];
      ProduceKeysRestored(front, now, i);
    }
  }

  /** Every replayed message has its record in the log. */
  lemma {:induction false} MessagesHaveRecords(wal: seq<WalRecord>, t: string, p: nat, o: nat) returns (i: nat)
    requires Recovered(wal).Some? && o < |LogIn(Recovered(wal).value.topics, t, p)|
    ensures i < |wal| && wal[i].MessageRecord? && wal[i].entry.topic == t
    ensures FromEntry(wal[i].entry) == LogIn(Recovered(wal).value.topics, t, p)[o]
  {
    hide FromEntry;
    var front, last := wal[..|wal| - 1], wal[|wal| - 1];
    assert wal == front + [last];
    RecoveredSnoc(front, last);
    var r := Recovered(front).value;
    if o < |LogIn(r.topics, t, p)| {
      LogsGrow(r, last, t, p);
      i := MessagesHaveRecords(front, t, p, o);
      assert wal[i] == front[i];
    } else {
      LogsGrow(r, last, t, p);
      i := |front|;
    }
  }

  /** Replay refuses one more record exactly if it is a message whose offset is not the next one of
      its partition. */
  lemma RefusedExactly(wal: seq<WalRecord>, rec: WalRecord)
    requires Recovered(wal).Some?
    ensures Recovered(wal + [rec]).None? <==>
              rec.MessageRecord?
              && rec.entry.offset != |LogIn(Recovered(wal).value.topics, rec.entry.topic, rec.entry.partition)|
  {
    hide FromEntry;
    RecoveredSnoc(wal, rec);
  }

  /** A record leaves every partition as it is, or appends its message to one. */
  lemma LogsGrow(r: Recovery, rec: WalRecord, t: string, p: nat)
    requires EvenRows(r.topics) && RecoverOne(r, rec).Some?
    ensures var before, after := LogIn(r.topics, t, p), LogIn(RecoverOne(r, rec).value.topics, t, p);
            || after == before
            || (rec.MessageRecord? && rec.entry.topic == t && after == before + [FromEntry(rec.entry)])
  {
    hide FromEntry;
  }

  lemma SameOffsets(r: Recovery, b: State, r': Recovery, b': State)
    requires OffsetsAgree(r, b) && r'.committed == r.committed && b'.slots == b.slots
    ensures OffsetsAgree(r', b')
  {
    hide OffsetAgrees;
    forall s
      ensures OffsetAgrees(LoggedOffset(r', s), At(b', s))
    {
      assert OffsetAgrees(LoggedOffset(r, s), At(b, s));
    }
  }

  // Every step

  ghost predicate WalInv(cfg: Config, b: State) {
    Inv(cfg, b) && Agrees(b) && RowsAgree(b)
  }

  /** A step that appends nothing and leaves topics and items alone. */
  lemma SilentAgrees(b: State, b': State)
    requires Agrees(b) && b'.wal == b.wal && b'.topics == b.topics && b'.items == b.items
    requires OffsetsAgree(Recovered(b.wal).value, b')
    ensures Agrees(b')
  {
    hide TopicsAgree, OffsetsAgree, I.LogAgrees;
  }

  lemma RetryRecordAgrees(b: State, b': State, s: Slot, offset: int, text: string)
    requires offset >= 0 && Agrees(b) && b'.wal == b.wal + [RetryRecord(s, offset, text)] && b'.topics == b.topics
             && b'.items == b.items
    requires OffsetsAgree(Recovered(b.wal).value, b')
    ensures Agrees(b')
  {
    hide TopicsAgree, OffsetsAgree, I.LogAgrees;
    RecoveredSnoc(b.wal, RetryRecord(s, offset, text));
    IdemLogSnoc(b.wal, RetryRecord(s, offset, text));
    SameOffsets(Recovered(b.wal).value, b', Recovered(b'.wal).value, b');
  }

  lemma CreateStepAgrees(b: State, name: string, partitions: nat, logged: bool)
    requires Agrees(b) && name !in b.topics && name != "" && partitions > 0
    ensures Agrees(b.(topics := b.topics[name := NewTopic(partitions)]))
    ensures Agrees(b.(topics := b.topics[name := NewTopic(partitions)], wal := b.wal + [TopicRecord(name, partitions)]))
  {
    hide OffsetsAgree, I.LogAgrees, TopicInv, CanonicalLog;
    var r := Recovered(b.wal).value;
    CreateAgrees(b.topics, r.topics, name, partitions);
    assert name !in r.topics;
    RecoveredSnoc(b.wal, TopicRecord(name, partitions));
    IdemLogSnoc(b.wal, TopicRecord(name, partitions));
    var b1 := b.(topics := b.topics[name := NewTopic(partitions)]);
    var b2 := b1.(wal := b.wal + [TopicRecord(name, partitions)]);
    SameOffsets(r, b, r, b1);
    SameOffsets(r, b, Recovered(b2.wal).value, b2);
  }

  lemma AppendStepAgrees(cfg: Config, b: State, topic: string, p: nat, m: Message)
    requires Inv(cfg, b) && Agrees(b) && Exists(b, topic, p) && Paired(b)
    ensures Agrees(Append(b, topic, p, m))
  {
    hide OffsetsAgree, I.LogAgrees, TopicsAgree, Inv, Canonical, ToEntry, FromEntry, Extend, AppendTo;
    var r := Recovered(b.wal).value;
    var placed := Placed(m, p, |b.topics[topic].logs[p]|);
    AppendAgrees(b.topics, r.topics, topic, p, placed);
    MessageRoundTrip(topic, placed);
    EntryPlace(topic, placed);
    var rec := MessageRecord(ToEntry(topic, placed));
    RecoveredSnoc(b.wal, rec);
    IdemLogSnoc(b.wal, rec);
    var t := Extend(TopicFor(r.topics, topic), p + 1);
    var after := r.(topics := r.topics[topic := AppendTo(t, p, Canonical(placed))]);
    assert RecoverOne(r, rec) == Some(after);
    var b' := Append(b, topic, p, m);
    assert TopicsAgree(b'.topics, after.topics);
    SameOffsets(r, b, after, b');
    assert b'.wal == b.wal + [rec];
    assert Recovered(b'.wal) == Some(after);
  }

  lemma EntryPlace(topic: string, m: Message)
    requires m.partition >= 0
    ensures var e := ToEntry(topic, m); e.topic == topic && e.partition == m.partition && e.offset == m.offset
  {
  }

  lemma FlushWriteAgrees(b: State, s: Slot)
    requires Agrees(b) && s in b.slots && b.slots[s].taken >= 0
    ensures Agrees(b.(slots := b.slots[s := b.slots[s].(taken := -1)],
                      wal := b.wal + [OffsetRecord(s, b.slots[s].taken)]))
  {
    hide I.LogAgrees, TopicsAgree, OffsetAgrees;
    var rec := OffsetRecord(s, b.slots[s].taken);
    var b' := b.(slots := b.slots[s := b.slots[s].(taken := -1)], wal := b.wal + [rec]);
    RecoveredSnoc(b.wal, rec);
    IdemLogSnoc(b.wal, rec);
    var r, r' := Recovered(b.wal).value, Recovered(b'.wal).value;
    forall u
      ensures OffsetAgrees(LoggedOffset(r', u), At(b', u))
    {
      assert OffsetAgrees(LoggedOffset(r, u), At(b, u));
      if u == s {
        WriteAgrees(LoggedOffset(r, s), b.slots[s]);
      }
    }
  }

  /** Every step keeps the agreement between the log and the live state. */
  lemma StepAgrees(cfg: Config, b: State, step: Step)
    requires Inv(cfg, b) && Agrees(b) && Paired(b) && Enabled(cfg, b, step)
    ensures Agrees(Apply(cfg, b, step))
  {
    hide Inv, Agrees, Apply, Enabled, Paired;
    if step.CreateTopic? || step.Produce? || step.EnsureDlq? {
      TopicStepAgrees(cfg, b, step);
    } else if step.Idem? {
      IdemStepAgrees(cfg, b, step.op);
    } else if step.FlushTake? || step.FlushWrite? || step.FlushFail? {
      FlushStepAgrees(cfg, b, step);
    } else if step.Bury? {
      BuryStepAgrees(cfg, b, step);
    } else {
      SlotStepAgrees(cfg, b, step);
    }
  }

  lemma TopicStepAgrees(cfg: Config, b: State, step: Step)
    requires Inv(cfg, b) && Agrees(b) && Paired(b) && Enabled(cfg, b, step)
    requires step.CreateTopic? || step.Produce? || step.EnsureDlq?
    ensures Agrees(Apply(cfg, b, step))
  {
    hide Inv, Agrees, Slowest, Admits, Append, NewTopic;
    match step
    case CreateTopic(name, partitions, logged) => CreateStepAgrees(b, name, partitions, logged);
    case Produce(topic, p, m, _, _) => AppendStepAgrees(cfg, b, topic, p, m);
    case EnsureDlq(topic) =>
      if DlqTopic(topic) !in b.topics {
        CreateStepAgrees(b, DlqTopic(topic), if |b.topics[topic].logs| > 0 then |b.topics[topic].logs| else 1, false);
      }
  }

  lemma IdemStepAgrees(cfg: Config, b: State, op: I.Op)
    requires Agrees(b) && Paired(b) && Enabled(cfg, b, Idem(op))
    ensures Agrees(Apply(cfg, b, Idem(op)))
  {
    hide ItemsAgree, TopicsAgree, OffsetsAgree, I.Do, I.WellScoped, Addressed;
    IdemAgrees(cfg, b, op);
    var e := I.Do(b.items, cfg.ttl, op);
    var b' := Apply(cfg, b, Idem(op));
    if e.logged.Some? {
      RecoveredSnoc(b.wal, IdemRecord(e.logged.value));
    }
    assert Recovered(b'.wal) == Recovered(b.wal);
    SameOffsets(Recovered(b.wal).value, b, Recovered(b.wal).value, b');
  }

  lemma FlushStepAgrees(cfg: Config, b: State, step: Step)
    requires Agrees(b) && Paired(b) && Enabled(cfg, b, step) && (step.FlushTake? || step.FlushWrite? || step.FlushFail?)
    ensures Agrees(Apply(cfg, b, step))
  {
    hide TopicsAgree, I.LogAgrees, Take, GiveBack;
    if step.FlushWrite? {
      FlushWriteAgrees(b, step.slot);
    } else {
      var b' := Apply(cfg, b, step);
      var r := Recovered(b.wal).value;
      forall s
        ensures OffsetAgrees(LoggedOffset(r, s), At(b', s))
      {
        assert OffsetAgrees(LoggedOffset(r, s), At(b, s));
        TakeAgrees(LoggedOffset(r, s), At(b, s));
      }
      SilentAgrees(b, b');
    }
  }

  /** The offsets a slot step leaves. */
  lemma SlotStepOffsets(cfg: Config, b: State, step: Step, logged: int)
    requires OnSlot(step) && Inv(cfg, b) && Paired(b) && Enabled(cfg, b, step)
    requires OffsetAgrees(logged, At(b, step.slot))
    ensures OffsetAgrees(logged, At(Apply(cfg, b, step), step.slot))
  {
    hide Inv, Enabled, Apply, Moved;
    SlotStepIs(cfg, b, step);
    MovedOffsets(cfg, b, step, logged);
  }

  lemma MovedOffsets(cfg: Config, b: State, step: Step, logged: int)
    requires OnSlot(step) && Able(b, step) && Inv(cfg, b) && OffsetAgrees(logged, At(b, step.slot))
    ensures OffsetAgrees(logged, Moved(cfg, b, step))
  {
    hide Inv, NackLease, OffsetAgrees, Again, Purge;
    var s := step.slot;
    if step.Skip? || step.SendSimple? {
      AtKeepsInv(cfg, b, s);
      AdvanceAgrees(logged, At(b, s), Head(b, s).offset);
      SameOffsetFields(logged, Advance(At(b, s), Head(b, s).offset), Moved(cfg, b, step));
    } else if step.Ack? {
      AdvanceAgrees(logged, At(b, s), step.offset);
      SameOffsetFields(logged, Advance(At(b, s), step.offset), Moved(cfg, b, step));
    } else if step.Settle? {
      EntryAt(cfg, b, s, step.offset);
      AdvanceAgrees(logged, At(b, s), step.offset);
      SameOffsetFields(logged, Advance(At(b, s), step.offset), Moved(cfg, b, step));
    } else {
      SameOffsetFields(logged, At(b, s), Moved(cfg, b, step));
    }
  }

  lemma OtherSlotsSame(cfg: Config, b: State, step: Step)
    requires OnSlot(step) && Paired(b) && Enabled(cfg, b, step)
    ensures forall u :: u != step.slot ==> At(Apply(cfg, b, step), u) == At(b, u)
  {
    hide Enabled, Apply, Moved;
    SlotStepIs(cfg, b, step);
  }

  lemma SameOffsetFields(logged: int, ss: SlotState, ss': SlotState)
    requires OffsetAgrees(logged, ss)
    ensures ss'.committed == ss.committed && ss'.pending == ss.pending && ss'.taken == ss.taken ==>
              OffsetAgrees(logged, ss')
  {
  }

  lemma SlotStepAgrees(cfg: Config, b: State, step: Step)
    requires Inv(cfg, b) && Agrees(b) && Paired(b) && Enabled(cfg, b, step)
    requires OnSlot(step) || step.Register? || step.Unregister? || step.TouchGroup?
    ensures Agrees(Apply(cfg, b, step))
  {
    if OnSlot(step) {
      hide Enabled, Apply, Inv, Agrees;
      OneSlotAgrees(cfg, b, step);
    } else {
      hide Inv, TopicsAgree, ItemsAgree, RetryOffsets, OffsetsAgree, Recovered;
      QuietAgrees(cfg, b, step);
    }
  }

  lemma QuietAgrees(cfg: Config, b: State, step: Step)
    requires Agrees(b) && Paired(b) && Enabled(cfg, b, step) && (step.Register? || step.Unregister? || step.TouchGroup?)
    ensures Agrees(Apply(cfg, b, step))
  {
    hide TopicsAgree, ItemsAgree, RetryOffsets, OffsetsAgree, Recovered, Unregistered;
    var b' := Apply(cfg, b, step);
    UnregisteredSame(b, step);
    hide Apply, Enabled;
    SameOffsets(Recovered(b.wal).value, b, Recovered(b.wal).value, b');
    SilentAgrees(b, b');
  }

  lemma UnregisteredSame(b: State, step: Step)
    ensures step.Unregister? && step.gid in b.consumers && step.index < |b.consumers[step.gid]| ==>
              var b' := Unregistered(b, step.gid, step.index);
              b' == b.(consumers := b'.consumers)
  {
  }

  lemma OneSlotAgrees(cfg: Config, b: State, step: Step)
    requires OnSlot(step) && Inv(cfg, b) && Agrees(b) && Paired(b) && Enabled(cfg, b, step)
    ensures Agrees(Apply(cfg, b, step))
  {
    hide Inv, Enabled, Apply, TopicsAgree, I.LogAgrees, OffsetAgrees, Moved, At, Recovered, RetryOffsets, ItemsAgree;
    var b' := Apply(cfg, b, step);
    var r := Recovered(b.wal).value;
    assert OffsetAgrees(LoggedOffset(r, step.slot), At(b, step.slot));
    SlotStepIs(cfg, b, step);
    SlotStepOffsets(cfg, b, step, LoggedOffset(r, step.slot));
    OtherSlotsSame(cfg, b, step);
    PutAgrees(r, b, b', step.slot);
    if step.Note? && step.logged {
      NoteOffset(b, step);
      RetryRecordAgrees(b, b', step.slot, step.offset, step.text);
    } else {
      SilentAgrees(b, b');
    }
  }

  lemma NoteOffset(b: State, step: Step)
    requires OnSlot(step) && step.Note? && Able(b, step)
    ensures step.offset >= 0
  {
  }

  lemma BuryStepAgrees(cfg: Config, b: State, step: Step)
    requires Inv(cfg, b) && Agrees(b) && Paired(b) && Enabled(cfg, b, step) && step.Bury?
    ensures Agrees(Apply(cfg, b, step))
  {
    hide SlotInv, TopicInv, TopicsAgree, I.LogAgrees, OffsetAgrees, Slowest, Admits, DoneFor, DeadLetter, Append,
      LeaseFor;
    var s := step.slot;
    var e := At(b, s).inflight[step.offset];
    var b1 := PutOffset(b, s, LeaveSlot(At(b, s), step.offset, DeadLettered(e.attempts)));
    var r := Recovered(b.wal).value;
    EntryAt(cfg, b, s, step.offset);
    assert OffsetAgrees(LoggedOffset(r, s), At(b, s));
    AdvanceAgrees(LoggedOffset(r, s), At(b, s), step.offset);
    SameOffsetFields(LoggedOffset(r, s), Advance(At(b, s), step.offset), At(b1, s));
    PutAgrees(r, b, b1, s);
    SilentAgrees(b, b1);
    if !IsDlq(s.topic) {
      BuriedInv(cfg, b, s, step.offset);
      AppendStepAgrees(cfg, b1, DlqTopic(s.topic), step.partition, DeadLetter(s.topic, e, step.now));
    }
  }

  lemma BuriedInv(cfg: Config, b: State, s: Slot, offset: int)
    requires Inv(cfg, b) && Flying(b, s, offset) && Exhausted(At(b, s).inflight[offset])
    ensures Inv(cfg, PutOffset(b, s, LeaveSlot(At(b, s), offset, DeadLettered(At(b, s).inflight[offset].attempts))))
  {
    hide SlotInv, TopicInv;
    EntryAt(cfg, b, s, offset);
    LeaveKeepsInv(cfg, b, s, offset, DeadLettered(At(b, s).inflight[offset].attempts));
  }

  // Partition counts

  function RowsOf(topics: map<string, Topic>, t: string): nat {
    if t in topics then |topics[t].logs| else 0
  }

  /** One more than the highest partition that holds a message. */
  function UsedRows(logs: seq<Log>): nat {
    if logs == [] then 0
    else if logs[|logs| - 1] != [] then |logs|
    else UsedRows(logs[..|logs| - 1])
  }

  function RowsIn(topics: map<string, Topic>, t: string): seq<Log> {
    if t in topics then topics[t].logs else []
  }

  ghost predicate Declared(wal: seq<WalRecord>, t: string) {
    exists n :: TopicRecord(t, n) in wal
  }

  /** A logged creation says how many partitions the live topic has. */
  ghost predicate RowsAgree(b: State) {
    forall t, n :: TopicRecord(t, n) in b.wal ==> t != "" && n > 0 && t in b.topics && |b.topics[t].logs| == n
  }

  lemma RowsStay(b: State, b': State)
    requires RowsAgree(b)
    requires forall t, n :: TopicRecord(t, n) in b'.wal ==> TopicRecord(t, n) in b.wal
    requires forall t :: t in b.topics ==> t in b'.topics && |b'.topics[t].logs| == |b.topics[t].logs|
    ensures RowsAgree(b')
  {
  }

  lemma StepKeepsRows(cfg: Config, b: State, step: Step)
    requires RowsAgree(b) && Paired(b) && Enabled(cfg, b, step)
    ensures RowsAgree(Apply(cfg, b, step))
  {
    if step.CreateTopic? || step.EnsureDlq? {
      NewRows(cfg, b, step);
    } else if step.Produce? || step.Bury? {
      hide RowsAgree, Apply, Enabled;
      AppendedRows(cfg, b, step);
      RowsStay(b, Apply(cfg, b, step));
    } else {
      hide RowsAgree, Apply, Enabled;
      QuietRows(cfg, b, step);
      RowsStay(b, Apply(cfg, b, step));
    }
  }

  lemma NewRows(cfg: Config, b: State, step: Step)
    requires RowsAgree(b) && Paired(b) && Enabled(cfg, b, step) && (step.CreateTopic? || step.EnsureDlq?)
    ensures RowsAgree(Apply(cfg, b, step))
  {
  }

  lemma AppendedRows(cfg: Config, b: State, step: Step)
    requires Paired(b) && Enabled(cfg, b, step) && (step.Produce? || step.Bury?)
    ensures var b' := Apply(cfg, b, step);
            && (forall t, n :: TopicRecord(t, n) in b'.wal ==> TopicRecord(t, n) in b.wal)
            && (forall t :: t in b.topics ==> t in b'.topics && |b'.topics[t].logs| == |b.topics[t].logs|)
  {
    if step.Bury? {
      hide Enabled, Apply, LeaveSlot, DeadLetter, ToEntry;
      BuryIs(cfg, b, step);
    } else {
      hide Slowest, Admits, ToEntry;
    }
  }

  lemma QuietRows(cfg: Config, b: State, step: Step)
    requires Paired(b) && Enabled(cfg, b, step)
    requires !step.CreateTopic? && !step.EnsureDlq? && !step.Produce? && !step.Bury?
    ensures var b' := Apply(cfg, b, step);
            (forall t, n :: TopicRecord(t, n) in b'.wal ==> TopicRecord(t, n) in b.wal) && b'.topics == b.topics
  {
    if OnSlot(step) {
      hide Enabled, Apply, Moved;
      SlotStepIs(cfg, b, step);
    } else {
      hide I.Do, At;
    }
  }

  /** What is replayed for a topic: at least what was declared, and nothing beyond that and the
      highest partition in use. */
  lemma {:induction false} RowsReplayed(wal: seq<WalRecord>, t: string)
    requires Recovered(wal).Some?
    ensures var topics := Recovered(wal).value.topics;
            && (t in topics ==> RowsOf(topics, t) > 0)
            && (t in topics && !Declared(wal, t) ==> topics[t].logs[|topics[t].logs| - 1] != [])
            && (forall n: nat :: TopicRecord(t, n) in wal && t != "" ==> n <= RowsOf(topics, t))
  {
    hide FromEntry;
    if wal != [] {
      var front, last := wal[..|wal| - 1], wal[|wal| - 1];
      assert wal == front + [last];
      RowsReplayed(front, t);
      RowsOfOne(Recovered(front).value, last, t);
      forall n | TopicRecord(t, n) in wal
        ensures Declared(wal, t) && (TopicRecord(t, n) in front || TopicRecord(t, n) == last)
      {
      }
      assert Declared(front, t) ==> Declared(wal, t) by {
        if Declared(front, t) {
          var n :| TopicRecord(t, n) in front;
          assert TopicRecord(t, n) in wal;
        }
      }
      hide Recovered, RecoverOne;
    }
  }

  /** One record: partitions are only added, as many as it declares, or up to one in use. */
  lemma RowsOfOne(r: Recovery, rec: WalRecord, t: string)
    requires EvenRows(r.topics) && RecoverOne(r, rec).Some? && (t in r.topics ==> RowsOf(r.topics, t) > 0)
    ensures var topics := RecoverOne(r, rec).value.topics;
            && RowsOf(r.topics, t) <= RowsOf(topics, t)
            && (t in topics ==> RowsOf(topics, t) > 0)
            && (t in topics && !(rec.TopicRecord? && rec.topic == t)
                && (t in r.topics ==> r.topics[t].logs[|r.topics[t].logs| - 1] != [])
                ==> topics[t].logs[|topics[t].logs| - 1] != [])
            && (rec.TopicRecord? && rec.topic == t && t != "" ==> rec.partitions <= RowsOf(topics, t))
  {
    hide FromEntry;
  }

  lemma {:induction false} UsedRowsAre(logs: seq<Log>, k: nat)
    requires k <= |logs| && (k > 0 ==> logs[k - 1] != [])
    requires forall i :: k <= i < |logs| ==> logs[i] == []
    ensures UsedRows(logs) == k
  {
    if |logs| > k {
      UsedRowsAre(logs[..|logs| - 1], k);
    }
  }

  /** After a restart a logged topic has its partitions again, used or not; a topic that was
      never logged (a dead-letter topic) has only those up to the highest in use, and is gone if
      none is. */
  ghost predicate RowsRestored(b: State, b': State) {
    && (forall t, n :: TopicRecord(t, n) in b.wal ==> RowsOf(b'.topics, t) == RowsOf(b.topics, t) == n)
    && (forall t :: !Declared(b.wal, t) ==> RowsOf(b'.topics, t) == UsedRows(RowsIn(b.topics, t)))
    && (forall t :: t in b'.topics <==> RowsOf(b'.topics, t) > 0)
  }

  lemma RestartRows(b: State, now: int)
    requires Agrees(b) && RowsAgree(b)
    ensures var b' := Rebuilt(Recovered(b.wal).value, b.wal, now); RowsRestored(b, b') && RowsAgree(b')
  {
    hide Recovered, RecoveredItems, RecoveredSlot, OffsetsAgree, RetryOffsets, ItemsAgree;
    var r := Recovered(b.wal).value;
    forall t
      ensures forall n :: TopicRecord(t, n) in b.wal ==> RowsOf(r.topics, t) == RowsOf(b.topics, t) == n
      ensures !Declared(b.wal, t) ==> RowsOf(r.topics, t) == UsedRows(RowsIn(b.topics, t))
      ensures t in r.topics <==> RowsOf(r.topics, t) > 0
    {
      RowsReplayed(b.wal, t);
      RowsWithin(b.topics, r.topics, t);
      if !Declared(b.wal, t) {
        UsedRowsReplayed(b.topics, r.topics, t);
      }
    }
  }

  lemma RowsWithin(live: map<string, Topic>, replayed: map<string, Topic>, t: string)
    requires TopicsAgree(live, replayed)
    ensures RowsOf(replayed, t) <= RowsOf(live, t)
  {
  }

  lemma UsedRowsReplayed(live: map<string, Topic>, replayed: map<string, Topic>, t: string)
    requires TopicsAgree(live, replayed) && (t in replayed ==> RowsOf(replayed, t) > 0)
    requires t in replayed ==> replayed[t].logs[|replayed[t].logs| - 1] != []
    ensures RowsOf(replayed, t) == UsedRows(RowsIn(live, t))
  {
    hide Canonical, TopicInv;
    var k, logs := RowsOf(replayed, t), RowsIn(live, t);
    if t in live {
      forall p: nat | p < |logs|
        ensures |LogIn(replayed, t, p)| == |logs[p]|
      {
        assert LogIn(replayed, t, p) == CanonicalLog(LogIn(live, t, p));
      }
      assert k > 0 ==> |LogIn(replayed, t, k - 1)| == |logs[k - 1]|;
      forall i: nat | k <= i < |logs|
        ensures logs[i] == []
      {
        assert |LogIn(replayed, t, i)| == |logs[i]|;
      }
      UsedRowsAre(logs, k);
    }
  }

  // Restarts

  /** What a restart gives back: the partition logs in canonical form, the partition counts of
      logged topics, committed offsets no higher than the live ones, exactly the committed consume
      keys with their results, and no old error at or below a committed offset. */
  ghost predicate RestartFaithful(b: State, b': State) {
    && TopicsAgree(b.topics, b'.topics) && RowsRestored(b, b')
    && (forall s :: At(b', s).committed <= At(b, s).committed)
    && (forall k: I.Key :: k.scope == I.Consume ==> (I.CommittedIn(b'.items, k) <==> I.CommittedIn(b.items, k)))
    && (forall k: I.Key :: k.scope == I.Consume && I.CommittedIn(b.items, k) ==>
          b'.items[k].result == b.items[k].result)
    && (forall s, o :: o in At(b', s).retry ==> o > At(b', s).committed)
    && (forall s :: At(b', s).next.None? && At(b', s).inflight == map[])
  }

  /** Every partition has all its messages, each saying what it said. */
  ghost predicate SameMessages(live: map<string, Topic>, replayed: map<string, Topic>) {
    forall t, p: nat :: t in live ==> SameLogs(LogIn(live, t, p), LogIn(replayed, t, p))
  }

  ghost predicate SameLogs(live: Log, replayed: Log) {
    |replayed| == |live| && forall o :: 0 <= o < |live| ==> SameContents(live[o], replayed[o])
  }

  lemma AgreeIsSame(live: map<string, Topic>, replayed: map<string, Topic>)
    requires TopicsAgree(live, replayed)
    ensures SameMessages(live, replayed)
  {
    hide TopicInv, Canonical, SameContents;
    forall t, p: nat | t in live
      ensures SameLogs(LogIn(live, t, p), LogIn(replayed, t, p))
    {
      var log := LogIn(live, t, p);
      assert LogIn(replayed, t, p) == CanonicalLog(log);
      forall o | 0 <= o < |log|
        ensures SameContents(log[o], CanonicalLog(log)[o])
      {
        CanonicalIsSame(log[o]);
      }
    }
  }

  lemma TopicsAgreeTwice(live: map<string, Topic>, replayed: map<string, Topic>)
    requires TopicsAgree(live, replayed)
    ensures TopicsAgree(replayed, replayed)
  {
    hide Canonical, TopicInv;
    forall t, p: nat | t in replayed
      ensures LogIn(replayed, t, p) == CanonicalLog(LogIn(replayed, t, p))
    {
      CanonicalLogTwice(LogIn(live, t, p));
    }
  }

  lemma ItemsAgreeAfter(b: State, now: int)
    requires ItemsAgree(b)
    ensures var items := RecoveredItems(b.wal, now);
            && ItemsAgree(b.(items := items))
            && (forall k: I.Key :: k.scope == I.Consume ==> (I.CommittedIn(items, k) <==> I.CommittedIn(b.items, k)))
            && (forall k: I.Key :: k.scope == I.Consume && I.CommittedIn(b.items, k) ==>
                  items[k].result == b.items[k].result)
  {
    var items, log := RecoveredItems(b.wal, now), IdemLog(b.wal);
    forall k: I.Key | k.scope == I.Consume
      ensures I.CommittedIn(items, k) <==> I.CommittedIn(I.Restored(log), k)
      ensures I.CommittedIn(items, k) ==> items[k] == I.Restored(log)[k]
    {
      ItemsRestored(b.wal, now, k);
    }
    hide RecoveredItems, I.Restored;
  }

  /** At every crash point replay succeeds, gives back what it should, and leaves a broker that
      satisfies all invariants again. */
  lemma RestartAgrees(cfg: Config, b: State, now: int)
    requires Agrees(b) && RowsAgree(b)
    ensures var b' := Rebuilt(Recovered(b.wal).value, b.wal, now);
            RestartFaithful(b, b') && SameMessages(b.topics, b'.topics) && WalInv(cfg, b')
  {
    var r := Recovered(b.wal).value;
    var b' := Rebuilt(r, b.wal, now);
    RestartSlots(r, b, now);
    RestartInv(cfg, r, b, now);
    RestartRows(b, now);
    AgreeIsSame(b.topics, r.topics);
    hide RowsRestored, RowsAgree, TopicsAgree, OffsetsAgree, ItemsAgree, RecoveredItems, Recovered, SlotInv,
      I.CommittedIn, SameMessages;
    TopicsAgreeTwice(b.topics, r.topics);
    ItemsAgreeAfter(b, now);
    SameItems(b.(items := RecoveredItems(b.wal, now)), b');
  }

  lemma SameItems(b: State, b': State)
    requires ItemsAgree(b) && b'.items == b.items && b'.wal == b.wal
    ensures ItemsAgree(b')
  {
  }

  lemma RestartSlots(r: Recovery, b: State, now: int)
    requires OffsetsAgree(r, b) && RetryOffsets(r)
    ensures var b' := Rebuilt(r, b.wal, now);
            && OffsetsAgree(r, b')
            && (forall s :: At(b', s).committed <= At(b, s).committed)
            && (forall s, o :: o in At(b', s).retry ==> o > At(b', s).committed)
            && (forall s :: At(b', s).next.None? && At(b', s).inflight == map[])
  {
    hide RecoveredItems;
    var b' := Rebuilt(r, b.wal, now);
    forall s
      ensures At(b', s).committed == LoggedOffset(r, s) && OffsetAgrees(LoggedOffset(r, s), At(b', s))
      ensures At(b', s).committed <= At(b, s).committed
    {
      assert OffsetAgrees(LoggedOffset(r, s), At(b, s));
    }
    forall s, o | o in At(b', s).retry
      ensures o > At(b', s).committed
    {
      assert OffsetAgrees(LoggedOffset(r, s), At(b, s));
    }
  }

  lemma RestartInv(cfg: Config, r: Recovery, b: State, now: int)
    requires TopicsAgree(b.topics, r.topics)
    ensures Inv(cfg, Rebuilt(r, b.wal, now))
  {
    hide RecoveredItems, CanonicalLog, TopicInv;
  }

  // The replay loop

  /** NewInMemoryBrokerFromWAL: the state it rebuilds, or None for an unexpected offset. */
  method Replay(wal: seq<WalRecord>, now: int) returns (b: Option<State>)
    ensures b.None? <==> Recovered(wal).None?
    ensures b.Some? ==> b.value == Rebuilt(Recovered(wal).value, wal, now)
  {
    hide FromEntry, TenantId, IdempotencyKey, AppendTo, Extend, I.Commit, I.Restore;
    var topics: map<string, Topic>, committed: map<Slot, int> := map[], map[];
    var retry: map<Slot, map<int, string>> := map[];
    var items: I.Items := map[];
    for i := 0 to |wal|
      invariant EvenRows(topics) && Recovered(wal[..i]) == Some(Recovery(topics, committed, retry))
      invariant RecoveredItems(wal[..i], now) == items
    {
      Prefix(wal, i, now);
      match wal[i]
      case TopicRecord(topic, partitions) =>
        if topic != "" && partitions > 0 {
          var t := if topic in topics then Extend(topics[topic], partitions) else NewTopic(partitions);
          topics := topics[topic := t];
        }
      case MessageRecord(e) =>
        var t := Extend(TopicFor(topics, e.topic), e.partition + 1);
        if e.offset != |t.logs[e.partition]| {
          NoRecovery(wal, i + 1);
          return None;
        }
        var m := FromEntry(e);
        if Keyed(m) {
          items := I.Commit(items, I.ProduceKey(TenantId(m), e.topic, IdempotencyKey(m)), "", now);
        }
        topics := topics[e.topic := AppendTo(t, e.partition, m)];
      case OffsetRecord(s, offset) =>
        if s !in committed || offset > committed[s] {
          committed := committed[s := offset];
        }
      case RetryRecord(s, offset, text) =>
        if s.topic != "" && s.group != "" {
          retry := retry[s := RetryAt(retry, s)[offset := text]];
        }
      case IdemRecord(r) =>
        if r.key.scope == I.Consume && r.key.topic != "" && r.key.group != "" && r.key.key != "" {
          items := I.Restore(items, r);
        }
    }
    assert wal[..|wal|] == wal;
    var slots, groups := Purged(Recovery(topics, committed, retry));
    return Some(State(topics, slots, groups, map[], items, wal));
  }

  /** The purge at the end of replay: old errors at or below a committed offset go. */
  method Purged(r: Recovery) returns (slots: map<Slot, SlotState>, groups: set<GroupId>)
    ensures slots == map s | s in r.committed.Keys + r.retry.Keys :: RecoveredSlot(r, s)
    ensures groups == set s | s in r.committed :: GroupId(s.topic, s.group)
  {
    var retry := r.retry;
    var todo := r.committed.Keys;
    while todo != {}
      invariant todo <= r.committed.Keys && retry.Keys == r.retry.Keys
      invariant forall s :: s in retry ==>
                  retry[s] == if s in r.committed && s !in todo then Purge(r.retry[s], r.committed[s]) else r.retry[s]
      decreases todo
    {
      var s :| s in todo;
      if s in retry {
        retry := retry[s := Purge(retry[s], r.committed[s])];
      }
      todo := todo - {s};
    }
    slots := map s | s in r.committed.Keys + retry.Keys ::
      FRESH.(committed := if s in r.committed then r.committed[s] else -1, retry := RetryAt(retry, s));
    groups := set s | s in r.committed :: GroupId(s.topic, s.group);
    forall s | s in slots
      ensures slots[s] == RecoveredSlot(r, s)
    {
      assert s !in r.retry && s in r.committed ==> Purge(map[], r.committed[s]) == map[];
    }
  }

  lemma Prefix(wal: seq<WalRecord>, i: nat, now: int)
    requires i < |wal|
    ensures var before := Recovered(wal[..i]);
            Recovered(wal[..i + 1]) == if before.None? then None else RecoverOne(before.value, wal[i])
    ensures RecoveredItems(wal[..i + 1], now) == RecoverItem(RecoveredItems(wal[..i], now), wal[i], now)
  {
    hide RecoverOne, RecoverItem;
    assert wal[..i + 1][..i] == wal[..i];
  }

  /** An unexpected offset anywhere makes the whole replay fail. */
  lemma {:induction false} NoRecovery(wal: seq<WalRecord>, i: nat)
    requires i <= |wal| && Recovered(wal[..i]).None?
    ensures Recovered(wal).None?
    decreases |wal| - i
  {
    hide RecoverOne;
    if i < |wal| {
      Prefix(wal, i, 0);
      NoRecovery(wal, i + 1);
    } else {
      assert wal[..i] == wal;
    }
  }
}
