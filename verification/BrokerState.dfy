/** The broker as a state machine (internal/broker: broker.go, dispatch.go, redelivery.go, dlq.go).

    The source keeps nested maps topic -> group -> partition; here one record per such slot holds
    what all of them say about it.  A step is one decision made under the broker's lock: one
    message dispatched, one in-flight entry redelivered, one acknowledgement, one phase of the
    offset flush.  What the environment decides (the clock, which consumer is picked, whether a
    queue has room, whether an append succeeds) is a parameter of the step. */
module BrokerState {
  import opened Common
  import opened Backoff
  import opened Records
  import opened PartitionLog
  import I = Idempotency

  datatype GroupId = GroupId(topic: string, group: string)
  datatype Slot = Slot(topic: string, group: string, partition: nat)

  /** A consumer stream: lease 0 is simple mode (no acknowledgements). */
  datatype Consumer = Consumer(owner: string, lease: int)

  datatype Entry = Entry(msg: Message, sentAt: int, attempts: nat, nextAt: Option<int>, lastError: string,
                         owner: string)

  /** How a message that the cursor has passed went out of flight. */
  datatype Exit = Acked | AutoCommitted | SkippedDone | SettledDone | DeadLettered(attempts: nat)

  /** Everything about one (topic, group, partition).  `committed`, `pending` and `taken` are -1
      when absent.  `start`, `gone` and `sent` are history: where the cursor began in this process,
      how messages left, and the offsets dispatch has queued, in order. */
  datatype SlotState = SlotState(
    committed: int, pending: int, taken: int,
    next: Option<nat>, inflight: map<int, Entry>, retry: map<int, string>,
    start: nat, gone: map<int, Exit>, sent: seq<int>)

  const FRESH: SlotState := SlotState(-1, -1, -1, None, map[], map[], 0, map[], [])

  datatype Topic = Topic(logs: seq<Log>, sums: seq<seq<int>>)

  datatype WalRecord =
    | TopicRecord(topic: string, partitions: nat)
    | MessageRecord(entry: MessageEntry)
    | OffsetRecord(slot: Slot, offset: int)
    | RetryRecord(slot: Slot, offset: int, lastError: string)
    | IdemRecord(record: I.Record)

  datatype State = State(
    topics: map<string, Topic>, slots: map<Slot, SlotState>, groups: set<GroupId>,
    consumers: map<GroupId, seq<Consumer>>, items: I.Items, wal: seq<WalRecord>)

  datatype Config = Config(maxInFlight: int, ackTimeout: int, maxMsgs: int, maxBytes: int, ttl: int)

  const INITIAL: State := State(map[], map[], {}, map[], map[], [])

  const MILLISECOND: int := 1_000_000

  // Reading the state

  function At(b: State, s: Slot): SlotState {
    if s in b.slots then b.slots[s] else FRESH
  }

  predicate Exists(b: State, topic: string, partition: int) {
    topic in b.topics && 0 <= partition < |b.topics[topic].logs|
  }

  predicate Known(b: State, s: Slot) {
    Exists(b, s.topic, s.partition) && s.topic != "" && s.group != ""
  }

  function LogOf(b: State, s: Slot): Log {
    if Exists(b, s.topic, s.partition) then b.topics[s.topic].logs[s.partition] else []
  }

  function Streams(b: State, s: Slot): seq<Consumer> {
    var gid := GroupId(s.topic, s.group);
    if gid in b.consumers then b.consumers[gid] else []
  }

  /** The lease redelivery grants an owner: its latest stream's, or the default. */
  function LeaseFor(streams: seq<Consumer>, owner: string, ackTimeout: int): int {
    if streams == [] then ackTimeout
    else
      var last := streams[|streams| - 1];
      if last.owner == owner then (if last.lease > 0 then last.lease else ackTimeout)
      else LeaseFor(streams[..|streams| - 1], owner, ackTimeout)
  }

  /** The owner's latest stream. */
  predicate Latest(streams: seq<Consumer>, owner: string, i: int) {
    0 <= i < |streams| && streams[i].owner == owner && forall j :: i < j < |streams| ==> streams[j].owner != owner
  }

  /** That is the owner's lease: its latest stream's, and the default if that has none or the owner
      has no stream. */
  ghost predicate LatestLease(streams: seq<Consumer>, owner: string, ackTimeout: int, lease: int) {
    && (forall i :: Latest(streams, owner, i) ==>
          lease == if streams[i].lease > 0 then streams[i].lease else ackTimeout)
    && ((forall i :: 0 <= i < |streams| ==> streams[i].owner != owner) ==> lease == ackTimeout)
  }

  /** Every owner has exactly one lease in that sense. */
  lemma {:induction false} LeaseIsLatest(streams: seq<Consumer>, owner: string, ackTimeout: int, lease: int)
    ensures LatestLease(streams, owner, ackTimeout, lease) <==> lease == LeaseFor(streams, owner, ackTimeout)
  {
    if streams != [] {
      var front, last := streams[..|streams| - 1], |streams| - 1;
      if streams[last].owner == owner {
        assert Latest(streams, owner, last);
      } else {
        LeaseIsLatest(front, owner, ackTimeout, lease);
        assert forall i :: Latest(front, owner, i) <==> Latest(streams, owner, i);
        assert forall i :: 0 <= i < |front| ==> front[i] == streams[i];
      }
    }
  }

  /** The owner's first leasing stream. */
  predicate First(streams: seq<Consumer>, owner: string, i: int) {
    && 0 <= i < |streams| && streams[i].owner == owner && streams[i].lease > 0
    && forall j :: 0 <= j < i ==> !(streams[j].owner == owner && streams[j].lease > 0)
  }

  /** The lease of the owner's first leasing stream, and the default without any. */
  ghost predicate FirstsLease(streams: seq<Consumer>, owner: string, ackTimeout: int, lease: int) {
    && (forall i :: First(streams, owner, i) ==> lease == streams[i].lease)
    && ((forall i :: 0 <= i < |streams| ==> !(streams[i].owner == owner && streams[i].lease > 0)) ==>
          lease == ackTimeout)
  }

  lemma {:induction false} NackLeaseIsFirsts(streams: seq<Consumer>, owner: string, ackTimeout: int, lease: int)
    ensures FirstsLease(streams, owner, ackTimeout, lease) <==> lease == NackLease(streams, owner, ackTimeout)
  {
    if streams != [] {
      var rest := streams[1..];
      if streams[0].owner == owner && streams[0].lease > 0 {
        assert First(streams, owner, 0);
      } else {
        NackLeaseIsFirsts(rest, owner, ackTimeout, lease);
        assert forall i :: First(rest, owner, i) <==> First(streams, owner, i + 1);
        assert forall i :: First(streams, owner, i) ==> First(rest, owner, i - 1);
        assert forall i :: 0 <= i < |rest| ==> rest[i] == streams[i + 1];
      }
    }
  }

  /** The lease a negative acknowledgement reckons with: the owner's first leasing stream's. */
  function NackLease(streams: seq<Consumer>, owner: string, ackTimeout: int): int {
    if streams == [] then ackTimeout
    else if streams[0].owner == owner && streams[0].lease > 0 then streams[0].lease
    else NackLease(streams[1..], owner, ackTimeout)
  }

  /** The consume-scope key of a message for a group. */
  function ConsumeKey(s: Slot, m: Message): I.Key {
    I.Key(I.Consume, TenantId(m), s.topic, s.group, IdempotencyKey(m))
  }

  predicate Keyed(m: Message) {
    IdempotencyKey(m) != ""
  }

  /** The message's work is recorded as done for this group. */
  predicate DoneFor(b: State, s: Slot, m: Message) {
    Keyed(m) && ConsumeKey(s, m) in b.items && b.items[ConsumeKey(s, m)].status == I.Committed
  }

  /** A keyed message may go to an owner that holds its lease; others need none. */
  predicate Leased(b: State, s: Slot, m: Message, owner: string) {
    Keyed(m) ==>
      && ConsumeKey(s, m) in b.items && b.items[ConsumeKey(s, m)].status == I.Pending
      && b.items[ConsumeKey(s, m)].owner == I.Named(owner)
  }

  /** Consume keys name a topic and a group. */
  predicate Addressed(k: I.Key) {
    k.scope == I.Consume ==> k.topic != "" && k.group != ""
  }

  predicate IsDlq(topic: string) {
    "dlq." <= topic
  }

  function DlqTopic(topic: string): string {
    "dlq." + topic
  }

  // Backpressure

  /** The least acknowledged offset of the groups that have an offset map for the topic. */
  ghost predicate IsSlowest(b: State, topic: string, partition: nat, slowest: int) {
    if forall g :: g in b.groups ==> g.topic != topic then slowest == -1
    else
      && (exists g :: g in b.groups && g.topic == topic && At(b, Slot(topic, g.group, partition)).committed == slowest)
      && (forall g :: g in b.groups && g.topic == topic ==> slowest <= At(b, Slot(topic, g.group, partition)).committed)
  }

  /** produceLocked looks for the slowest acknowledgement only when there is a cap. */
  ghost predicate Slowest(cfg: Config, b: State, topic: string, partition: nat, slowest: int) {
    if cfg.maxMsgs > 0 || cfg.maxBytes > 0 then IsSlowest(b, topic, partition, slowest) else slowest == -1
  }

  /** The caps of produceLocked. */
  predicate Admits(cfg: Config, log: Log, m: Message, slowest: int) {
    && (cfg.maxMsgs > 0 ==> BufferedCount(log, slowest) < cfg.maxMsgs)
    && (cfg.maxBytes > 0 ==> BytesAfter(log, slowest) + ByteSize(m) < cfg.maxBytes)
  }

  // Slot transitions

  /** Moving the committed offset forward and queueing it for the flush. */
  function Advance(ss: SlotState, offset: int): SlotState {
    if offset > ss.committed then ss.(committed := offset, pending := Max(ss.pending, offset)) else ss
  }

  function Purge(retry: map<int, string>, offset: int): map<int, string> {
    map o | o in retry && o > offset :: retry[o]
  }

  /** The cursor starts after the committed offset. */
  function StartCursor(ss: SlotState, len: nat): SlotState {
    var idx := if ss.committed + 1 < 0 then 0 else Min(ss.committed + 1, len);
    ss.(next := Some(idx), start := idx)
  }

  function Pass(ss: SlotState, offset: int, why: Exit): SlotState
    requires ss.next.Some?
  {
    var a := Advance(ss, offset);
    a.(retry := Purge(ss.retry, offset), next := Some(ss.next.value + 1), gone := ss.gone[offset := why],
       sent := if why == AutoCommitted then ss.sent + [offset] else ss.sent)
  }

  function SeedError(ss: SlotState, offset: int): string {
    if offset in ss.retry then ss.retry[offset] else ""
  }

  function Launch(ss: SlotState, m: Message, owner: string, now: int): SlotState
    requires ss.next.Some?
  {
    ss.(inflight := ss.inflight[m.offset := Entry(m, now, 1, None, SeedError(ss, m.offset), owner)],
        next := Some(ss.next.value + 1), sent := ss.sent + [m.offset])
  }

  function AckSlot(ss: SlotState, offset: int): SlotState {
    var a := Advance(ss, offset);
    if offset in ss.inflight then a.(inflight := ss.inflight - {offset}, gone := ss.gone[offset := Acked]) else a
  }

  function LeaveSlot(ss: SlotState, offset: int, why: Exit): SlotState {
    var a := Advance(ss, offset);
    a.(inflight := ss.inflight - {offset}, gone := ss.gone[offset := why], retry := Purge(ss.retry, offset))
  }

  function HasBackoff(p: Option<RetryPolicy>): bool {
    p.Some? && (p.value.backoffMs > 0 || p.value.maxBackoffMs > 0)
  }

  /** The entry after a redelivery. */
  function Again(e: Entry, owner: string, now: int): Entry {
    e.(owner := owner, sentAt := now, attempts := e.attempts + 1,
       nextAt := if HasBackoff(Policy(e.msg)) then Some(now + Delay(Policy(e.msg), e.attempts)) else None)
  }

  function NoteSlot(ss: SlotState, offset: int, text: string, inEntry: bool): SlotState {
    ss.(retry := ss.retry[offset := text],
        inflight := if inEntry && offset in ss.inflight
                    then ss.inflight[offset := ss.inflight[offset].(lastError := text)] else ss.inflight)
  }

  /** The deadline has passed: the lease of the delivery, and the backoff gate. */
  predicate Expired(e: Entry, lease: int, now: int) {
    now - e.sentAt >= lease
  }

  predicate GateOpen(e: Entry, now: int) {
    e.nextAt.None? || now >= e.nextAt.value
  }

  predicate Exhausted(e: Entry) {
    RetryLimit(e.msg) > 0 && e.attempts >= RetryLimit(e.msg)
  }

  /** The message's envelope limits its attempts, and they are used up. */
  predicate AtLimit(e: Entry) {
    && e.msg.envelope.Some? && e.msg.envelope.value.retryPolicy.Some?
    && 0 < e.msg.envelope.value.retryPolicy.value.maxAttempts <= e.attempts
  }

  lemma ExhaustedIsAtLimit(e: Entry)
    ensures Exhausted(e) <==> AtLimit(e)
  {
  }

  // Topic transitions

  function NewTopic(partitions: nat): Topic {
    Topic(seq(partitions, i => []), seq(partitions, i => []))
  }

  /** produceLocked gives a message its place. */
  function Placed(m: Message, partition: int, offset: int): Message {
    m.(partition := partition, offset := offset)
  }

  function AppendTo(t: Topic, partition: nat, m: Message): Topic
    requires partition < |t.logs| && partition < |t.sums|
  {
    Topic(t.logs[partition := t.logs[partition] + [m]],
          t.sums[partition := AppendSum(t.sums[partition], ByteSize(m))])
  }

  /** The message publishToDLQLocked produces. */
  function DeadLetter(topic: string, e: Entry, now: int): Message {
    var env := if e.msg.envelope.Some? then e.msg.envelope.value else EMPTY_ENVELOPE;
    e.msg.(attempts := e.attempts, lastError := e.lastError,
           envelope := Some(env.(targetTopic := "", partitionOverride := None, retryPolicy := None,
                                 dlq := Some(DlqMetadata(topic, e.msg.partition, e.msg.offset, e.attempts, e.lastError,
                                                         now / MILLISECOND)))))
  }

  /** Creating the dead-letter topic in memory, as large as its source. */
  function WithDlq(topics: map<string, Topic>, topic: string): map<string, Topic>
    requires topic in topics
  {
    if DlqTopic(topic) in topics then topics
    else topics[DlqTopic(topic) := NewTopic(if |topics[topic].logs| > 0 then |topics[topic].logs| else 1)]
  }

  // Steps

  datatype Step =
    | CreateTopic(name: string, partitions: nat, logged: bool)
    | Produce(topic: string, partition: nat, msg: Message, slowest: int, logged: bool)
    | Register(gid: GroupId, consumer: Consumer)
    | Unregister(gid: GroupId, index: nat)
    | TouchGroup(gid: GroupId)
    | Idem(op: I.Op)
    | Init(slot: Slot)
    | Skip(slot: Slot)
    | SendSimple(slot: Slot)
    | Send(slot: Slot, owner: string, now: int)
    | Ack(slot: Slot, offset: int)
    | Note(slot: Slot, offset: int, text: string, inEntry: bool, logged: bool)
    | Nack(slot: Slot, offset: int, now: int)
    | Redeliver(slot: Slot, offset: int, owner: string, now: int)
    | Settle(slot: Slot, offset: int)
    | EnsureDlq(topic: string)
    | Bury(slot: Slot, offset: int, partition: nat, slowest: int, now: int)
    | FlushTake
    | FlushWrite(slot: Slot)
    | FlushFail

  /** The message at the cursor. */
  predicate HasHead(b: State, s: Slot) {
    Known(b, s) && At(b, s).next.Some? && At(b, s).next.value < |LogOf(b, s)|
  }

  function Head(b: State, s: Slot): Message
    requires HasHead(b, s)
  {
    LogOf(b, s)[At(b, s).next.value]
  }

  predicate Flying(b: State, s: Slot, offset: int) {
    Known(b, s) && offset in At(b, s).inflight
  }

  ghost predicate Enabled(cfg: Config, b: State, step: Step) {
    match step
    case CreateTopic(name, partitions, _) => name != "" && partitions > 0 && name !in b.topics
    case Produce(topic, p, m, slowest, _) =>
      topic != "" && Exists(b, topic, p) && Slowest(cfg, b, topic, p, slowest)
        && Admits(cfg, b.topics[topic].logs[p], m, slowest)
    case Register(gid, c) => gid.topic in b.topics && gid.group != "" && c.owner != "" && c.lease >= 0
    case Unregister(gid, i) => gid in b.consumers && i < |b.consumers[gid]|
    case TouchGroup(gid) => gid.topic in b.topics && gid.group != ""
    case Idem(op) => I.WellScoped(op) && Addressed(op.k)
    case Init(s) => Known(b, s) && At(b, s).next.None?
    case Skip(s) => HasHead(b, s) && DoneFor(b, s, Head(b, s))
    case SendSimple(s) => HasHead(b, s) && !DoneFor(b, s, Head(b, s))
      && (exists c :: c in Streams(b, s) && c.lease == 0)
    case Send(s, owner, now) =>
      && HasHead(b, s) && !DoneFor(b, s, Head(b, s)) && Leased(b, s, Head(b, s), owner)
      && (exists c :: c in Streams(b, s) && c.owner == owner && c.lease > 0)
      && (cfg.maxInFlight > 0 ==> |At(b, s).inflight| < cfg.maxInFlight)
    case Ack(s, offset) => Known(b, s) && offset >= 0
    case Note(s, offset, _, _, _) => Known(b, s) && 0 <= offset < |LogOf(b, s)|
    case Nack(s, offset, now) => Flying(b, s, offset)
    case Redeliver(s, offset, owner, now) =>
      && Flying(b, s, offset)
      && var e := At(b, s).inflight[offset];
      && Expired(e, LeaseFor(Streams(b, s), e.owner, cfg.ackTimeout), now) && GateOpen(e, now)
      && !DoneFor(b, s, e.msg) && !Exhausted(e) && Leased(b, s, e.msg, owner)
      && (exists c :: c in Streams(b, s) && c.owner == owner)
    case Settle(s, offset) => Flying(b, s, offset) && DoneFor(b, s, At(b, s).inflight[offset].msg)
    case EnsureDlq(topic) => topic in b.topics && topic != "" && !IsDlq(topic)
    case Bury(s, offset, p, slowest, now) =>
      && Flying(b, s, offset)
      && var e := At(b, s).inflight[offset];
      && Expired(e, LeaseFor(Streams(b, s), e.owner, cfg.ackTimeout), now) && GateOpen(e, now)
      && !DoneFor(b, s, e.msg) && Exhausted(e)
      && (!IsDlq(s.topic) ==>
            && Exists(b, DlqTopic(s.topic), p) && Slowest(cfg, b, DlqTopic(s.topic), p, slowest)
            && Admits(cfg, b.topics[DlqTopic(s.topic)].logs[p], DeadLetter(s.topic, e, now), slowest))
    case FlushTake => forall s :: s in b.slots ==> b.slots[s].taken == -1
    case FlushWrite(s) => s in b.slots && b.slots[s].taken >= 0
    case FlushFail => true
  }

  function Put(b: State, s: Slot, ss: SlotState): State {
    b.(slots := b.slots[s := ss])
  }

  /** Writing an offset creates the group's offset map. */
  function PutOffset(b: State, s: Slot, ss: SlotState): State {
    b.(slots := b.slots[s := ss], groups := b.groups + {GroupId(s.topic, s.group)})
  }

  function Append(b: State, topic: string, p: nat, m: Message): State
    requires Exists(b, topic, p) && p < |b.topics[topic].sums|
  {
    var placed := Placed(m, p, |b.topics[topic].logs[p]|);
    b.(topics := b.topics[topic := AppendTo(b.topics[topic], p, placed)],
       wal := b.wal + [MessageRecord(ToEntry(topic, placed))])
  }

  function Without<T>(s: seq<T>, i: nat): seq<T>
    requires i < |s|
  {
    s[i := s[|s| - 1]][..|s| - 1]
  }

  function Unregistered(b: State, gid: GroupId, i: nat): State
    requires gid in b.consumers && i < |b.consumers[gid]|
  {
    var rest := Without(b.consumers[gid], i);
    if rest == [] then b.(consumers := b.consumers - {gid}) else b.(consumers := b.consumers[gid := rest])
  }

  function Take(ss: SlotState): SlotState {
    ss.(taken := ss.pending, pending := -1)
  }

  function GiveBack(ss: SlotState): SlotState {
    ss.(taken := -1, pending := Max(ss.pending, ss.taken))
  }

  /** The byte sums have one row per partition. */
  predicate Paired(b: State) {
    forall t :: t in b.topics ==> |b.topics[t].sums| == |b.topics[t].logs|
  }

  ghost function Apply(cfg: Config, b: State, step: Step): State
    requires Enabled(cfg, b, step) && Paired(b)
  {
    match step
    case CreateTopic(name, partitions, logged) =>
      if !logged then b
      else b.(topics := b.topics[name := NewTopic(partitions)], wal := b.wal + [TopicRecord(name, partitions)])
    case Produce(topic, p, m, _, logged) => if logged then Append(b, topic, p, m) else b
    case Register(gid, c) =>
      b.(consumers := b.consumers[gid := (if gid in b.consumers then b.consumers[gid] else []) + [c]])
    case Unregister(gid, i) => Unregistered(b, gid, i)
    case TouchGroup(gid) => b.(groups := b.groups + {gid})
    case Idem(op) =>
      var e := I.Do(b.items, cfg.ttl, op);
      b.(items := e.items, wal := if e.logged.Some? then b.wal + [IdemRecord(e.logged.value)] else b.wal)
    case Init(s) => Put(b, s, StartCursor(At(b, s), |LogOf(b, s)|))
    case Skip(s) => PutOffset(b, s, Pass(At(b, s), Head(b, s).offset, SkippedDone))
    case SendSimple(s) => PutOffset(b, s, Pass(At(b, s), Head(b, s).offset, AutoCommitted))
    case Send(s, owner, now) => Put(b, s, Launch(At(b, s), Head(b, s), owner, now))
    case Ack(s, offset) => PutOffset(b, s, AckSlot(At(b, s), offset))
    case Note(s, offset, text, inEntry, logged) =>
      var b' := Put(b, s, NoteSlot(At(b, s), offset, text, inEntry));
      if logged then b'.(wal := b.wal + [RetryRecord(s, offset, text)]) else b'
    case Nack(s, offset, now) =>
      var ss := At(b, s);
      var e := ss.inflight[offset];
      var lease := NackLease(Streams(b, s), e.owner, cfg.ackTimeout);
      Put(b, s, ss.(inflight := ss.inflight[offset := e.(nextAt := None, sentAt := now - lease - MILLISECOND)]))
    case Redeliver(s, offset, owner, now) =>
      var ss := At(b, s);
      Put(b, s, ss.(inflight := ss.inflight[offset := Again(ss.inflight[offset], owner, now)]))
    case Settle(s, offset) => PutOffset(b, s, LeaveSlot(At(b, s), offset, SettledDone))
    case EnsureDlq(topic) => b.(topics := WithDlq(b.topics, topic))
    case Bury(s, offset, p, _, now) =>
      var e := At(b, s).inflight[offset];
      var b' := PutOffset(b, s, LeaveSlot(At(b, s), offset, DeadLettered(e.attempts)));
      if IsDlq(s.topic) then b' else Append(b', DlqTopic(s.topic), p, DeadLetter(s.topic, e, now))
    case FlushTake => b.(slots := map s | s in b.slots :: Take(b.slots[s]))
    case FlushWrite(s) =>
      b.(slots := b.slots[s := b.slots[s].(taken := -1)], wal := b.wal + [OffsetRecord(s, b.slots[s].taken)])
    case FlushFail => b.(slots := map s | s in b.slots :: GiveBack(b.slots[s]))
  }

  // Steps that work on one slot

  /** The slot a step works on, if it works on one. */
  predicate OnSlot(step: Step) {
    step.Init? || step.Skip? || step.SendSimple? || step.Send? || step.Ack? || step.Note? || step.Nack?
    || step.Redeliver? || step.Settle?
  }

  /** What such a step needs of its slot. */
  predicate Able(b: State, step: Step)
    requires OnSlot(step)
  {
    match step
    case Init(s) => Known(b, s) && At(b, s).next.None?
    case Skip(s) => HasHead(b, s)
    case SendSimple(s) => HasHead(b, s)
    case Send(s, _, _) => HasHead(b, s)
    case Ack(s, offset) => Known(b, s) && offset >= 0
    case Note(s, offset, _, _, _) => Known(b, s) && 0 <= offset < |LogOf(b, s)|
    case Nack(s, offset, _) => Flying(b, s, offset)
    case Redeliver(s, offset, _, _) => Flying(b, s, offset)
    case Settle(s, offset) => Flying(b, s, offset)
  }

  /** And what it makes of it. */
  function Moved(cfg: Config, b: State, step: Step): SlotState
    requires OnSlot(step) && Able(b, step)
  {
    var s := step.slot;
    var ss := At(b, s);
    match step
    case Init(_) => StartCursor(ss, |LogOf(b, s)|)
    case Skip(_) => Pass(ss, Head(b, s).offset, SkippedDone)
    case SendSimple(_) => Pass(ss, Head(b, s).offset, AutoCommitted)
    case Send(_, owner, now) => Launch(ss, Head(b, s), owner, now)
    case Ack(_, offset) => AckSlot(ss, offset)
    case Note(_, offset, text, inEntry, _) => NoteSlot(ss, offset, text, inEntry)
    case Nack(_, offset, now) =>
      var lease := NackLease(Streams(b, s), ss.inflight[offset].owner, cfg.ackTimeout);
      ss.(inflight := ss.inflight[offset := ss.inflight[offset].(nextAt := None, sentAt := now - lease - MILLISECOND)])
    case Redeliver(_, offset, owner, now) =>
      ss.(inflight := ss.inflight[offset := Again(ss.inflight[offset], owner, now)])
    case Settle(_, offset) => LeaveSlot(ss, offset, SettledDone)
  }

  lemma SlotStepIs(cfg: Config, b: State, step: Step)
    requires OnSlot(step) && Paired(b) && Enabled(cfg, b, step)
    ensures Able(b, step) && MovesOne(b, step, Moved(cfg, b, step), Apply(cfg, b, step))
    ensures At(Apply(cfg, b, step), step.slot) == Moved(cfg, b, step)
  {
    EnabledIsAble(cfg, b, step);
    if step.Init? || step.Skip? || step.SendSimple? || step.Send? {
      CursorStepIs(cfg, b, step);
    } else {
      EntryStepIs(cfg, b, step);
    }
    hide Enabled, Apply, Able, Moved;
  }

  /** Only this slot changes, and at most the log of errors. */
  predicate MovesOne(b: State, step: Step, ss: SlotState, b': State)
    requires OnSlot(step)
  {
    && b'.slots == b.slots[step.slot := ss]
    && b'.topics == b.topics && b'.consumers == b.consumers && b'.items == b.items
    && b'.wal == if step.Note? && step.logged then b.wal + [RetryRecord(step.slot, step.offset, step.text)] else b.wal
  }

  lemma EnabledIsAble(cfg: Config, b: State, step: Step)
    requires OnSlot(step) && Enabled(cfg, b, step)
    ensures Able(b, step)
  {
    hide DoneFor, Leased, LeaseFor, Expired;
  }

  lemma CursorStepIs(cfg: Config, b: State, step: Step)
    requires step.Init? || step.Skip? || step.SendSimple? || step.Send?
    requires Paired(b) && Enabled(cfg, b, step) && Able(b, step)
    ensures MovesOne(b, step, Moved(cfg, b, step), Apply(cfg, b, step))
  {
    hide Enabled, Paired, Pass, Launch, StartCursor, At;
  }

  lemma EntryStepIs(cfg: Config, b: State, step: Step)
    requires step.Ack? || step.Note? || step.Nack? || step.Redeliver? || step.Settle?
    requires Paired(b) && Enabled(cfg, b, step) && Able(b, step)
    ensures MovesOne(b, step, Moved(cfg, b, step), Apply(cfg, b, step))
  {
    hide Enabled, Paired, NackLease, Again, AckSlot, LeaveSlot, NoteSlot, At;
  }

  /** Dead-lettering: the entry leaves its slot, and a message comes to the dead-letter topic. */
  lemma BuryIs(cfg: Config, b: State, step: Step)
    requires step.Bury? && Paired(b) && Enabled(cfg, b, step)
    ensures Flying(b, step.slot, step.offset) && Exhausted(At(b, step.slot).inflight[step.offset])
    ensures var s, b' := step.slot, Apply(cfg, b, step);
            var e := At(b, s).inflight[step.offset];
            var ss' := LeaveSlot(At(b, s), step.offset, DeadLettered(e.attempts));
            && b'.slots == b.slots[s := ss'] && At(b', s) == ss' && b'.consumers == b.consumers && b'.items == b.items
            && if IsDlq(s.topic) then b'.topics == b.topics && b'.wal == b.wal
               else
                 && Exists(b, DlqTopic(s.topic), step.partition)
                 && step.partition < |b.topics[DlqTopic(s.topic)].sums|
                 && var t := b.topics[DlqTopic(s.topic)];
                    var m := Placed(DeadLetter(s.topic, e, step.now), step.partition, |t.logs[step.partition]|);
                    && b'.topics == b.topics[DlqTopic(s.topic) := AppendTo(t, step.partition, m)]
                    && b'.wal == b.wal + [MessageRecord(ToEntry(DlqTopic(s.topic), m))]
  {
    hide DoneFor, LeaseFor, Expired, LeaveSlot, Slowest, Admits, DeadLetter, ToEntry, AppendTo, RetryLimit;
  }
}
