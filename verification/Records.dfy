/** Messages, envelopes and the records of the write-ahead log (internal/broker/types.go,
    internal/storage/wal.go), with the two conversions between them: the one produceLocked
    makes before it appends and the one replay makes (envelopeFromEntry). */
module Records {
  import opened Common
  import opened Backoff

  newtype byte = x: int | 0 <= x < 256
  type Bytes = seq<byte>

  datatype Routing = Routing(name: string, meta: map<string, string>)

  datatype DlqMetadata = DlqMetadata(
    originalTopic: string, originalPartition: int, originalOffset: int,
    attempts: int, lastError: string, routedAtMs: int)

  datatype Envelope = Envelope(
    runId: string, stepId: string, parentStepId: string, labels: map<string, string>,
    targetTopic: string, partitionOverride: Option<int>,
    idempotencyKey: string, deadline: Option<int>,
    retryPolicy: Option<RetryPolicy>, tenantId: string, dlq: Option<DlqMetadata>)

  const EMPTY_ENVELOPE: Envelope :=
    Envelope("", "", "", map[], "", None, "", None, None, "", None)

  datatype Message = Message(
    offset: int, partition: int, key: Bytes, value: Bytes,
    envelope: Option<Envelope>, routing: Option<Routing>,
    attempts: int, lastError: string)

  /** The message record of the log: the envelope is written field by field. */
  datatype MessageEntry = MessageEntry(
    topic: string, partition: nat, offset: int, key: Bytes, value: Bytes,
    routingLabel: string, routingMeta: map<string, string>,
    runId: string, stepId: string, parentStepId: string, labels: map<string, string>,
    targetTopic: string, partitionOverride: Option<int>,
    idempotencyKey: string, deadline: Option<int>,
    retryMaxAttempts: int, retryBackoffMs: int, retryMaxBackoffMs: int,
    tenantId: string,
    dlqOriginalTopic: string, dlqOriginalPartition: int, dlqOriginalOffset: int,
    dlqAttempts: int, dlqLastError: string, dlqRoutedAtMs: int)

  const NO_RETRY: RetryPolicy := RetryPolicy(0, 0, 0)
  const NO_DLQ: DlqMetadata := DlqMetadata("", 0, 0, 0, "", 0)

  /** The entry produceLocked appends for a message. */
  function ToEntry(topic: string, m: Message): MessageEntry
    requires m.partition >= 0
  {
    var r := if m.routing.Some? then m.routing.value else Routing("", map[]);
    var e := if m.envelope.Some? then m.envelope.value else EMPTY_ENVELOPE;
    var rp := if e.retryPolicy.Some? then e.retryPolicy.value else NO_RETRY;
    var d := if e.dlq.Some? then e.dlq.value else NO_DLQ;
    MessageEntry(topic, m.partition, m.offset, m.key, m.value, r.name, r.meta,
                 e.runId, e.stepId, e.parentStepId, e.labels, e.targetTopic, e.partitionOverride,
                 e.idempotencyKey, e.deadline, rp.maxAttempts, rp.backoffMs, rp.maxBackoffMs, e.tenantId,
                 d.originalTopic, d.originalPartition, d.originalOffset, d.attempts, d.lastError, d.routedAtMs)
  }

  /** envelopeFromEntry. */
  function EnvelopeFromEntry(e: MessageEntry): Option<Envelope> {
    var hasDlq := e.dlqOriginalTopic != "" || e.dlqRoutedAtMs != 0 || e.dlqLastError != "";
    var hasRetry := e.retryMaxAttempts != 0 || e.retryBackoffMs != 0 || e.retryMaxBackoffMs != 0;
    var has := e.runId != "" || e.stepId != "" || e.parentStepId != "" || |e.labels| > 0
               || e.targetTopic != "" || e.partitionOverride.Some? || e.idempotencyKey != ""
               || e.deadline.Some? || hasRetry || e.tenantId != "" || hasDlq;
    if !has then None
    else
      Some(Envelope(e.runId, e.stepId, e.parentStepId, e.labels, e.targetTopic, e.partitionOverride,
                    e.idempotencyKey, e.deadline,
                    if hasRetry then Some(RetryPolicy(e.retryMaxAttempts, e.retryBackoffMs, e.retryMaxBackoffMs))
                    else None,
                    e.tenantId,
                    if hasDlq then
                      Some(DlqMetadata(e.dlqOriginalTopic, e.dlqOriginalPartition, e.dlqOriginalOffset,
                                       e.dlqAttempts, e.dlqLastError, e.dlqRoutedAtMs))
                    else None))
  }

  /** The message replay builds from an entry. */
  function FromEntry(e: MessageEntry): Message {
    Message(e.offset, e.partition, e.key, e.value, EnvelopeFromEntry(e),
            if e.routingLabel != "" || |e.routingMeta| > 0 then Some(Routing(e.routingLabel, e.routingMeta)) else None,
            0, "")
  }

  // What a restart may change in a message.

  /** Dead-letter metadata that replay recognises as present. */
  predicate Marked(d: DlqMetadata) {
    d.originalTopic != "" || d.routedAtMs != 0 || d.lastError != ""
  }

  function CanonicalEnvelope(env: Option<Envelope>): Option<Envelope> {
    if env.None? then None
    else
      var e := env.value.(
      retryPolicy := if env.value.retryPolicy == Some(NO_RETRY) then None else env.value.retryPolicy,
      dlq := if env.value.dlq.Some? && !Marked(env.value.dlq.value) then None else env.value.dlq);
      if e == EMPTY_ENVELOPE then None else Some(e)
  }

  /** A message with absent in place of empty parts and without the transient fields. */
  function Canonical(m: Message): Message {
    m.(envelope := CanonicalEnvelope(m.envelope),
       routing := if m.routing == Some(Routing("", map[])) then None else m.routing,
       attempts := 0, lastError := "")
  }

  /** Field by field: what is the same in a message and in what replay makes of it.  Only empty
      parts may be lost, and the fields of a delivery attempt. */
  ghost predicate SameContents(live: Message, replayed: Message) {
    && replayed.offset == live.offset && replayed.partition == live.partition
    && replayed.key == live.key && replayed.value == live.value
    && (replayed.routing == live.routing || (replayed.routing.None? && live.routing == Some(Routing("", map[]))))
    && (if replayed.envelope.Some?
        then live.envelope.Some? && SameEnvelope(live.envelope.value, replayed.envelope.value)
        else live.envelope.Some? ==> Blank(live.envelope.value))
  }

  ghost predicate SameEnvelope(live: Envelope, replayed: Envelope) {
    && replayed.runId == live.runId && replayed.stepId == live.stepId && replayed.parentStepId == live.parentStepId
    && replayed.labels == live.labels
    && replayed.targetTopic == live.targetTopic && replayed.partitionOverride == live.partitionOverride
    && replayed.idempotencyKey == live.idempotencyKey && replayed.deadline == live.deadline
    && replayed.tenantId == live.tenantId
    && (replayed.retryPolicy == live.retryPolicy
        || (replayed.retryPolicy.None? && live.retryPolicy == Some(RetryPolicy(0, 0, 0))))
    && (replayed.dlq == live.dlq || (replayed.dlq.None? && live.dlq.Some? && !Marked(live.dlq.value)))
  }

  /** The envelope says nothing. */
  ghost predicate Blank(e: Envelope) {
    && e.runId == "" && e.stepId == "" && e.parentStepId == "" && e.labels == map[]
    && e.targetTopic == "" && e.partitionOverride.None? && e.idempotencyKey == "" && e.deadline.None?
    && e.tenantId == ""
    && (e.retryPolicy.Some? ==> e.retryPolicy.value == RetryPolicy(0, 0, 0))
    && (e.dlq.Some? ==> !Marked(e.dlq.value))
  }

  lemma CanonicalIsSame(m: Message)
    ensures SameContents(m, Canonical(m))
  {
  }

  lemma EmptyMap<K, V>(m: map<K, V>)
    ensures |m| == 0 <==> m == map[]
  {
    if |m| == 0 {
      assert m.Keys == {};
    }
  }

  /** Writing a message to the log and replaying it gives its canonical form, which says all the
      message says. */
  lemma MessageRoundTrip(topic: string, m: Message)
    requires m.partition >= 0
    ensures FromEntry(ToEntry(topic, m)) == Canonical(m)
    ensures SameContents(m, FromEntry(ToEntry(topic, m))) && ToEntry(topic, m).topic == topic
  {
    if m.routing.Some? {
      EmptyMap(m.routing.value.meta);
    }
    if m.envelope.Some? {
      EmptyMap(m.envelope.value.labels);
    }
  }

  lemma CanonicalTwice(m: Message)
    ensures Canonical(Canonical(m)) == Canonical(m)
  {
  }

  // What delivery reads from a message.

  function IdempotencyKey(m: Message): string {
    if m.envelope.Some? then m.envelope.value.idempotencyKey else ""
  }

  function TenantId(m: Message): string {
    if m.envelope.Some? then m.envelope.value.tenantId else ""
  }

  function Policy(m: Message): Option<RetryPolicy> {
    if m.envelope.Some? then m.envelope.value.retryPolicy else None
  }

  /** The retry limit; 0 means none. */
  function RetryLimit(m: Message): nat {
    if Policy(m).Some? && Policy(m).value.maxAttempts > 0 then Policy(m).value.maxAttempts else 0
  }

  function ByteSize(m: Message): nat { |m.key| + |m.value| }

  /** A replayed message behaves as the live one did. */
  lemma CanonicalBehaves(m: Message, retryNumber: int)
    ensures IdempotencyKey(Canonical(m)) == IdempotencyKey(m)
    ensures TenantId(Canonical(m)) == TenantId(m)
    ensures RetryLimit(Canonical(m)) == RetryLimit(m)
    ensures Delay(Policy(Canonical(m)), retryNumber) == Delay(Policy(m), retryNumber)
    ensures ByteSize(Canonical(m)) == ByteSize(m)
  {
  }
}
