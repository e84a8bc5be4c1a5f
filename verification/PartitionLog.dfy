/** Counting what a partition still buffers (internal/broker/helper.go,
    internal/broker/metrics_snapshot.go and ConsumerLag in internal/broker/broker.go).

    Three pieces of code count the messages after an offset and one counts their bytes with
    running sums.  All are proved equal to plain recursive counts. */
module PartitionLog {
  import opened Common
  import opened Records

  type Log = seq<Message>

  /** In every partition the offset of a message is its index. */
  ghost predicate OffsetsAreIndices(log: Log) {
    forall i :: 0 <= i < |log| ==> log[i].offset == i
  }

  /** How many messages have an offset above `after`. */
  function CountAfter(log: Log, after: int): nat {
    if log == [] then 0
    else CountAfter(log[..|log| - 1], after) + (if log[|log| - 1].offset > after then 1 else 0)
  }

  /** How many bytes the messages with an offset above `after` hold. */
  function BytesAfter(log: Log, after: int): nat {
    if log == [] then 0
    else BytesAfter(log[..|log| - 1], after)
         + (if log[|log| - 1].offset > after then ByteSize(log[|log| - 1]) else 0)
  }

  function TotalBytes(log: Log): nat {
    if log == [] then 0 else TotalBytes(log[..|log| - 1]) + ByteSize(log[|log| - 1])
  }

  /** partitionByteSums: entry i is the size of the messages up to and including i. */
  ghost predicate RunningSums(log: Log, sums: seq<int>) {
    |sums| == |log| && forall i :: 0 <= i < |log| ==> sums[i] == TotalBytes(log[..i + 1])
  }

  /** The append of produceLocked and of replay. */
  function AppendSum(sums: seq<int>, size: nat): seq<int> {
    if |sums| == 0 then sums + [size] else sums + [sums[|sums| - 1] + size]
  }

  lemma AppendKeepsSums(log: Log, sums: seq<int>, m: Message)
    requires RunningSums(log, sums)
    ensures RunningSums(log + [m], AppendSum(sums, ByteSize(m)))
  {
    var log', sums' := log + [m], AppendSum(sums, ByteSize(m));
    forall i | 0 <= i < |log'|
      ensures sums'[i] == TotalBytes(log'[..i + 1])
    {
      if i < |log| {
        assert log'[..i + 1] == log[..i + 1];
      } else {
        assert log'[..i + 1] == log' && log'[..|log'| - 1] == log;
        assert |log| > 0 ==> log[..|log| - 1 + 1] == log;
      }
    }
  }

  lemma {:induction false} CountIsSuffix(log: Log, after: int)
    requires OffsetsAreIndices(log)
    ensures CountAfter(log, after) == Max(0, |log| - Max(0, after + 1))
  {
    if log != [] {
      CountIsSuffix(log[..|log| - 1], after);
    }
  }

  lemma {:induction false} BytesAreDifference(log: Log, after: int)
    requires OffsetsAreIndices(log)
    ensures var start := Max(0, after + 1);
            BytesAfter(log, after) == if start >= |log| then 0 else TotalBytes(log) - TotalBytes(log[..start])
  {
    if log != [] {
      var front := log[..|log| - 1];
      BytesAreDifference(front, after);
      var start := Max(0, after + 1);
      if start < |log| {
        assert front[..start] == log[..start];
      }
      if start == |log| - 1 {
        assert log[..start] == front;
      }
    }
  }

  /** bufferedCount. */
  function BufferedCount(log: Log, slowestAck: int): nat {
    var start := if slowestAck + 1 < 0 then 0 else slowestAck + 1;
    if start >= |log| then 0 else |log| - start
  }

  /** The lag of a ConsumerLag row: head minus the next offset to deliver. */
  function RowLag(log: Log, rawCommitted: int): int {
    var committed := if rawCommitted + 1 < 0 then 0 else rawCommitted + 1;
    var lag := |log| - committed;
    if lag < 0 then 0 else lag
  }

  /** bufferedBytesCount: the difference of two running sums, or a loop when the sums are
      incomplete. */
  method BufferedBytesCount(log: Log, sums: seq<int>, slowestAck: int) returns (bytes: int)
    ensures OffsetsAreIndices(log) && (RunningSums(log, sums) || |sums| != |log|)
            ==> bytes == BytesAfter(log, slowestAck)
  {
    if |log| == 0 {
      return 0;
    }
    ghost var whole := OffsetsAreIndices(log);
    if whole {
      BytesAreDifference(log, slowestAck);
    }
    var start := slowestAck + 1;
    if start < 0 {
      start := 0;
    }
    if |sums| != |log| {
      bytes := 0;
      var i := start;
      while i < |log|
        invariant start <= i
        invariant start <= |log| ==> i <= |log| && bytes == TotalBytes(log[..i]) - TotalBytes(log[..start])
        invariant start > |log| ==> bytes == 0
      {
        assert log[..i + 1][..i] == log[..i];
        bytes := bytes + |log[i].key| + |log[i].value|;
        i := i + 1;
      }
      assert log[..|log|] == log;
      return;
    }
    if start >= |log| {
      return 0;
    }
    var total := sums[|sums| - 1];
    assert log[..|log| - 1 + 1] == log;
    assert log[..0] == [];
    if start == 0 {
      return total;
    }
    var before := sums[start - 1];
    return total - before;
  }

  /** lagForPartition of the metrics snapshot: a binary search for the first offset above the
      committed one. */
  method LagForPartition(log: Log, committed: int) returns (lag: int)
    ensures OffsetsAreIndices(log) ==> lag == CountAfter(log, committed)
  {
    if |log| == 0 {
      return 0;
    }
    var i, j := 0, |log|;
    while i < j
      invariant 0 <= i <= j <= |log|
      invariant i > 0 ==> !(log[i - 1].offset > committed)
      invariant j < |log| ==> log[j].offset > committed
    {
      var h := (i + j) / 2;
      if !(log[h].offset > committed) {
        i := h + 1;
      } else {
        j := h;
      }
    }
    ghost var whole := OffsetsAreIndices(log);
    if whole {
      CountIsSuffix(log, committed);
    }
    return |log| - i;
  }

  /** The three counts agree on every log whose offsets are indices. */
  lemma CountsAgree(log: Log, committed: int)
    requires OffsetsAreIndices(log)
    ensures BufferedCount(log, committed) == RowLag(log, committed) == CountAfter(log, committed)
  {
    CountIsSuffix(log, committed);
  }

  /** One more message at the end. */
  lemma AppendCounts(log: Log, m: Message, after: int)
    requires m.offset > after
    ensures CountAfter(log + [m], after) == CountAfter(log, after) + 1
    ensures BytesAfter(log + [m], after) == BytesAfter(log, after) + ByteSize(m)
  {
    assert (log + [m])[..|log + [m]| - 1] == log;
  }
}
