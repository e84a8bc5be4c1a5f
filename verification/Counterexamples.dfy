/** Runs that show what the broker does not promise: a single acknowledgement can skip a message
    at a restart, and an unused dead-letter topic does not survive one. */
module Counterexamples {
  import opened Common
  import opened Records
  import opened BrokerState
  import opened PartitionLog
  import opened Delivery
  import opened WalReplay
  import opened Calls
  import opened CallFacts
  import opened BrokerRuns
  import FileStore
  import History

  /** No limits at all. */
  const CFG: Config := Config(0, 0, 0, 0, 0)
  const SLOT: Slot := Slot("orders", "g", 0)
  const GROUP: GroupId := GroupId("orders", "g")
  const WORKER: Consumer := Consumer("w", 1)
  const MESSAGE: Message := Message(0, 0, [], [], None, None, 0, "")

  /** The slot after its first two messages were produced and a leasing consumer came. */
  ghost predicate Stocked(b: State) {
    && Paired(b) && Known(b, SLOT) && Streams(b, SLOT) == [WORKER] && LogOf(b, SLOT) == [MESSAGE, Placed(MESSAGE, 0, 1)]
  }

  function Row(n: nat): Topic {
    if n == 0 then Topic([[]], [[]])
    else if n == 1 then Topic([[MESSAGE]], [[0]])
    else Topic([[MESSAGE, Placed(MESSAGE, 0, 1)]], [[0, 0]])
  }

  lemma NextRow(n: nat)
    requires n < 2
    ensures AppendTo(Row(n), 0, Placed(MESSAGE, 0, n)) == Row(n + 1)
  {
    var m := Placed(MESSAGE, 0, n);
    assert ByteSize(m) == 0;
    if n == 0 {
      assert [] + [m] == [MESSAGE];
      assert AppendSum([], 0) == [0];
    } else {
      assert [MESSAGE] + [m] == [MESSAGE, m];
      assert AppendSum([0], 0) == [0, 0];
    }
  }

  lemma ProduceOne(b: State, n: nat) returns (b': State)
    requires n < 2 && Paired(b) && SLOT.topic in b.topics && b.topics[SLOT.topic] == Row(n)
    ensures Takes(CFG, b, [Produce(SLOT.topic, 0, MESSAGE, -1, true)], b') && Paired(b')
    ensures b'.topics == b.topics[SLOT.topic := Row(n + 1)] && b'.slots == b.slots && b'.consumers == b.consumers
  {
    ProduceFacts(CFG, b, SLOT.topic, 0, MESSAGE, -1);
    TakesOne(CFG, b, Produce(SLOT.topic, 0, MESSAGE, -1, true));
    b' := Append(b, SLOT.topic, 0, MESSAGE);
    assert ByteSize(MESSAGE) == 0;
    assert Placed(MESSAGE, 0, 0) == MESSAGE;
    NextRow(n);
  }

  lemma Stock() returns (steps: seq<Step>, b: State)
    ensures Takes(CFG, INITIAL, steps, b) && Stocked(b) && b.slots == map[]
  {
    hide Takes;
    var create := CreateTopic(SLOT.topic, 1, true);
    CreateFacts(CFG, INITIAL, SLOT.topic, 1);
    TakesOne(CFG, INITIAL, create);
    var b1 := Apply(CFG, INITIAL, create);
    hide Apply, Enabled;
    assert NewTopic(1) == Row(0);
    var b2 := ProduceOne(b1, 0);
    var b3 := ProduceOne(b2, 1);
    RegisterFacts(CFG, b3, GROUP, WORKER);
    TakesOne(CFG, b3, Register(GROUP, WORKER));
    b := Apply(CFG, b3, Register(GROUP, WORKER));
    var produce := Produce(SLOT.topic, 0, MESSAGE, -1, true);
    TakesMore(CFG, INITIAL, [create], b1, [produce], b2);
    TakesMore(CFG, INITIAL, [create] + [produce], b2, [produce], b3);
    TakesMore(CFG, INITIAL, [create] + [produce] + [produce], b3, [Register(GROUP, WORKER)], b);
    steps := [create] + [produce] + [produce] + [Register(GROUP, WORKER)];
    assert b.topics[SLOT.topic] == Row(2);
    assert Known(b, SLOT);
    assert LogOf(b, SLOT) == [MESSAGE, Placed(MESSAGE, 0, 1)];
    assert Streams(b, SLOT) == [WORKER];
  }

  /** The slot with the first n messages in flight. */
  function Flight(n: nat): SlotState {
    var e0 := Entry(MESSAGE, 0, 1, None, "", "w");
    var e1 := Entry(Placed(MESSAGE, 0, 1), 0, 1, None, "", "w");
    if n == 0 then StartCursor(FRESH, 2)
    else if n == 1 then FRESH.(next := Some(1), inflight := map[0 := e0], sent := [0])
    else FRESH.(next := Some(2), inflight := map[0 := e0, 1 := e1], sent := [0, 1])
  }

  lemma SendOne(b: State, n: nat) returns (b': State)
    requires n < 2 && Stocked(b) && b.slots == map[SLOT := Flight(n)]
    ensures Takes(CFG, b, [Send(SLOT, "w", 0)], b') && Stocked(b') && b'.slots == map[SLOT := Flight(n + 1)]
  {
    PlainFacts(b, SLOT, Head(b, SLOT));
    SendFacts(CFG, b, SLOT, 0, 0);
    TakesOne(CFG, b, Send(SLOT, "w", 0));
    b' := Put(b, SLOT, Launch(At(b, SLOT), Head(b, SLOT), "w", 0));
    assert Launch(Flight(n), Head(b, SLOT), "w", 0) == Flight(n + 1);
  }

  /** Both messages go out and the second is acknowledged. */
  lemma AckSecond(b: State) returns (steps: seq<Step>, b': State)
    requires Stocked(b) && b.slots == map[]
    ensures Takes(CFG, b, steps, b') && Stocked(b') && b'.slots == map[SLOT := AckSlot(Flight(2), 1)]
  {
    hide Takes;
    InitFacts(CFG, b, SLOT, 0);
    TakesOne(CFG, b, Init(SLOT));
    var b1 := Apply(CFG, b, Init(SLOT));
    hide Apply, Enabled;
    var b2 := SendOne(b1, 0);
    var b3 := SendOne(b2, 1);
    AckFacts(CFG, b3, SLOT, 1);
    TakesOne(CFG, b3, Ack(SLOT, 1));
    b' := Apply(CFG, b3, Ack(SLOT, 1));
    var send := Send(SLOT, "w", 0);
    TakesMore(CFG, b, [Init(SLOT)], b1, [send], b2);
    TakesMore(CFG, b, [Init(SLOT)] + [send], b2, [send], b3);
    TakesMore(CFG, b, [Init(SLOT)] + [send] + [send], b3, [Ack(SLOT, 1)], b');
    steps := [Init(SLOT)] + [send] + [send] + [Ack(SLOT, 1)];
  }

  /** The flush writes the offset. */
  lemma Flush(b: State) returns (steps: seq<Step>, b': State)
    requires Stocked(b) && b.slots == map[SLOT := AckSlot(Flight(2), 1)]
    ensures Takes(CFG, b, steps, b') && Stocked(b')
    ensures var ss := At(b', SLOT); ss.committed == 1 && ss.pending == -1 && ss.taken == -1 && 0 in ss.inflight
  {
    hide Takes;
    TakeFacts(CFG, b);
    TakesOne(CFG, b, FlushTake);
    var b1 := Apply(CFG, b, FlushTake);
    WriteFacts(CFG, b1, SLOT);
    TakesOne(CFG, b1, FlushWrite(SLOT));
    b' := Apply(CFG, b1, FlushWrite(SLOT));
    hide Apply, Enabled;
    TakesMore(CFG, b, [FlushTake], b1, [FlushWrite(SLOT)], b');
    steps := [FlushTake] + [FlushWrite(SLOT)];
  }

  /** Two messages are delivered, the second is acknowledged, its offset is flushed, the process
      crashes: the new cursor starts above the first message, which nobody acknowledged. */
  lemma SingleAckSkips() returns (states: seq<State>, moves: seq<Move>)
    ensures IsRun(CFG, states, moves) && |moves| > 0 && moves[|moves| - 1] == Crash(0)
    ensures var before, after := states[|moves| - 1], states[|moves|];
            && 0 in At(before, SLOT).inflight && |LogOf(after, SLOT)| == 2
            && StartCursor(At(after, SLOT), |LogOf(after, SLOT)|).next == Some(2)
  {
    hide Takes, Inv, RowsRestored, ItemsAgree, RetryOffsets, Recovered, RecoveredItems;
    var first, b1 := Stock();
    var second, b2 := AckSecond(b1);
    var third, b3 := Flush(b2);
    TakesMore(CFG, INITIAL, first, b1, second, b2);
    TakesMore(CFG, INITIAL, first + second, b2, third, b3);
    states, moves := CallsExtendRuns(CFG, [INITIAL], [], first + second + third, b3);
    states, moves := CrashNow(states, moves);
  }

  /** A run that ends in such a state, and its crash. */
  lemma CrashNow(states: seq<State>, moves: seq<Move>) returns (states': seq<State>, moves': seq<Move>)
    requires IsRun(CFG, states, moves) && Stocked(states[|moves|])
    requires var ss := At(states[|moves|], SLOT); ss.committed == 1 && ss.pending == -1 && ss.taken == -1
    ensures IsRun(CFG, states', moves') && moves' == moves + [Crash(0)] && |states'| == |states| + 1
            && states <= states'
    ensures var after := states'[|moves'|];
            |LogOf(after, SLOT)| == 2 && StartCursor(At(after, SLOT), |LogOf(after, SLOT)|).next == Some(2)
  {
    hide Inv, RowsRestored, ItemsAgree, RetryOffsets, Recovered, RecoveredItems, Canonical, OffsetsAgree, RowsAgree;
    var b := states[|moves|];
    OffsetTheorem(CFG, states, moves, |moves|, SLOT, 0);
    CrashPointTheorem(CFG, states, moves, |moves|, 0);
    var after := Rebuilt(Recovered(b.wal).value, b.wal, 0);
    states', moves' := states + [after], moves + [Crash(0)];
    assert LogIn(after.topics, SLOT.topic, 0) == CanonicalLog(LogIn(b.topics, SLOT.topic, 0));
    hide Moves, Rebuilt, TopicsAgree;
  }

  /** A dead-letter topic is made in memory, without a record.  As long as it is empty, a restart
      loses it: three partitions before, none after. */
  lemma EmptyDlqVanishes() returns (states: seq<State>, moves: seq<Move>)
    ensures IsRun(CFG, states, moves) && |moves| == 3 && moves[2] == Crash(0)
    ensures RowsOf(states[2].topics, DlqTopic(SLOT.topic)) == 3 && DlqTopic(SLOT.topic) !in states[3].topics
    ensures RowsOf(states[2].topics, SLOT.topic) == RowsOf(states[3].topics, SLOT.topic) == 3
  {
    hide Moves, Takes, RestartFaithful, Rebuilt, Recovered, IsRun;
    var steps, b := EmptyDlq();
    FirstRun();
    states, moves := CallsExtendRuns(CFG, [INITIAL], [], steps, b);
    states, moves := ThenCrash(states, moves);
    EmptyGone(b, states[3]);
  }

  lemma FirstRun()
    ensures IsRun(CFG, [INITIAL], [])
  {
  }

  /** Any run, and a crash. */
  lemma ThenCrash(states: seq<State>, moves: seq<Move>) returns (states': seq<State>, moves': seq<Move>)
    requires IsRun(CFG, states, moves)
    ensures IsRun(CFG, states', moves') && moves' == moves + [Crash(0)] && states <= states' && |states| == |moves| + 1
    ensures |states'| == |states| + 1 && RestartFaithful(states[|moves|], states'[|moves'|])
  {
    hide RestartFaithful, Rebuilt, Recovered;
    CrashPointTheorem(CFG, states, moves, |moves|, 0);
    var b := states[|moves|];
    states', moves' := states + [Rebuilt(Recovered(b.wal).value, b.wal, 0)], moves + [Crash(0)];
  }

  lemma EmptyGone(b: State, after: State)
    requires RestartFaithful(b, after) && TopicRecord(SLOT.topic, 3) in b.wal && !Declared(b.wal, DlqTopic(SLOT.topic))
    requires DlqTopic(SLOT.topic) in b.topics
    requires forall p: nat :: p < |b.topics[DlqTopic(SLOT.topic)].logs| ==> b.topics[DlqTopic(SLOT.topic)].logs[p] == []
    ensures DlqTopic(SLOT.topic) !in after.topics && RowsOf(after.topics, SLOT.topic) == 3
  {
    hide TopicsAgree, At;
    UsedRowsAre(RowsIn(b.topics, DlqTopic(SLOT.topic)), 0);
  }

  /** A topic with three partitions, and its empty dead-letter topic. */
  lemma EmptyDlq() returns (steps: seq<Step>, b: State)
    ensures Takes(CFG, INITIAL, steps, b) && |steps| == 2
    ensures TopicRecord(SLOT.topic, 3) in b.wal && !Declared(b.wal, DlqTopic(SLOT.topic))
    ensures RowsOf(b.topics, DlqTopic(SLOT.topic)) == RowsOf(b.topics, SLOT.topic) == 3
    ensures forall p: nat :: p < 3 ==> b.topics[DlqTopic(SLOT.topic)].logs[p] == []
  {
    hide Takes;
    var create, ensureDlq := CreateTopic(SLOT.topic, 3, true), EnsureDlq(SLOT.topic);
    CreateFacts(CFG, INITIAL, SLOT.topic, 3);
    TakesOne(CFG, INITIAL, create);
    var b1 := Apply(CFG, INITIAL, create);
    assert SLOT.topic[0] != DlqTopic("")[0];
    assert !IsDlq(SLOT.topic);
    EnsureFacts(CFG, b1, SLOT);
    TakesOne(CFG, b1, ensureDlq);
    b := Apply(CFG, b1, ensureDlq);
    hide Apply, Enabled;
    assert DlqTopic(SLOT.topic)[0] != SLOT.topic[0];
    TakesMore(CFG, INITIAL, [create], b1, [ensureDlq], b);
    steps := [create] + [ensureDlq];
    assert b.wal == [TopicRecord(SLOT.topic, 3)];
  }

  /** A new store, a PutKV whose append fails, and a restart: the pair that the store held is gone. */
  method FailedPutIsLost() returns (store: FileStore.Store, err: Option<FileStore.StoreError>)
    ensures fresh(store) && store.Valid()
    ensures err == Some(FileStore.AppendFailed) && "a" !in store.kv
  {
    store := new FileStore.Store(moment => true);
    OneLetter();
    NothingSaved();
    hide FileStore.Agrees, FileStore.Saved, FileStore.Replayed, FileStore.Apply;
    err := store.PutKV("a", "1");
    assert err == Some(FileStore.AppendFailed) && store.kv["a"] == "1";
    var _ := store.Reopen();
  }

  lemma OneLetter()
    ensures FileStore.Glob.TrimSpace("a") == "a"
  {
  }

  lemma NothingSaved()
    ensures FileStore.Replayed([]) == Some(FileStore.EMPTY) && !FileStore.Saved([], "a", "1")
    ensures FileStore.Agrees([], FileStore.EMPTY, {})
  {
  }

  /** The losing state on values: all that a valid store satisfies holds of it. */
  lemma FailedPutState()
    ensures FileStore.Agrees([], FileStore.EMPTY.(kv := map["a" := "1"]), {"a"})
    ensures !FileStore.Saved([], "a", "1")
  {
    OneLetter();
    NothingSaved();
    hide FileStore.Agrees, FileStore.Saved, FileStore.Replayed, FileStore.Apply, FileStore.Glob.TrimSpace;
    FileStore.PairLogged([], FileStore.EMPTY, {}, "a", "1");
    assert map[]["a" := "1"] == map["a" := "1"] && {} + {"a"} == {"a"};
  }

  /** An owner with two streams, the first with a lease of one second and the latest with one of 30:
      after a negative acknowledgement its entry is not due at once. */
  lemma NackMayWait(cfg: Config, b: State, s: Slot, offset: int, now: int)
    requires Paired(b) && Flying(b, s, offset) && At(b, s).inflight[offset].owner == "w"
    requires Streams(b, s) == [Consumer("w", 1_000_000_000), Consumer("w", 30_000_000_000)]
    ensures var e' := At(Apply(cfg, b, Nack(s, offset, now)), s).inflight[offset];
            LatestLease(Streams(b, s), "w", cfg.ackTimeout, 30_000_000_000) && now - e'.sentAt < 30_000_000_000
  {
    var streams := Streams(b, s);
    assert streams[..1] == [Consumer("w", 1_000_000_000)];
    assert Latest(streams, "w", 1) && First(streams, "w", 0);
    History.NackExpires(cfg, b, s, offset, now, 30_000_000_000, 1_000_000_000);
  }

  /** Two attempts of different runs and nodes with one timer key. */
  lemma TimerKeysClash()
    ensures FileStore.TimerKey(FileStore.Timer("a|b", "c", 1, ""))
            == FileStore.TimerKey(FileStore.Timer("a", "b|c", 1, ""))
  {
    FileStore.TimerKeysAgree(FileStore.Timer("a|b", "c", 1, ""), FileStore.Timer("a", "b|c", 1, ""));
    assert "a|b" + "|" + "c" == "a" + "|" + "b|c";
  }
}
