/** What the calls of the broker need to know about single steps and about stretches of them:
    when each step is possible, what it makes of the state, and what it leaves alone. */
module CallFacts {
  import opened Common
  import opened Backoff
  import opened Records
  import opened PartitionLog
  import opened BrokerState
  import opened Delivery
  import opened WalReplay
  import opened Calls
  import I = Idempotency
  import BrokerRuns
  import Glob

  /** What became of the message at the cursor. */
  datatype Turn = Skipped | Sent | QueueFull | FlightFull | NotLeased

  datatype Error =
    | EmptyName | Negative | TopicExists | NoTopic | NoPartition | BadOverride | BufferFull | BytesFull | LogFailed
    | NotInFlight | NotOwner | Store(reply: I.Reply)

  /** What the environment decides at each moment: whether a consumer's queue is full, and whether
      the log refuses an append. */
  datatype Env = Env(full: int -> bool, refuses: int -> bool)

  ghost predicate QueuesFill(env: Env) {
    exists t :: env.full(t)
  }

  ghost predicate LogRefuses(env: Env) {
    exists t :: env.refuses(t)
  }

  /** The consumer cannot have the message: its work is leased to somebody else. */
  ghost predicate HeldFrom(b: State, s: Slot, m: Message, owner: string) {
    && ConsumeKey(s, m) in b.items && b.items[ConsumeKey(s, m)].status == I.Pending
    && b.items[ConsumeKey(s, m)].owner != I.Named(owner)
  }

  /** None of the group's leasing consumers, or none of its consumers, can have it. */
  ghost predicate NoneHolds(b: State, s: Slot, m: Message, all: bool) {
    forall i :: 0 <= i < |Streams(b, s)| && (all || Streams(b, s)[i].lease != 0) ==>
                  HeldFrom(b, s, m, Streams(b, s)[i].owner)
  }

  /** Some stream asks for a lease the store does not give. */
  ghost predicate OddLeases(streams: seq<Consumer>) {
    exists i :: 0 <= i < |streams| && streams[i].lease != 0 && !I.ValidLease(streams[i].lease)
  }

  ghost predicate OddTable(streams: seq<Consumer>, leases: map<string, int>, ackTimeout: int) {
    exists i :: 0 <= i < |streams| && !I.ValidLease(LeaseOf(leases, streams[i].owner, ackTimeout))
  }

  /** What redelivery did with an entry in flight. */
  datatype Fate = NotDue | Waiting | Settled | Buried | Unburied | Unleased | Resent(owner: string)

  /** What a search for a consumer to lease a keyed message came to. */
  datatype Pick = Chosen(index: nat) | Already | Refused(reply: I.Reply) | Nobody(fallback: Option<nat>)

  /** The steps dispatch may take for a slot. */
  ghost predicate DispatchStep(s: Slot, step: Step) {
    match step
    case Idem(op) => op.OpCheck? || op.OpBeginLease?
    case Init(u) => u == s
    case Skip(u) => u == s
    case SendSimple(u) => u == s
    case Send(u, _, _) => u == s
    case Note(u, _, _, _, _) => u == s
    case _ => false
  }

  ghost predicate DispatchSteps(s: Slot, steps: seq<Step>) {
    forall i :: 0 <= i < |steps| ==> DispatchStep(s, steps[i])
  }

  /** Dispatch, having taken these steps, has nothing more to do for the slot now: the cursor is at
      the end of the log, or the in-flight limit is reached, or the keyed message at the cursor was
      offered to every consumer in vain. */
  ghost predicate Quiet(cfg: Config, b: State, s: Slot, steps: seq<Step>) {
    && At(b, s).next.Some?
    && (At(b, s).next.value < |LogOf(b, s)| ==>
          var m := LogOf(b, s)[At(b, s).next.value];
          || (cfg.maxInFlight > 0 && |At(b, s).inflight| >= cfg.maxInFlight)
          || (Keyed(m) && SoughtInVain(Streams(b, s), s, m, steps)))
  }

  /** Streams are simple (lease 0) or leasing, and belong to a named topic and group. */
  ghost predicate LeasesSet(consumers: map<GroupId, seq<Consumer>>) {
    && (forall g, i :: g in consumers && 0 <= i < |consumers[g]| ==> consumers[g][i].lease >= 0)
    && (forall g :: g in consumers ==> g.topic != "" && g.group != "")
  }

  /** The steps dispatch may take for a topic, or for one of its partitions. */
  ghost predicate TopicStep(topic: string, only: Option<nat>, step: Step) {
    if step.Idem? then step.op.OpCheck? || step.op.OpBeginLease?
    else
      && (step.Init? || step.Skip? || step.SendSimple? || step.Send? || step.Note?)
      && step.slot.topic == topic && (only.Some? ==> step.slot.partition == only.value)
  }

  ghost predicate TopicSteps(topic: string, only: Option<nat>, steps: seq<Step>) {
    forall i :: 0 <= i < |steps| ==> TopicStep(topic, only, steps[i])
  }

  lemma SlotStepsAreTopicSteps(s: Slot, only: Option<nat>, steps: seq<Step>, more: seq<Step>)
    requires TopicSteps(s.topic, only, steps) && DispatchSteps(s, more) && (only.Some? ==> s.partition == only.value)
    ensures TopicSteps(s.topic, only, steps + more)
  {
    forall i | 0 <= i < |more|
      ensures TopicStep(s.topic, only, more[i])
    {
      assert DispatchStep(s, more[i]);
    }
  }

  /** Dispatching one slot leaves the others alone. */
  lemma {:induction false} OthersKept(cfg: Config, b: State, u: Slot, steps: seq<Step>, b': State, s: Slot)
    requires Takes(cfg, b, steps, b') && DispatchSteps(u, steps) && s != u
    ensures At(b', s) == At(b, s) && b'.topics == b.topics && b'.consumers == b.consumers
    decreases |steps|
  {
    hide Apply, Enabled, Paired, At;
    if steps != [] {
      var front, last := steps[..|steps| - 1], steps[|steps| - 1];
      var mid := After(cfg, b, front).value;
      OthersKept(cfg, b, u, front, mid, s);
      assert DispatchStep(u, last);
      OtherKept(cfg, mid, u, last, s);
    }
  }

  lemma OtherKept(cfg: Config, b: State, u: Slot, step: Step, s: Slot)
    requires Paired(b) && Enabled(cfg, b, step) && DispatchStep(u, step) && s != u
    ensures At(Apply(cfg, b, step), s) == At(b, s)
    ensures Apply(cfg, b, step).topics == b.topics && Apply(cfg, b, step).consumers == b.consumers
  {
    if step.Idem? {
      hide I.Do;
    } else {
      hide Enabled, Apply, Moved;
      SlotStepIs(cfg, b, step);
    }
  }

  /** All slots of a group that dispatch was asked for are quiet up to a partition. */
  ghost predicate QuietUpTo(cfg: Config, b: State, gid: GroupId, only: Option<nat>, n: nat, steps: seq<Step>) {
    forall p: nat :: p < n && (only.Some? ==> p == only.value) ==> Quiet(cfg, b, Slot(gid.topic, gid.group, p), steps)
  }

  lemma QuietStays(cfg: Config, b: State, u: Slot, steps: seq<Step>, b': State, gid: GroupId, only: Option<nat>,
                   n: nat, before: seq<Step>)
    requires QuietUpTo(cfg, b, gid, only, n, before) && Takes(cfg, b, steps, b') && DispatchSteps(u, steps)
    requires GroupId(u.topic, u.group) != gid || u.partition >= n
    ensures QuietUpTo(cfg, b', gid, only, n, before + steps)
  {
    hide Takes, DispatchSteps, SoughtInVain;
    forall p: nat | p < n && (only.Some? ==> p == only.value)
      ensures Quiet(cfg, b', Slot(gid.topic, gid.group, p), before + steps)
    {
      var s := Slot(gid.topic, gid.group, p);
      OthersKept(cfg, b, u, steps, b', s);
      QuietLonger(cfg, b, s, [], before, steps);
    }
  }

  /** More steps around these change nothing about that. */
  lemma QuietLonger(cfg: Config, b: State, s: Slot, before: seq<Step>, steps: seq<Step>, after: seq<Step>)
    requires Quiet(cfg, b, s, steps)
    ensures Quiet(cfg, b, s, before + steps + after) && [] + steps == steps
  {
    hide SoughtInVain;
    if At(b, s).next.value < |LogOf(b, s)| {
      var m := LogOf(b, s)[At(b, s).next.value];
      if SoughtInVain(Streams(b, s), s, m, steps) {
        InVainStill(Streams(b, s), s, m, before, steps, after);
      }
    }
  }

  lemma QuietUpToLonger(cfg: Config, b: State, gid: GroupId, only: Option<nat>, n: nat, before: seq<Step>,
                        steps: seq<Step>)
    requires QuietUpTo(cfg, b, gid, only, n, steps)
    ensures QuietUpTo(cfg, b, gid, only, n, before + steps)
  {
    hide Quiet;
    forall p: nat | p < n && (only.Some? ==> p == only.value)
      ensures Quiet(cfg, b, Slot(gid.topic, gid.group, p), before + steps)
    {
      QuietLonger(cfg, b, Slot(gid.topic, gid.group, p), before, steps, []);
      assert before + steps + [] == before + steps;
    }
  }

  function ReplyText(reply: I.Reply): string {
    match reply
    case BadLease => "invalid lease"
    case LogError => "append failed"
    case LeaseHeld => "lease held"
    case LeaseLost => "lease lost"
    case _ => ""
  }

  // Facts about values

  lemma InvPaired(cfg: Config, b: State)
    requires WalInv(cfg, b)
    ensures Paired(b)
  {
  }

  lemma HeadFacts(cfg: Config, b: State, s: Slot)
    requires WalInv(cfg, b) && HasHead(b, s)
    ensures Head(b, s).offset == At(b, s).next.value && Head(b, s).offset !in At(b, s).inflight
    ensures 0 <= Head(b, s).offset < |LogOf(b, s)| && s in b.slots
  {
    hide Agrees;
    AtKeepsInv(cfg, b, s);
  }

  /** The cursor's loop stops where StartCursor says. */
  lemma LogFacts(cfg: Config, b: State, s: Slot)
    requires WalInv(cfg, b)
    ensures OffsetsAreIndices(LogOf(b, s))
  {
    hide Agrees, SlotInv;
    AtKeepsInv(cfg, b, s);
  }

  /** A lookup evicts nothing that is committed. */
  lemma CheckFacts(cfg: Config, b: State, s: Slot, m: Message, now: int)
    requires Known(b, s) && Paired(b)
    ensures var op := I.OpCheck(ConsumeKey(s, m), now);
            Enabled(cfg, b, Idem(op)) && (DoneFor(Apply(cfg, b, Idem(op)), s, m) <==> DoneFor(b, s, m))
  {
  }

  lemma BeginFacts(cfg: Config, b: State, s: Slot, m: Message, worker: string, lease: int, now: int, logOk: bool)
    requires Known(b, s) && Keyed(m) && Paired(b)
    ensures var op := I.OpBeginLease(ConsumeKey(s, m), worker, lease, now, logOk);
            var reply := I.Do(b.items, cfg.ttl, op).reply;
            && Enabled(cfg, b, Idem(op))
            && var b' := Apply(cfg, b, Idem(op));
            && (DoneFor(b', s, m) <==> DoneFor(b, s, m))
            && (reply.AlreadyDone? ==> DoneFor(b', s, m))
            && (reply.Granted? ==> Leased(b', s, m, worker) && !DoneFor(b', s, m))
            && (reply.LeaseHeld? ==> HeldFrom(b', s, m, worker) && ConsumeKey(s, m) in b.items
                                     && b'.items[ConsumeKey(s, m)] == b.items[ConsumeKey(s, m)])
            && (reply.Granted? || reply.AlreadyDone? || reply.LeaseHeld?
                || (reply.BadLease? && !I.ValidLease(lease)) || (reply.LogError? && !logOk))
  {
  }

  /** Putting an entry in flight and taking it out again changes nothing. */
  function Undo(ss: SlotState, offset: int): SlotState
    requires ss.next.Some? && ss.next.value > 0 && ss.sent != []
  {
    ss.(inflight := ss.inflight - {offset}, next := Some(ss.next.value - 1), sent := ss.sent[..|ss.sent| - 1])
  }

  lemma UndoRestores(ss: SlotState, m: Message, owner: string, now: int)
    requires ss.next.Some? && m.offset !in ss.inflight
    ensures Undo(Launch(ss, m, owner, now), m.offset) == ss
  {
    assert ss.inflight[m.offset := Entry(m, now, 1, None, SeedError(ss, m.offset), owner)] - {m.offset} == ss.inflight;
    assert (ss.sent + [m.offset])[..|ss.sent|] == ss.sent;
  }

  lemma InitFacts(cfg: Config, b: State, s: Slot, idx: nat)
    requires Paired(b) && Known(b, s) && At(b, s).next.None?
    requires StartCursor(At(b, s), |LogOf(b, s)|).next == Some(idx)
    ensures Enabled(cfg, b, Init(s)) && Apply(cfg, b, Init(s)) == Put(b, s, At(b, s).(next := Some(idx), start := idx))
  {
  }

  lemma SkipFacts(cfg: Config, b: State, s: Slot)
    requires Paired(b) && HasHead(b, s) && DoneFor(b, s, Head(b, s))
    ensures Enabled(cfg, b, Skip(s))
    ensures Apply(cfg, b, Skip(s)) == PutOffset(b, s, Pass(At(b, s), Head(b, s).offset, SkippedDone))
  {
  }

  lemma SimpleFacts(cfg: Config, b: State, s: Slot, i: nat)
    requires Paired(b) && HasHead(b, s) && !DoneFor(b, s, Head(b, s)) && i < |Streams(b, s)|
             && Streams(b, s)[i].lease == 0
    ensures Enabled(cfg, b, SendSimple(s))
    ensures Apply(cfg, b, SendSimple(s)) == PutOffset(b, s, Pass(At(b, s), Head(b, s).offset, AutoCommitted))
  {
    assert Streams(b, s)[i] in Streams(b, s);
  }

  lemma SendFacts(cfg: Config, b: State, s: Slot, i: nat, now: int)
    requires Paired(b) && HasHead(b, s) && !DoneFor(b, s, Head(b, s)) && i < |Streams(b, s)|
             && Streams(b, s)[i].lease > 0
    requires Leased(b, s, Head(b, s), Streams(b, s)[i].owner)
             && (cfg.maxInFlight > 0 ==> |At(b, s).inflight| < cfg.maxInFlight)
    ensures Enabled(cfg, b, Send(s, Streams(b, s)[i].owner, now))
    ensures var owner := Streams(b, s)[i].owner;
            Apply(cfg, b, Send(s, owner, now)) == Put(b, s, Launch(At(b, s), Head(b, s), owner, now))
  {
    assert Streams(b, s)[i] in Streams(b, s);
  }

  lemma NoteFacts(cfg: Config, b: State, s: Slot, offset: int, text: string, inEntry: bool, logged: bool)
    requires Paired(b) && Known(b, s) && 0 <= offset < |LogOf(b, s)|
    ensures Enabled(cfg, b, Note(s, offset, text, inEntry, logged))
    ensures var b' := Put(b, s, NoteSlot(At(b, s), offset, text, inEntry));
            Apply(cfg, b, Note(s, offset, text, inEntry, logged))
            == b'.(wal := if logged then b.wal + [RetryRecord(s, offset, text)] else b.wal)
  {
  }

  lemma AckFacts(cfg: Config, b: State, s: Slot, offset: nat)
    requires Paired(b) && Known(b, s)
    ensures Enabled(cfg, b, Ack(s, offset))
            && Apply(cfg, b, Ack(s, offset)) == PutOffset(b, s, AckSlot(At(b, s), offset))
    ensures At(Apply(cfg, b, Ack(s, offset)), s).committed >= offset
  {
  }

  lemma ProduceFacts(cfg: Config, b: State, topic: string, p: nat, m: Message, slowest: int)
    requires Paired(b) && topic != "" && Exists(b, topic, p) && Slowest(cfg, b, topic, p, slowest)
    requires Admits(cfg, b.topics[topic].logs[p], m, slowest)
    ensures Enabled(cfg, b, Produce(topic, p, m, slowest, true))
    ensures Apply(cfg, b, Produce(topic, p, m, slowest, true)) == Append(b, topic, p, m)
  {
  }

  lemma SumFacts(cfg: Config, b: State, topic: string, p: nat)
    requires WalInv(cfg, b) && Exists(b, topic, p)
    ensures p < |b.topics[topic].sums|
    ensures OffsetsAreIndices(b.topics[topic].logs[p]) && RunningSums(b.topics[topic].logs[p], b.topics[topic].sums[p])
  {
    hide Agrees, SlotsInv;
    assert TopicInv(b.topics[topic]);
    assert LogInv(b.topics[topic].logs[p], b.topics[topic].sums[p], p);
  }

  lemma CommitFacts(cfg: Config, b: State, s: Slot, m: Message, worker: string, now: int, logOk: bool)
    requires Known(b, s) && Keyed(m) && Paired(b)
    ensures var op := I.OpCommitIfOwner(ConsumeKey(s, m), worker, "", now, logOk);
            && Enabled(cfg, b, Idem(op))
            && var reply := I.Do(b.items, cfg.ttl, op).reply;
            (reply.Done? <==> DoneFor(Apply(cfg, b, Idem(op)), s, m))
  {
  }

  /** The message is in flight for the slot and belongs to the owner. */
  predicate Owns(b: State, s: Slot, offset: int, owner: string) {
    Flying(b, s, offset) && At(b, s).inflight[offset].owner == owner
  }

  /** The owner and the message of every entry in flight stay. */
  ghost predicate StillOwned(ss: SlotState, ss': SlotState, but: int) {
    forall o :: o in ss.inflight && o != but ==>
      o in ss'.inflight && ss'.inflight[o].owner == ss.inflight[o].owner && ss'.inflight[o].msg == ss.inflight[o].msg
  }

  lemma StepOwned(cfg: Config, b: State, topic: string, only: Option<nat>, step: Step, s: Slot, offset: int)
    requires WalInv(cfg, b) && Paired(b) && Enabled(cfg, b, step)
             && (TopicStep(topic, only, step) || step == Ack(s, offset))
    ensures StillOwned(At(b, s), At(Apply(cfg, b, step), s), offset)
  {
    hide WalInv, Apply, Enabled, Paired, At;
    if step.Idem? {
      IdemKeepsSlots(cfg, b, step.op);
      SameOwned(At(b, s), At(Apply(cfg, b, step), s), offset);
    } else if step.slot != s {
      OtherSlotsSame(cfg, b, step);
      SameOwned(At(b, s), At(Apply(cfg, b, step), s), offset);
    } else {
      OwnStepOwned(cfg, b, step, offset);
    }
  }

  lemma SameOwned(ss: SlotState, ss': SlotState, but: int)
    ensures ss' == ss ==> StillOwned(ss, ss', but)
  {
  }

  lemma IdemKeepsSlots(cfg: Config, b: State, op: I.Op)
    requires Paired(b) && Enabled(cfg, b, Idem(op))
    ensures forall s :: At(Apply(cfg, b, Idem(op)), s) == At(b, s)
  {
    hide I.Do;
  }

  lemma OwnStepOwned(cfg: Config, b: State, step: Step, offset: int)
    requires step.Init? || step.Skip? || step.SendSimple? || step.Send? || step.Note?
             || (step.Ack? && step.offset == offset)
    requires WalInv(cfg, b) && Paired(b) && Enabled(cfg, b, step)
    ensures StillOwned(At(b, step.slot), At(Apply(cfg, b, step), step.slot), offset)
  {
    hide WalInv, Apply, Enabled, Paired, Moved, StillOwned;
    SlotStepIs(cfg, b, step);
    if step.Send? {
      HeadFacts(cfg, b, step.slot);
    }
    MovedOwned(cfg, b, step, offset);
  }

  lemma MovedOwned(cfg: Config, b: State, step: Step, offset: int)
    requires step.Init? || step.Skip? || step.SendSimple? || step.Send? || step.Note?
             || (step.Ack? && step.offset == offset)
    requires Able(b, step) && (step.Send? ==> Head(b, step.slot).offset !in At(b, step.slot).inflight)
    ensures StillOwned(At(b, step.slot), Moved(cfg, b, step), offset)
  {
    hide Purge;
  }

  lemma {:induction false} CallOwned(cfg: Config, b: State, topic: string, only: Option<nat>, steps: seq<Step>,
                                     b': State, s: Slot, offset: int)
    requires WalInv(cfg, b) && Takes(cfg, b, steps, b')
    requires forall i :: 0 <= i < |steps| ==> TopicStep(topic, only, steps[i]) || steps[i] == Ack(s, offset)
    ensures StillOwned(At(b, s), At(b', s), offset)
    decreases |steps|
  {
    hide WalInv, Apply, Enabled, Paired, At, TopicStep;
    if steps != [] {
      var front, last := steps[..|steps| - 1], steps[|steps| - 1];
      var mid := After(cfg, b, front).value;
      CallOwned(cfg, b, topic, only, front, mid, s, offset);
      TakesKeepsInv(cfg, b, front, mid);
      StepOwned(cfg, mid, topic, only, last, s, offset);
    }
  }

  lemma TouchFacts(cfg: Config, b: State, gid: GroupId)
    requires Paired(b) && gid.topic in b.topics && gid.group != ""
    ensures Enabled(cfg, b, TouchGroup(gid)) && Apply(cfg, b, TouchGroup(gid)) == b.(groups := b.groups + {gid})
  {
  }

  /** The first checks of the acknowledging calls. */
  function ArgumentError(topic: string, group: string, partition: int, offset: int): Option<Error> {
    if topic == "" || group == "" then Some(EmptyName) else if partition < 0 || offset < 0 then Some(Negative) else None
  }

  predicate Argued(topic: string, group: string, partition: int, offset: int, owner: string) {
    ArgumentError(topic, group, partition, offset).None? && Glob.TrimSpace(owner) != ""
  }

  /** The owner has the offsets from lo up to hi in flight. */
  ghost predicate OwnsRange(b: State, s: Slot, lo: int, hi: int, owner: string) {
    forall o :: lo <= o <= hi ==> Owns(b, s, o, owner)
  }

  /** Which is to say: */
  lemma RangeOwned(b: State, s: Slot, lo: int, hi: int, owner: string)
    ensures OwnsRange(b, s, lo, hi, owner) && lo <= hi <==>
              Known(b, s) && lo <= hi
              && forall o :: lo <= o <= hi ==> o in At(b, s).inflight && At(b, s).inflight[o].owner == owner
  {
    assert OwnsRange(b, s, lo, hi, owner) && lo <= hi ==> Owns(b, s, lo, owner);
    if OwnsRange(b, s, lo, hi, owner) {
      forall o | lo <= o <= hi
        ensures o in At(b, s).inflight && At(b, s).inflight[o].owner == owner
      {
        assert Owns(b, s, o, owner);
      }
    }
  }

  ghost predicate PlainRange(b: State, s: Slot, lo: int, hi: int) {
    forall o :: lo <= o <= hi && o in At(b, s).inflight ==> !Keyed(At(b, s).inflight[o].msg)
  }

  lemma RangeStays(b: State, b': State, s: Slot, lo: int, hi: int, owner: string)
    requires OwnsRange(b, s, lo, hi, owner) && PlainRange(b, s, lo, hi) && StillOwned(At(b, s), At(b', s), lo)
    requires Known(b', s)
    ensures OwnsRange(b', s, lo + 1, hi, owner) && PlainRange(b', s, lo + 1, hi)
  {
    forall o | lo + 1 <= o <= hi
      ensures Owns(b', s, o, owner) && !Keyed(At(b', s).inflight[o].msg)
    {
      assert Owns(b, s, o, owner);
    }
  }

  /** The steps a redelivery tick may take: on entries of any slot, and what dispatch does after. */
  ghost predicate TickStep(step: Step) {
    || step.Note? || step.Settle? || step.EnsureDlq? || step.Bury? || step.Redeliver?
    || step.Init? || step.Skip? || step.SendSimple? || step.Send?
    || (step.Idem? && (step.op.OpCheck? || step.op.OpBeginLease?))
  }

  ghost predicate TickSteps(steps: seq<Step>) {
    forall i :: 0 <= i < |steps| ==> TickStep(steps[i])
  }

  lemma MoreTickSteps(steps: seq<Step>, more: seq<Step>)
    requires TickSteps(steps) && TickSteps(more)
    ensures TickSteps(steps + more)
  {
  }

  /** The steps one entry's turn may take: a tick's, and of the steps on entries only its own. */
  ghost predicate EntryStep(s: Slot, offset: int, step: Step) {
    && TickStep(step)
    && (step.Redeliver? || step.Settle? || step.Bury? ==> step.slot == s && step.offset == offset)
  }

  ghost predicate EntrySteps(s: Slot, offset: int, steps: seq<Step>) {
    forall i :: 0 <= i < |steps| ==> EntryStep(s, offset, steps[i])
  }

  lemma NoEntrySteps(s: Slot, offset: int)
    ensures EntrySteps(s, offset, [])
  {
  }

  lemma OneEntryStep(s: Slot, offset: int, step: Step)
    requires EntryStep(s, offset, step)
    ensures EntrySteps(s, offset, [step])
  {
  }

  lemma MoreEntrySteps(s: Slot, offset: int, steps: seq<Step>, more: seq<Step>)
    requires EntrySteps(s, offset, steps) && EntrySteps(s, offset, more)
    ensures EntrySteps(s, offset, steps + more)
  {
  }

  lemma TopicEntrySteps(s: Slot, offset: int, topic: string, only: Option<nat>, steps: seq<Step>)
    requires TopicSteps(topic, only, steps)
    ensures EntrySteps(s, offset, steps)
  {
    forall i | 0 <= i < |steps|
      ensures EntryStep(s, offset, steps[i])
    {
      assert TopicStep(topic, only, steps[i]);
    }
  }

  lemma SlotEntrySteps(s: Slot, offset: int, steps: seq<Step>)
    requires DispatchSteps(s, steps)
    ensures EntrySteps(s, offset, steps)
  {
    forall i | 0 <= i < |steps|
      ensures EntryStep(s, offset, steps[i])
    {
      assert DispatchStep(s, steps[i]);
    }
  }

  lemma EntryStepsAreTickSteps(s: Slot, offset: int, steps: seq<Step>)
    requires EntrySteps(s, offset, steps)
    ensures TickSteps(steps)
  {
    forall i | 0 <= i < |steps|
      ensures TickStep(steps[i])
    {
      assert EntryStep(s, offset, steps[i]);
    }
  }

  /** The table of leases that redelivery makes for a group. */
  ghost predicate LeaseTable(leases: map<string, int>, streams: seq<Consumer>, ackTimeout: int) {
    forall owner :: LeaseOf(leases, owner, ackTimeout) == LeaseFor(streams, owner, ackTimeout)
  }

  function LeaseOf(leases: map<string, int>, owner: string, ackTimeout: int): int {
    if owner in leases then leases[owner] else ackTimeout
  }

  method OwnerLeases(streams: seq<Consumer>, ackTimeout: int) returns (leases: map<string, int>)
    ensures LeaseTable(leases, streams, ackTimeout)
    ensures forall owner :: LatestLease(streams, owner, ackTimeout, LeaseOf(leases, owner, ackTimeout))
  {
    leases := map[];
    for i := 0 to |streams|
      invariant LeaseTable(leases, streams[..i], ackTimeout)
    {
      var lease := ackTimeout;
      if streams[i].lease > 0 {
        lease := streams[i].lease;
      }
      ghost var before := leases;
      leases := leases[streams[i].owner := lease];
      forall owner
        ensures LeaseOf(leases, owner, ackTimeout) == LeaseFor(streams[..i + 1], owner, ackTimeout)
      {
        assert streams[..i + 1][..i] == streams[..i];
        assert LeaseOf(before, owner, ackTimeout) == LeaseFor(streams[..i], owner, ackTimeout);
      }
    }
    assert streams[..|streams|] == streams;
    forall owner
      ensures LatestLease(streams, owner, ackTimeout, LeaseOf(leases, owner, ackTimeout))
    {
      LeaseIsLatest(streams, owner, ackTimeout, LeaseOf(leases, owner, ackTimeout));
    }
  }

  /** appendLastError. */
  function AppendError(existing: string, addition: string): string {
    var a := Glob.TrimSpace(addition);
    var e := Glob.TrimSpace(existing);
    if a == "" then existing else if e == "" then a else e + " | " + a
  }

  /** Both texts are kept, the older one first. */
  lemma ErrorsJoin(existing: string, addition: string)
    ensures var r, a, e := AppendError(existing, addition), Glob.TrimSpace(addition), Glob.TrimSpace(existing);
            && (a == "" ==> r == existing)
            && (a != "" ==> |r| >= |a| && r[|r| - |a|..] == a)
            && (a != "" && e != "" ==> |r| == |e| + 3 + |a| && r[..|e|] == e)
            && (a != "" && e == "" ==> r == a)
  {
  }

  /** The least committed offset of the groups that count for the partition; -1 without any. */
  ghost predicate LeastCommitted(b: State, topic: string, partition: nat, least: int) {
    && (forall g :: g in b.groups && g.topic == topic ==> least <= At(b, Slot(topic, g.group, partition)).committed)
    && ((least == -1 && forall g :: g in b.groups ==> g.topic != topic)
        || exists g :: g in b.groups && g.topic == topic && At(b, Slot(topic, g.group, partition)).committed == least)
  }

  lemma FlightFacts(cfg: Config, b: State, s: Slot, offset: int)
    requires WalInv(cfg, b) && Flying(b, s, offset)
    ensures 0 <= offset < |LogOf(b, s)| && At(b, s).inflight[offset].attempts >= 1 && s in b.slots
  {
    hide Inv, Agrees;
    EntryAt(cfg, b, s, offset);
  }

  lemma SettleFacts(cfg: Config, b: State, s: Slot, offset: int)
    requires Paired(b) && Flying(b, s, offset) && DoneFor(b, s, At(b, s).inflight[offset].msg)
    ensures Enabled(cfg, b, Settle(s, offset))
    ensures Apply(cfg, b, Settle(s, offset)) == PutOffset(b, s, LeaveSlot(At(b, s), offset, SettledDone))
  {
  }

  /** The entry is due: its lease is over and its backoff too. */
  predicate Due(cfg: Config, b: State, s: Slot, offset: int, now: int) {
    && Flying(b, s, offset)
    && Expired(At(b, s).inflight[offset], LeaseFor(Streams(b, s), At(b, s).inflight[offset].owner, cfg.ackTimeout), now)
    && GateOpen(At(b, s).inflight[offset], now)
  }

  lemma ResendFacts(cfg: Config, b: State, s: Slot, offset: int, i: nat, now: int)
    requires Paired(b) && Due(cfg, b, s, offset, now) && i < |Streams(b, s)|
    requires !DoneFor(b, s, At(b, s).inflight[offset].msg) && !Exhausted(At(b, s).inflight[offset])
    requires Leased(b, s, At(b, s).inflight[offset].msg, Streams(b, s)[i].owner)
    ensures Enabled(cfg, b, Redeliver(s, offset, Streams(b, s)[i].owner, now))
    ensures var owner, ss := Streams(b, s)[i].owner, At(b, s);
            Apply(cfg, b, Redeliver(s, offset, owner, now))
            == Put(b, s, ss.(inflight := ss.inflight[offset := Again(ss.inflight[offset], owner, now)]))
  {
    assert Streams(b, s)[i] in Streams(b, s);
  }

  lemma EnsureFacts(cfg: Config, b: State, s: Slot)
    requires Paired(b) && Known(b, s) && !IsDlq(s.topic)
    ensures Enabled(cfg, b, EnsureDlq(s.topic))
    ensures var b' := Apply(cfg, b, EnsureDlq(s.topic));
            b' == b.(topics := WithDlq(b.topics, s.topic)) && Known(b', s) && LogOf(b', s) == LogOf(b, s)
  {
  }

  lemma BuryFacts(cfg: Config, b: State, s: Slot, offset: int, p: nat, slowest: int, now: int, later: int)
    requires Paired(b) && Due(cfg, b, s, offset, now) && now <= later
    requires !DoneFor(b, s, At(b, s).inflight[offset].msg) && Exhausted(At(b, s).inflight[offset])
    requires var e := At(b, s).inflight[offset];
             !IsDlq(s.topic) ==>
               && Exists(b, DlqTopic(s.topic), p) && Slowest(cfg, b, DlqTopic(s.topic), p, slowest)
               && Admits(cfg, b.topics[DlqTopic(s.topic)].logs[p], DeadLetter(s.topic, e, later), slowest)
    ensures Enabled(cfg, b, Bury(s, offset, p, slowest, later))
    ensures var e := At(b, s).inflight[offset];
            var b' := PutOffset(b, s, LeaveSlot(At(b, s), offset, DeadLettered(e.attempts)));
            Apply(cfg, b, Bury(s, offset, p, slowest, later))
            == if IsDlq(s.topic) then b' else Append(b', DlqTopic(s.topic), p, DeadLetter(s.topic, e, later))
  {
    hide Slowest, Admits, DeadLetter, DoneFor, LeaseFor, LeaveSlot, Append;
  }

  /** The entry as redelivery leaves it: the same message, one more attempt, a new owner and time,
      and the next one gated by the backoff. */
  ghost predicate ResentAs(e: Entry, e': Entry, owner: string, now: int) {
    && e'.msg == e.msg && e'.owner == owner && e'.sentAt == now && e'.attempts == e.attempts + 1
    && (if BacksOff(e.msg)
        then e'.nextAt == Some(now + Delay(e.msg.envelope.value.retryPolicy, e.attempts))
        else e'.nextAt.None?)
  }

  /** The message's envelope asks for a pause between attempts. */
  predicate BacksOff(m: Message) {
    && m.envelope.Some? && m.envelope.value.retryPolicy.Some?
    && (m.envelope.value.retryPolicy.value.backoffMs > 0 || m.envelope.value.retryPolicy.value.maxBackoffMs > 0)
  }

  lemma AgainIsResent(e: Entry, owner: string, now: int, text: string)
    ensures ResentAs(e, Again(e, owner, now).(lastError := text), owner, now)
  {
    hide Delay;
  }

  /** What may become of a due entry: it goes, as done or as a dead letter at the end of its
      retries; or it stays, its error noted; or it is sent again. */
  ghost predicate DueOutcome(ss: SlotState, ss': SlotState, offset: int, now: int, fate: Fate)
    requires offset in ss.inflight
  {
    var e := ss.inflight[offset];
    match fate
    case Settled => Keyed(e.msg) && offset in ss'.gone && ss'.gone[offset] == SettledDone
    case Buried => AtLimit(e) && offset in ss'.gone && ss'.gone[offset] == DeadLettered(e.attempts)
    case Unburied => AtLimit(e) && offset in ss'.inflight
      && ss'.inflight[offset] == e.(lastError := ss'.inflight[offset].lastError)
    case Unleased => !AtLimit(e) && Keyed(e.msg)
    case Resent(owner) => !AtLimit(e) && offset in ss'.inflight && ResentAs(e, ss'.inflight[offset], owner, now)
    case _ => false
  }

  /** The loop that finds where the cursor starts. */
  method FirstAfter(log: Log, committed: int) returns (idx: nat)
    requires OffsetsAreIndices(log)
    ensures idx == if committed + 1 < 0 then 0 else Min(committed + 1, |log|)
  {
    idx := 0;
    while idx < |log| && log[idx].offset <= committed
      invariant idx <= |log| && (idx > 0 ==> idx <= committed + 1)
    {
      idx := idx + 1;
    }
  }


  lemma NoStreams(wal: seq<WalRecord>, now: int)
    requires Recovered(wal).Some?
    ensures LeasesSet(Rebuilt(Recovered(wal).value, wal, now).consumers)
  {
  }

  lemma SameOutcome(ss0: SlotState, ss: SlotState, ss': SlotState, offset: int, now: int, fate: Fate)
    requires offset in ss0.inflight && offset in ss.inflight
    requires ss.inflight[offset] == ss0.inflight[offset].(lastError := ss.inflight[offset].lastError)
    requires DueOutcome(ss, ss', offset, now, fate)
    ensures DueOutcome(ss0, ss', offset, now, fate)
  {
  }

  lemma FlightKnown(cfg: Config, b: State, s: Slot, offset: int)
    requires WalInv(cfg, b) && LeasesSet(b.consumers) && GroupId(s.topic, s.group) in b.consumers
             && offset in At(b, s).inflight
    ensures Flying(b, s, offset)
  {
    hide Agrees;
    AtKeepsInv(cfg, b, s);
    assert EntryInv(LogOf(b, s), offset, At(b, s).inflight[offset]);
  }

  lemma NackFacts(cfg: Config, b: State, s: Slot, offset: int, now: int)
    requires Paired(b) && Flying(b, s, offset)
    ensures Enabled(cfg, b, BrokerState.Nack(s, offset, now))
    ensures var ss := At(b, s);
            var lease := NackLease(Streams(b, s), ss.inflight[offset].owner, cfg.ackTimeout);
            var e := ss.inflight[offset].(nextAt := None, sentAt := now - lease - MILLISECOND);
            Apply(cfg, b, BrokerState.Nack(s, offset, now)) == Put(b, s, ss.(inflight := ss.inflight[offset := e]))
  {
  }

  lemma FailFacts(cfg: Config, b: State, s: Slot, m: Message, op: I.Op)
    requires Known(b, s) && op.OpFailIfOwner? && op.k == ConsumeKey(s, m)
    ensures Enabled(cfg, b, Idem(op))
  {
  }

  /** The owner's first leasing stream. */
  method FirstLease(streams: seq<Consumer>, owner: string, ackTimeout: int) returns (lease: int)
    ensures FirstsLease(streams, owner, ackTimeout, lease) && lease == NackLease(streams, owner, ackTimeout)
  {
    NackLeaseIsFirsts(streams, owner, ackTimeout, NackLease(streams, owner, ackTimeout));
    for i := 0 to |streams|
      invariant NackLease(streams, owner, ackTimeout) == NackLease(streams[i..], owner, ackTimeout)
    {
      if streams[i].owner == owner && streams[i].lease > 0 {
        return streams[i].lease;
      }
      assert streams[i..][1..] == streams[i + 1..];
    }
    return ackTimeout;
  }

  method AnyOf(offsets: set<int>) returns (offset: int)
    requires offsets != {}
    ensures offset in offsets
  {
    assert (forall o :: o !in offsets) ==> offsets == {};
    offset :| offset in offsets;
  }

  lemma SameDueItems(cfg: Config, b: State, b': State, s: Slot, offset: int, now: int)
    requires Due(cfg, b, s, offset, now) && b'.slots == b.slots && b'.consumers == b.consumers && b'.topics == b.topics
    ensures Due(cfg, b', s, offset, now)
  {
  }

  lemma SameDue(cfg: Config, b: State, b': State, s: Slot, offset: int, now: int)
    requires Due(cfg, b, s, offset, now) && b'.slots == b.slots && b'.consumers == b.consumers && b'.items == b.items
             && Known(b', s)
    ensures Due(cfg, b', s, offset, now)
    ensures DoneFor(b', s, At(b', s).inflight[offset].msg) == DoneFor(b, s, At(b, s).inflight[offset].msg)
  {
  }

  lemma NoTickSteps()
    ensures TickSteps([])
  {
  }

  lemma SameRange(b: State, b': State, s: Slot, lo: int, hi: int, owner: string)
    requires b'.slots == b.slots && b'.topics == b.topics
    ensures OwnsRange(b', s, lo, hi, owner) <==> OwnsRange(b, s, lo, hi, owner)
    ensures PlainRange(b', s, lo, hi) <==> PlainRange(b, s, lo, hi)
  {
    assert At(b', s) == At(b, s);
    forall o
      ensures Owns(b', s, o, owner) <==> Owns(b, s, o, owner)
    {
    }
  }

  lemma AckSteps(s: Slot, offset: int, steps: seq<Step>)
    requires steps != [] && steps[0] == Ack(s, offset) && TopicSteps(s.topic, Some(s.partition), steps[1..])
    ensures forall i :: 0 <= i < |steps| ==>
              TopicStep(s.topic, Some(s.partition), steps[i]) || steps[i] == Ack(s, offset)
  {
    forall i | 0 < i < |steps|
      ensures TopicStep(s.topic, Some(s.partition), steps[i])
    {
      assert TopicStep(s.topic, Some(s.partition), steps[1..][i - 1]);
    }
  }

  lemma CommittedIsOffset(cfg: Config, b: State, s: Slot)
    requires WalInv(cfg, b)
    ensures At(b, s).committed >= -1
  {
    hide Inv, TopicsAgree, ItemsAgree, RetryOffsets;
    assert OffsetAgrees(LoggedOffset(Recovered(b.wal).value, s), At(b, s));
  }

  lemma NoTopicSteps(topic: string, only: Option<nat>)
    ensures TopicSteps(topic, only, [])
  {
  }

  lemma MoreTopicSteps(topic: string, only: Option<nat>, steps: seq<Step>, more: seq<Step>)
    requires TopicSteps(topic, only, steps) && TopicSteps(topic, only, more)
    ensures TopicSteps(topic, only, steps + more)
  {
  }

  lemma PlainFacts(b: State, s: Slot, m: Message)
    requires !Keyed(m)
    ensures !DoneFor(b, s, m) && forall owner :: Leased(b, s, m, owner)
  {
  }

  lemma InitStarts(cfg: Config, b: State, s: Slot)
    requires Paired(b) && Enabled(cfg, b, Init(s))
    ensures At(Apply(cfg, b, Init(s)), s).next.Some?
  {
  }

  lemma LeaseZero(consumers: map<GroupId, seq<Consumer>>, g: GroupId, i: nat)
    requires LeasesSet(consumers) && g in consumers && i < |consumers[g]| && consumers[g][i].lease <= 0
    ensures consumers[g][i].lease == 0
  {
  }

  lemma LeasePositive(consumers: map<GroupId, seq<Consumer>>, g: GroupId, i: nat)
    requires LeasesSet(consumers) && g in consumers && i < |consumers[g]| && consumers[g][i].lease != 0
    ensures consumers[g][i].lease > 0
  {
  }

  lemma LogReplays(cfg: Config, b: State)
    requires WalInv(cfg, b)
    ensures Recovered(b.wal).Some?
  {
  }

  lemma AllLogged(cfg: Config, b: State)
    requires WalInv(cfg, b) && forall s :: s in b.slots ==> b.slots[s].pending == -1 && b.slots[s].taken == -1
    ensures Recovered(b.wal).Some? && forall s :: LoggedOffset(Recovered(b.wal).value, s) == At(b, s).committed
  {
    hide Inv, TopicsAgree, ItemsAgree, RetryOffsets, Recovered;
    forall s
      ensures LoggedOffset(Recovered(b.wal).value, s) == At(b, s).committed
    {
      assert OffsetAgrees(LoggedOffset(Recovered(b.wal).value, s), At(b, s));
    }
  }

  lemma TakenIsOffset(cfg: Config, b: State)
    requires WalInv(cfg, b)
    ensures forall s :: s in b.slots ==> b.slots[s].taken >= -1 && b.slots[s].pending >= -1
  {
    hide Inv, TopicsAgree, ItemsAgree, RetryOffsets, Recovered;
    forall s | s in b.slots
      ensures b.slots[s].taken >= -1 && b.slots[s].pending >= -1
    {
      assert OffsetAgrees(LoggedOffset(Recovered(b.wal).value, s), At(b, s));
    }
  }

  lemma ForwardCommitted(ss: SlotState, ss': SlotState)
    requires BrokerRuns.SlotForward(ss, ss')
    ensures ss'.committed >= ss.committed
  {
  }

  lemma TakeFacts(cfg: Config, b: State)
    requires Paired(b) && forall s :: s in b.slots ==> b.slots[s].taken == -1
    ensures Enabled(cfg, b, FlushTake)
            && Apply(cfg, b, FlushTake) == b.(slots := map s | s in b.slots :: Take(b.slots[s]))
  {
  }

  lemma GiveBackFacts(cfg: Config, b: State)
    requires Paired(b)
    ensures Enabled(cfg, b, FlushFail)
            && Apply(cfg, b, FlushFail) == b.(slots := map s | s in b.slots :: GiveBack(b.slots[s]))
  {
  }

  lemma WriteFacts(cfg: Config, b: State, s: Slot)
    requires Paired(b) && s in b.slots && b.slots[s].taken >= 0
    ensures Enabled(cfg, b, FlushWrite(s))
    ensures Apply(cfg, b, FlushWrite(s))
            == b.(slots := b.slots[s := b.slots[s].(taken := -1)], wal := b.wal + [OffsetRecord(s, b.slots[s].taken)])
  {
  }

  lemma RegisterFacts(cfg: Config, b: State, gid: GroupId, c: Consumer)
    requires Paired(b) && gid.topic in b.topics && gid.group != "" && c.owner != "" && c.lease >= 0
    ensures Enabled(cfg, b, Register(gid, c))
    ensures Apply(cfg, b, Register(gid, c))
            == b.(consumers := b.consumers[gid := (if gid in b.consumers then b.consumers[gid] else []) + [c]])
  {
  }

  lemma CreateFacts(cfg: Config, b: State, name: string, partitions: nat)
    requires Paired(b) && name != "" && partitions > 0 && name !in b.topics
    ensures Enabled(cfg, b, CreateTopic(name, partitions, true))
    ensures Apply(cfg, b, CreateTopic(name, partitions, true))
            == b.(topics := b.topics[name := NewTopic(partitions)], wal := b.wal + [TopicRecord(name, partitions)])
  {
  }

  // What a redelivery tick does to every entry

  /** An entry in flight keeps what decides when it is due, and what has gone stays so. */
  ghost predicate Spared(ss: SlotState, ss': SlotState, o: int) {
    && (o in ss.inflight ==> o in ss'.inflight && BrokerRuns.SameTimer(ss.inflight[o], ss'.inflight[o]))
    && (o in ss.gone ==> o in ss'.gone && ss'.gone[o] == ss.gone[o])
  }

  lemma SparedTransitive(a: SlotState, b: SlotState, c: SlotState, o: int)
    requires Spared(a, b, o) && Spared(b, c, o)
    ensures Spared(a, c, o)
  {
  }

  lemma StaysFlyingHere(cfg: Config, b: State, step: Step, o: int)
    requires OnSlot(step) && Able(b, step) && !step.Ack? && o in At(b, step.slot).inflight
    requires step.Redeliver? || step.Settle? ==> step.offset != o
    ensures o in Moved(cfg, b, step).inflight
  {
    hide NackLease, Again, Purge;
  }

  lemma StaysFlyingByBury(cfg: Config, b: State, step: Step, o: int)
    requires step.Bury? && Paired(b) && Enabled(cfg, b, step) && o in At(b, step.slot).inflight && step.offset != o
    ensures o in At(Apply(cfg, b, step), step.slot).inflight
  {
    hide Enabled, Apply, Purge, DeadLetter, AppendTo, ToEntry;
    BuryIs(cfg, b, step);
  }

  lemma StaysFlying(cfg: Config, b: State, step: Step, u: Slot, o: int)
    requires WalInv(cfg, b) && Paired(b) && Enabled(cfg, b, step) && TickStep(step) && o in At(b, u).inflight
    requires (step.Redeliver? || step.Settle? || step.Bury?) && step.slot == u ==> step.offset != o
    ensures o in At(Apply(cfg, b, step), u).inflight
  {
    hide Inv, Agrees, Enabled, Apply, At, Moved, Able;
    if step.Idem? {
      IdemKeepsSlots(cfg, b, step.op);
    } else if step.EnsureDlq? {
      EnsureKeepsSlots(cfg, b, step);
    } else if step.slot == u && step.Bury? {
      StaysFlyingByBury(cfg, b, step, o);
    } else if step.slot == u {
      SlotStepIs(cfg, b, step);
      StaysFlyingHere(cfg, b, step, o);
    } else if step.Bury? {
      BrokerRuns.BuryForward(cfg, b, step);
    } else {
      OtherSlotsSame(cfg, b, step);
    }
  }

  lemma EnsureKeepsSlots(cfg: Config, b: State, step: Step)
    requires Paired(b) && Enabled(cfg, b, step) && step.EnsureDlq?
    ensures forall s :: At(Apply(cfg, b, step), s) == At(b, s)
  {
  }

  lemma StepSpares(cfg: Config, b: State, step: Step, u: Slot, o: int)
    requires WalInv(cfg, b) && Paired(b) && Enabled(cfg, b, step) && TickStep(step)
    requires (step.Redeliver? || step.Settle? || step.Bury?) && step.slot == u ==> step.offset != o
    ensures Spared(At(b, u), At(Apply(cfg, b, step), u), o)
  {
    hide Inv, Agrees, Enabled, Apply, At, BrokerRuns.SameTimer;
    BrokerRuns.StepForward(cfg, b, step, u);
    BrokerRuns.TimerKept(cfg, b, step, u, o);
    if o in At(b, u).inflight {
      StaysFlying(cfg, b, step, u, o);
    }
  }

  /** An entry's turn spares all other entries. */
  lemma {:induction false} TurnSpares(cfg: Config, b: State, s: Slot, offset: int, steps: seq<Step>, b': State,
                                      u: Slot, o: int)
    requires WalInv(cfg, b) && Takes(cfg, b, steps, b') && EntrySteps(s, offset, steps) && (u != s || o != offset)
    ensures Spared(At(b, u), At(b', u), o)
    decreases |steps|
  {
    hide WalInv, Enabled, Apply, At, Paired;
    if steps == [] {
      SparedSelf(At(b, u), o);
    } else {
      var front, last := steps[..|steps| - 1], steps[|steps| - 1];
      var mid := After(cfg, b, front).value;
      TurnSpares(cfg, b, s, offset, front, mid, u, o);
      TakesKeepsInv(cfg, b, front, mid);
      assert EntryStep(s, offset, last);
      StepSpares(cfg, mid, last, u, o);
      SparedTransitive(At(b, u), At(mid, u), At(b', u), o);
    }
  }

  lemma SparedSelf(ss: SlotState, o: int)
    ensures Spared(ss, ss, o)
  {
  }

  /** What a tick at this time owes an entry that was in flight: nothing if it is not due; if it
      is and needs no lease, a new delivery, or at the end of its retries the dead-letter topic
      (unless the publication fails). */
  ghost predicate Handled(cfg: Config, b: State, ss': SlotState, s: Slot, o: int, now: int)
    requires o in At(b, s).inflight
  {
    var e := At(b, s).inflight[o];
    && (!Due(cfg, b, s, o, now) ==> Spared(At(b, s), ss', o))
    && (Due(cfg, b, s, o, now) && !Keyed(e.msg) && !AtLimit(e) ==>
          o in ss'.inflight && ResentAs(e, ss'.inflight[o], ss'.inflight[o].owner, now))
    && (Due(cfg, b, s, o, now) && !Keyed(e.msg) && AtLimit(e) ==>
          (o in ss'.gone && ss'.gone[o] == DeadLettered(e.attempts)) || Spared(At(b, s), ss', o))
  }

  lemma HandledStays(cfg: Config, b: State, ss: SlotState, ss': SlotState, s: Slot, o: int, now: int)
    requires o in At(b, s).inflight && Handled(cfg, b, ss, s, o, now) && Spared(ss, ss', o)
    ensures Handled(cfg, b, ss', s, o, now)
  {
    hide Due, Keyed, Exhausted, At, Delay, Policy;
  }

  /** The entry came to its turn as it was when the tick began. */
  lemma HandledFrom(cfg: Config, b: State, b1: State, ss': SlotState, s: Slot, o: int, now: int)
    requires Flying(b, s, o) && Flying(b1, s, o) && b1.consumers == b.consumers && Spared(At(b, s), At(b1, s), o)
    requires Handled(cfg, b1, ss', s, o, now)
    ensures Handled(cfg, b, ss', s, o, now)
  {
    hide Keyed, At, Delay, Policy, LeaseFor, Spared;
    SameTimerIsDue(cfg, b, b1, s, o, now);
    SparedFrom(At(b, s), At(b1, s), ss', o);
  }

  lemma SparedFrom(ss: SlotState, ss1: SlotState, ss': SlotState, o: int)
    requires Spared(ss, ss1, o)
    ensures Spared(ss1, ss', o) ==> Spared(ss, ss', o)
  {
  }

  lemma SameTimerIsDue(cfg: Config, b: State, b1: State, s: Slot, o: int, now: int)
    requires Flying(b, s, o) && Flying(b1, s, o) && b1.consumers == b.consumers && Spared(At(b, s), At(b1, s), o)
    ensures Due(cfg, b1, s, o, now) <==> Due(cfg, b, s, o, now)
    ensures BrokerRuns.SameTimer(At(b, s).inflight[o], At(b1, s).inflight[o])
  {
    hide LeaseFor;
  }

  lemma TurnHandles(cfg: Config, b: State, ss': SlotState, s: Slot, o: int, now: int, fate: Fate)
    requires Flying(b, s, o)
    requires fate.NotDue? || fate.Waiting? <==> !Due(cfg, b, s, o, now)
    requires fate.NotDue? || fate.Waiting? ==> Spared(At(b, s), ss', o)
    requires !fate.NotDue? && !fate.Waiting? ==>
              DueOutcome(At(b, s), ss', o, now, fate) && (fate.Unburied? ==> o !in At(b, s).gone)
    ensures Handled(cfg, b, ss', s, o, now)
  {
    hide Due, Keyed, Exhausted, Delay, Policy;
  }

  lemma FlyingIsNotGone(cfg: Config, b: State, s: Slot, o: int)
    requires WalInv(cfg, b) && o in At(b, s).inflight
    ensures o !in At(b, s).gone
  {
    hide Agrees;
    AtKeepsInv(cfg, b, s);
  }

  lemma SparedFlies(ss: SlotState, ss': SlotState, o: int)
    requires Spared(ss, ss', o) && o in ss.inflight
    ensures o in ss'.inflight
  {
  }

  /** The slot's group has consumers. */
  predicate Served(b: State, s: Slot) {
    GroupId(s.topic, s.group) in b.consumers && Streams(b, s) != []
  }

  lemma NothingElsewhere(b: State)
    ensures forall s, o :: s !in b.slots ==> o !in At(b, s).inflight
  {
  }

  /** One turn later in the loop over a slot's entries. */
  lemma AfterTurn(cfg: Config, b0: State, b: State, b': State, s: Slot, offset: int, now: int, todo: set<int>)
    requires forall u, o :: u != s || o != offset ==> Spared(At(b, u), At(b', u), o)
    requires offset !in todo
    requires forall o :: o in todo ==> Spared(At(b0, s), At(b, s), o)
    requires forall o :: o in At(b0, s).inflight && o !in todo && o != offset ==> Handled(cfg, b0, At(b, s), s, o, now)
    requires forall u, o :: u != s ==> Spared(At(b0, u), At(b, u), o)
    ensures forall o :: o in todo ==> Spared(At(b0, s), At(b', s), o)
    ensures forall o :: o in At(b0, s).inflight && o !in todo && o != offset ==> Handled(cfg, b0, At(b', s), s, o, now)
    ensures forall u, o :: u != s ==> Spared(At(b0, u), At(b', u), o)
  {
    hide Handled, Spared, At;
    forall o | o in todo
      ensures Spared(At(b0, s), At(b', s), o)
    {
      SparedTransitive(At(b0, s), At(b, s), At(b', s), o);
    }
    forall o | o in At(b0, s).inflight && o !in todo && o != offset
      ensures Handled(cfg, b0, At(b', s), s, o, now)
    {
      HandledStays(cfg, b0, At(b, s), At(b', s), s, o, now);
    }
    forall u, o | u != s
      ensures Spared(At(b0, u), At(b', u), o)
    {
      SparedTransitive(At(b0, u), At(b, u), At(b', u), o);
    }
  }

  /** One slot later in the loop over slots. */
  lemma AfterSlot(cfg: Config, b0: State, b: State, b': State, s: Slot, now: int, todo: set<Slot>)
    requires Served(b0, s) && b.consumers == b0.consumers && s !in todo
    requires forall o :: o in At(b, s).inflight ==> Handled(cfg, b, At(b', s), s, o, now)
    requires forall u, o :: u != s ==> Spared(At(b, u), At(b', u), o)
    requires forall o :: Spared(At(b0, s), At(b, s), o)
    requires forall u, o :: u in todo || !Served(b0, u) ==> Spared(At(b0, u), At(b, u), o)
    requires forall u, o :: u !in todo && u != s && Served(b0, u) && o in At(b0, u).inflight ==>
              Handled(cfg, b0, At(b, u), u, o, now)
    requires forall o :: o in At(b0, s).inflight ==> Flying(b0, s, o) && Flying(b, s, o)
    ensures forall u, o :: u in todo || !Served(b0, u) ==> Spared(At(b0, u), At(b', u), o)
    ensures forall u, o :: u !in todo && Served(b0, u) && o in At(b0, u).inflight ==>
              Handled(cfg, b0, At(b', u), u, o, now)
  {
    hide Handled, Spared, At, Served;
    forall u, o | u in todo || !Served(b0, u)
      ensures Spared(At(b0, u), At(b', u), o)
    {
      SparedTransitive(At(b0, u), At(b, u), At(b', u), o);
    }
    forall u, o | u !in todo && Served(b0, u) && o in At(b0, u).inflight
      ensures Handled(cfg, b0, At(b', u), u, o, now)
    {
      if u != s {
        HandledStays(cfg, b0, At(b, u), At(b', u), u, o, now);
      } else {
        HandledFrom(cfg, b0, b, At(b', s), s, o, now);
      }
    }
  }

  lemma EntriesFly(cfg: Config, b0: State, b: State, s: Slot)
    requires WalInv(cfg, b0) && WalInv(cfg, b) && LeasesSet(b.consumers) && b.consumers == b0.consumers && Served(b, s)
    requires forall o :: Spared(At(b0, s), At(b, s), o)
    ensures forall o :: o in At(b0, s).inflight ==> Flying(b0, s, o) && Flying(b, s, o)
  {
    hide WalInv, LeasesSet, Spared, At;
    forall o | o in At(b0, s).inflight
      ensures Flying(b0, s, o) && Flying(b, s, o)
    {
      SparedFlies(At(b0, s), At(b, s), o);
      FlightKnown(cfg, b0, s, o);
      FlightKnown(cfg, b, s, o);
    }
  }

  // Round robin

  /** The t-th consumer from the round-robin position on. */
  function Nth(start: nat, t: nat, n: nat): (i: nat)
    requires n > 0
    ensures i < n
  {
    (start + t) % n
  }

  /** Every consumer has its turn. */
  lemma NthCovers(start: nat, i: nat, n: nat) returns (t: nat)
    requires start < n && i < n
    ensures t < n && Nth(start, t, n) == i
  {
    if i >= start {
      t := i - start;
      ModOnce(i, n, 0);
    } else {
      t := i - start + n;
      ModOnce(i, n, 1);
    }
  }

  lemma ModOnce(i: nat, n: nat, k: nat)
    requires i < n && k <= 1
    ensures (i + k * n) % n == i
  {
    var x := i + k * n;
    var q, r := x / n, x % n;
    assert x == q * n + r;
    if q > k {
      QuotientGap(q, k, n);
    } else if q < k {
      QuotientGap(k, q, n);
    }
  }

  lemma QuotientGap(a: int, b: int, n: nat)
    requires a > b
    ensures a * n >= b * n + n
  {
    var d := a - b - 1;
    assert a * n == b * n + n + d * n;
    assert d * n >= 0;
  }

  /** A lease of the key was asked for on behalf of the worker. */
  ghost predicate Asked(steps: seq<Step>, k: I.Key, worker: string) {
    exists j :: 0 <= j < |steps| && steps[j].Idem? && steps[j].op.OpBeginLease? && steps[j].op.k == k
      && steps[j].op.worker == worker
  }

  /** For every leasing consumer, or for every consumer. */
  ghost predicate Sought(streams: seq<Consumer>, k: I.Key, steps: seq<Step>, all: bool) {
    forall i :: 0 <= i < |streams| && (all || streams[i].lease != 0) ==> Asked(steps, k, streams[i].owner)
  }

  /** An error was noted for the message. */
  ghost predicate Noted(s: Slot, offset: int, steps: seq<Step>) {
    exists j :: 0 <= j < |steps| && steps[j].Note? && steps[j].slot == s && steps[j].offset == offset
  }

  /** Nobody got the message: everybody was asked, or the store failed and the error was noted. */
  ghost predicate SoughtInVain(streams: seq<Consumer>, s: Slot, m: Message, steps: seq<Step>) {
    Sought(streams, ConsumeKey(s, m), steps, true) || Noted(s, m.offset, steps)
  }

  lemma AskedNow(steps: seq<Step>, op: I.Op)
    requires op.OpBeginLease?
    ensures Asked(steps + [Idem(op)], op.k, op.worker)
  {
    assert (steps + [Idem(op)])[|steps|] == Idem(op);
  }

  lemma AskedStill(steps: seq<Step>, more: seq<Step>, k: I.Key, worker: string)
    requires Asked(steps, k, worker) || Asked(more, k, worker)
    ensures Asked(steps + more, k, worker)
  {
    if Asked(steps, k, worker) {
      var j :| 0 <= j < |steps| && steps[j].Idem? && steps[j].op.OpBeginLease? && steps[j].op.k == k
        && steps[j].op.worker == worker;
      assert (steps + more)[j] == steps[j];
    } else {
      var j :| 0 <= j < |more| && more[j].Idem? && more[j].op.OpBeginLease? && more[j].op.k == k
        && more[j].op.worker == worker;
      assert (steps + more)[|steps| + j] == more[j];
    }
  }

  lemma SoughtStill(streams: seq<Consumer>, k: I.Key, steps: seq<Step>, more: seq<Step>, all: bool)
    requires Sought(streams, k, steps, all) || Sought(streams, k, more, all)
    ensures Sought(streams, k, steps + more, all)
  {
    hide Asked;
    forall i | 0 <= i < |streams| && (all || streams[i].lease != 0)
      ensures Asked(steps + more, k, streams[i].owner)
    {
      AskedStill(steps, more, k, streams[i].owner);
    }
  }

  lemma InVainStill(streams: seq<Consumer>, s: Slot, m: Message, before: seq<Step>, steps: seq<Step>, after: seq<Step>)
    requires SoughtInVain(streams, s, m, steps)
    ensures SoughtInVain(streams, s, m, before + steps + after)
  {
    hide Sought;
    if Sought(streams, ConsumeKey(s, m), steps, true) {
      SoughtStill(streams, ConsumeKey(s, m), before, steps, true);
      SoughtStill(streams, ConsumeKey(s, m), before + steps, after, true);
    } else {
      var j :| 0 <= j < |steps| && steps[j].Note? && steps[j].slot == s && steps[j].offset == m.offset;
      assert (before + steps + after)[|before| + j] == steps[j];
    }
  }

  lemma NotedOne(streams: seq<Consumer>, s: Slot, m: Message, steps: seq<Step>)
    requires |steps| == 1 && steps[0].Note? && steps[0].slot == s && steps[0].offset == m.offset
    ensures SoughtInVain(streams, s, m, steps)
  {
    assert Noted(s, m.offset, steps);
  }

  lemma EntryOffset(cfg: Config, b: State, s: Slot, offset: int)
    requires WalInv(cfg, b) && Flying(b, s, offset)
    ensures At(b, s).inflight[offset].msg.offset == offset
  {
    hide Agrees, RowsAgree;
    AtKeepsInv(cfg, b, s);
    EntryAt(cfg, b, s, offset);
  }

  lemma SameDone(b: State, b': State, s: Slot, m: Message)
    requires b'.items == b.items
    ensures DoneFor(b', s, m) <==> DoneFor(b, s, m)
  {
  }

  lemma InVainAfter(streams: seq<Consumer>, s: Slot, m: Message, before: seq<Step>, steps: seq<Step>)
    requires SoughtInVain(streams, s, m, steps)
    ensures SoughtInVain(streams, s, m, before + steps)
  {
    InVainStill(streams, s, m, before, steps, []);
    assert before + steps + [] == before + steps;
  }

  /** The search has dealt with a consumer: it was asked, or it is simple and there is a fallback. */
  ghost predicate Tried(streams: seq<Consumer>, k: I.Key, steps: seq<Step>, fallback: bool, i: nat) {
    i < |streams| && (Asked(steps, k, streams[i].owner) || (streams[i].lease == 0 && fallback))
  }

  lemma TriedStill(streams: seq<Consumer>, k: I.Key, steps: seq<Step>, more: seq<Step>, before: bool, after: bool,
                   start: nat, t: nat)
    requires streams != [] && (before ==> after)
    requires forall u: nat :: u < t ==> Tried(streams, k, steps, before, Nth(start, u, |streams|))
    ensures forall u: nat :: u < t ==> Tried(streams, k, steps + more, after, Nth(start, u, |streams|))
  {
    hide Asked;
    forall u: nat | u < t
      ensures Tried(streams, k, steps + more, after, Nth(start, u, |streams|))
    {
      var i := Nth(start, u, |streams|);
      assert Tried(streams, k, steps, before, i);
      if Asked(steps, k, streams[i].owner) {
        AskedStill(steps, more, k, streams[i].owner);
      }
    }
  }

  lemma AllTried(streams: seq<Consumer>, k: I.Key, steps: seq<Step>, fallback: bool, start: nat)
    requires start < |streams|
    requires forall u: nat :: u < |streams| ==> Tried(streams, k, steps, fallback, Nth(start, u, |streams|))
    ensures Sought(streams, k, steps, !fallback)
  {
    hide Asked, Nth;
    forall i | 0 <= i < |streams| && (!fallback || streams[i].lease != 0)
      ensures Asked(steps, k, streams[i].owner)
    {
      var u := NthCovers(start, i, |streams|);
      assert Tried(streams, k, steps, fallback, Nth(start, u, |streams|));
    }
  }

  lemma NextTried(streams: seq<Consumer>, k: I.Key, steps: seq<Step>, more: seq<Step>, before: bool, after: bool,
                  start: nat, t: nat)
    requires streams != [] && (before ==> after)
    requires forall u: nat :: u < t ==> Tried(streams, k, steps, before, Nth(start, u, |streams|))
    requires var i := Nth(start, t, |streams|);
             Asked(more, k, streams[i].owner) || (streams[i].lease == 0 && after)
    ensures forall u: nat :: u <= t ==> Tried(streams, k, steps + more, after, Nth(start, u, |streams|))
    ensures more == [] ==> steps + more == steps
  {
    hide Asked;
    TriedStill(streams, k, steps, more, before, after, start, t);
    var i := Nth(start, t, |streams|);
    if Asked(more, k, streams[i].owner) {
      AskedStill(steps, more, k, streams[i].owner);
    }
  }

  /** This consumer is none for the message: its work is leased to another, or it is a simple
      stream to fall back on. */
  ghost predicate Passed(b: State, s: Slot, m: Message, streams: seq<Consumer>, fallback: bool, i: nat) {
    i < |streams| && (HeldFrom(b, s, m, streams[i].owner) || (streams[i].lease == 0 && fallback))
  }

  /** The store's entry for the message's work is the same. */
  ghost predicate SameItem(b: State, b': State, s: Slot, m: Message) {
    && ConsumeKey(s, m) in b.items && ConsumeKey(s, m) in b'.items
    && b'.items[ConsumeKey(s, m)] == b.items[ConsumeKey(s, m)]
  }

  lemma NextPassed(b: State, b': State, s: Slot, m: Message, streams: seq<Consumer>, before: bool, after: bool,
                   start: nat, t: nat)
    requires streams != [] && (before ==> after) && (b' == b || SameItem(b, b', s, m))
    requires forall u: nat :: u < t ==> Passed(b, s, m, streams, before, Nth(start, u, |streams|))
    requires Passed(b', s, m, streams, after, Nth(start, t, |streams|))
    ensures forall u: nat :: u <= t ==> Passed(b', s, m, streams, after, Nth(start, u, |streams|))
  {
    hide ConsumeKey, Nth;
    forall u: nat | u < t
      ensures Passed(b', s, m, streams, after, Nth(start, u, |streams|))
    {
      assert Passed(b, s, m, streams, before, Nth(start, u, |streams|));
    }
  }

  lemma AllPassed(b: State, s: Slot, m: Message, streams: seq<Consumer>, fallback: bool, start: nat)
    requires start < |streams| && streams == Streams(b, s)
    requires forall u: nat :: u < |streams| ==> Passed(b, s, m, streams, fallback, Nth(start, u, |streams|))
    ensures NoneHolds(b, s, m, !fallback)
  {
    hide HeldFrom, Nth;
    forall i | 0 <= i < |streams| && (!fallback || streams[i].lease != 0)
      ensures HeldFrom(b, s, m, streams[i].owner)
    {
      var u := NthCovers(start, i, |streams|);
      assert Passed(b, s, m, streams, fallback, Nth(start, u, |streams|));
    }
  }

  /** Nobody could have the keyed message: its work is leased to somebody who is none of the
      group's consumers, or the store refused. */
  ghost predicate Unavailable(env: Env, b: State, s: Slot, m: Message) {
    NoneHolds(b, s, m, true) || LogRefuses(env) || OddLeases(Streams(b, s))
  }

  lemma StillUnavailable(env: Env, b: State, b': State, s: Slot, m: Message)
    requires Unavailable(env, b, s, m) && b'.items == b.items && b'.consumers == b.consumers
    ensures Unavailable(env, b', s, m)
  {
    hide OddLeases;
    assert Streams(b', s) == Streams(b, s);
  }

  /** The same for a redelivery, which asks for the owners' leases. */
  ghost predicate Unredeemable(cfg: Config, env: Env, b: State, s: Slot, m: Message, leases: map<string, int>) {
    NoneHolds(b, s, m, true) || LogRefuses(env) || OddTable(Streams(b, s), leases, cfg.ackTimeout)
  }

  lemma StillUnredeemable(cfg: Config, env: Env, b: State, b': State, s: Slot, m: Message, leases: map<string, int>)
    requires Unredeemable(cfg, env, b, s, m, leases) && b'.items == b.items && b'.consumers == b.consumers
    ensures Unredeemable(cfg, env, b', s, m, leases)
  {
    hide OddTable;
    assert Streams(b', s) == Streams(b, s);
  }

  /** The message can go to a partition of the topic: its override, if it has one, names one. */
  ghost predicate Placeable(b: State, topic: string, m: Message) {
    && topic != "" && topic in b.topics && |b.topics[topic].logs| > 0
    && (m.envelope.Some? && m.envelope.value.partitionOverride.Some? ==>
          0 <= m.envelope.value.partitionOverride.value < |b.topics[topic].logs|)
  }

  /** The partition has room after the slowest acknowledgement: for one more message, and for more
      bytes than this one has. */
  ghost predicate Room(cfg: Config, log: Log, m: Message, slowest: int) {
    && (cfg.maxMsgs > 0 ==> CountAfter(log, slowest) < cfg.maxMsgs)
    && (cfg.maxBytes > 0 ==> BytesAfter(log, slowest) + |m.key| + |m.value| < cfg.maxBytes)
  }

  /** A dead letter cannot be published: the log refuses it, a cap may be exceeded, or its topic has
      no partition. */
  ghost predicate Unpublishable(cfg: Config, env: Env, b: State, topic: string) {
    LogRefuses(env) || cfg.maxMsgs > 0 || cfg.maxBytes > 0
    || (DlqTopic(topic) in b.topics && b.topics[DlqTopic(topic)].logs == [])
  }

  lemma DeadIsPlaceable(b: State, topic: string, e: Entry, now: int)
    requires DlqTopic(topic) in b.topics && b.topics[DlqTopic(topic)].logs != []
    ensures Placeable(b, DlqTopic(topic), DeadLetter(topic, e, now))
  {
  }

  /** The lease of a new stream: none, the one asked for, or a default. */
  function StreamLease(lease: Option<int>, ackTimeout: int): int {
    match lease
    case None => 0
    case Some(asked) => if asked > 0 then asked else if ackTimeout > 0 then ackTimeout else 2_000_000_000
  }

  lemma CommitsExactly(cfg: Config, b: State, s: Slot, m: Message, worker: string, now: int, logOk: bool)
    requires Keyed(m)
    ensures var op := I.OpCommitIfOwner(ConsumeKey(s, m), worker, "", now, logOk);
            I.Do(b.items, cfg.ttl, op).reply.Done? <==>
              DoneFor(b, s, m) || (I.Runs(b.items, ConsumeKey(s, m), I.Named(worker), now) && logOk)
  {
    var op := I.OpCommitIfOwner(ConsumeKey(s, m), worker, "", now, logOk);
    I.HolderExactly(b.items, cfg.ttl, op);
    hide I.Do, I.Runs;
  }

  /** Why a negative acknowledgement was made. */
  function Reason(reason: string): string {
    if Glob.TrimSpace(reason) == "" then "nack" else Glob.TrimSpace(reason)
  }

  /** The step gives up the lease of the message's key. */
  predicate FailsKey(s: Slot, m: Message, owner: string, reason: string, step: Step) {
    && step.Idem? && step.op.OpFailIfOwner? && step.op.k == ConsumeKey(s, m) && step.op.worker == owner
    && step.op.cause == reason
  }

  /** Before the entry is made due, its error is noted and logged, and a keyed message's lease is
      given up. */
  ghost predicate GaveUp(s: Slot, offset: int, e: Entry, owner: string, reason: string, steps: seq<Step>, k: nat) {
    && 0 < k <= |steps| && steps[0] == Note(s, offset, AppendError(e.lastError, reason), true, true)
    && (Keyed(e.msg) ==> 1 < k && FailsKey(s, e.msg, owner, reason, steps[1]))
  }

  lemma GivesUp(s: Slot, offset: int, e: Entry, owner: string, reason: string, steps: seq<Step>, failing: seq<Step>)
    requires steps == [Note(s, offset, AppendError(e.lastError, reason), true, true)]
    requires Keyed(e.msg) ==> failing != [] && FailsKey(s, e.msg, owner, reason, failing[0])
    ensures GaveUp(s, offset, e, owner, reason, steps + failing, |steps + failing|)
  {
    assert failing != [] ==> (steps + failing)[1] == failing[0];
  }

  lemma GivenUp(s: Slot, offset: int, e: Entry, owner: string, reason: string, steps: seq<Step>, rest: seq<Step>)
    requires GaveUp(s, offset, e, owner, reason, steps, |steps|)
    ensures GaveUp(s, offset, e, owner, reason, steps + rest, |steps|)
  {
  }

  /** Dispatch has run: unless a queue was full, every group with consumers has all it can have of
      the partition. */
  ghost predicate Dispatched(cfg: Config, env: Env, b: State, topic: string, p: nat, steps: seq<Step>) {
    QueuesFill(env)
    || forall g :: g in b.consumers && g.topic == topic && b.consumers[g] != [] ==>
                     Quiet(cfg, b, Slot(topic, g.group, p), steps)
  }

  lemma UpToDispatched(cfg: Config, env: Env, b: State, topic: string, p: nat, n: nat, before: seq<Step>,
                       steps: seq<Step>)
    requires p < n
    requires QueuesFill(env)
             || forall g :: g in b.consumers && g.topic == topic && b.consumers[g] != [] ==>
                              QuietUpTo(cfg, b, g, Some(p), n, steps)
    ensures Dispatched(cfg, env, b, topic, p, before + steps)
  {
    hide Quiet;
    forall g | g in b.consumers && g.topic == topic && b.consumers[g] != [] && !QueuesFill(env)
      ensures Quiet(cfg, b, Slot(topic, g.group, p), before + steps)
    {
      QuietUpToLonger(cfg, b, g, Some(p), n, before, steps);
    }
  }

  lemma StillDispatched(cfg: Config, env: Env, b: State, topic: string, p: nat, before: seq<Step>, steps: seq<Step>)
    requires Dispatched(cfg, env, b, topic, p, steps)
    ensures Dispatched(cfg, env, b, topic, p, before + steps)
  {
    hide Quiet;
    forall g | g in b.consumers && g.topic == topic && b.consumers[g] != [] && !QueuesFill(env)
      ensures Quiet(cfg, b, Slot(topic, g.group, p), before + steps)
    {
      QuietLonger(cfg, b, Slot(topic, g.group, p), before, steps, []);
      assert before + steps + [] == before + steps;
    }
  }

  lemma WithoutOne<T>(s: seq<T>, i: nat)
    requires i < |s|
    ensures multiset(Without(s, i)) == multiset(s) - multiset{s[i]}
  {
    var last := |s| - 1;
    if i == last {
      assert Without(s, i) == s[..last] && s == s[..last] + [s[last]];
    } else {
      var middle := s[i + 1..last];
      assert s == s[..i] + ([s[i]] + (middle + [s[last]]));
      assert Without(s, i) == s[..i] + ([s[last]] + middle);
    }
  }

  /** A redelivery tick has run from one state to another. */
  ghost predicate Ticked(cfg: Config, b: State, b': State, now: int) {
    forall s, o :: Served(b, s) && o in At(b, s).inflight ==> Handled(cfg, b, At(b', s), s, o, now)
  }

  /** The message at the cursor went to this stream. */
  ghost predicate SentTo(s: Slot, c: Consumer, steps: seq<Step>) {
    |steps| == 1 && if c.lease > 0 then steps[0].Send? && steps[0].slot == s && steps[0].owner == c.owner
                    else steps[0] == SendSimple(s)
  }

  /** Plain messages are offered to the streams in turn, one after the other. */
  ghost predicate TakenInTurn(s: Slot, streams: seq<Consumer>, cursor: nat, cursor': nat, turn: Turn,
                              steps: seq<Step>)
  {
    && streams != [] && cursor' == (cursor % |streams| + 1) % |streams|
    && (turn.Sent? ==> SentTo(s, streams[cursor % |streams|], steps))
  }

  /** Why dispatch has come to rest: all is delivered, the in-flight limit is reached, the message
      at the cursor is keyed and nobody can have it, or a queue was full. */
  ghost predicate Rests(cfg: Config, env: Env, b: State, s: Slot, turn: Turn) {
    var ss := At(b, s);
    && ss.next.Some?
    && match turn
       case QueueFull => QueuesFill(env)
       case FlightFull => cfg.maxInFlight > 0 && |ss.inflight| >= cfg.maxInFlight
       case NotLeased =>
         && ss.next.value < |LogOf(b, s)| && Keyed(LogOf(b, s)[ss.next.value])
         && Unavailable(env, b, s, LogOf(b, s)[ss.next.value])
       case _ => ss.next.value >= |LogOf(b, s)|
  }

  lemma NoDispatchSteps(s: Slot)
    ensures DispatchSteps(s, [])
  {
  }

  lemma MoreDispatchSteps(s: Slot, steps: seq<Step>, step: Step)
    requires DispatchSteps(s, steps) && DispatchStep(s, step)
    ensures DispatchSteps(s, steps + [step])
  {
  }

  lemma JoinDispatchSteps(s: Slot, steps: seq<Step>, more: seq<Step>)
    requires DispatchSteps(s, steps) && DispatchSteps(s, more)
    ensures DispatchSteps(s, steps + more)
  {
  }
}
