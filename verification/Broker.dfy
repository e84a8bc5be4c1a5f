/** The in-memory broker's calls (internal/broker: dispatch.go, redelivery.go, broker.go, dlq.go,
    helper.go), each proved to be a stretch of steps of the state machine.

    What the environment decides is chosen freely where the source meets it: the clock, whether a
    consumer's queue has room, whether an append succeeds, the order of iteration over a map. */
module Broker {
  import opened Common
  import opened Backoff
  import opened Records
  import opened PartitionLog
  import opened BrokerState
  import opened WalReplay
  import opened Calls
  import opened CallFacts
  import opened Rounds
  import I = Idempotency
  import BrokerRuns
  import Glob

  class InMemoryBroker {
    const cfg: Config
    const env: Env
    var topics: map<string, Topic>
    var slots: map<Slot, SlotState>
    var groups: set<GroupId>
    var consumers: map<GroupId, seq<Consumer>>
    var items: I.Items
    var wal: seq<WalRecord>
    var cursors: map<GroupId, nat>

    function View(): State
      reads this
    {
      State(topics, slots, groups, consumers, items, wal)
    }

    ghost predicate Valid()
      reads this
    {
      WalInv(cfg, View()) && LeasesSet(consumers)
    }

    /** An operation of the idempotency store, with its record in the log. */
    method Perform(op: I.Op) returns (reply: I.Reply)
      requires Paired(View()) && Enabled(cfg, View(), Idem(op))
      modifies this`items, this`wal
      ensures View() == Apply(cfg, old(View()), Idem(op)) && reply == I.Do(old(items), cfg.ttl, op).reply
    {
      hide I.Do;
      var e := I.Do(items, cfg.ttl, op);
      items := e.items;
      if e.logged.Some? {
        wal := wal + [IdemRecord(e.logged.value)];
      }
      reply := e.reply;
    }

    /** The cursor starts at the first message after the committed offset. */
    method InitCursor(s: Slot)
      requires Valid() && Known(View(), s) && At(View(), s).next.None?
      modifies this`slots
      ensures Paired(old(View())) && Enabled(cfg, old(View()), Init(s)) && View() == Apply(cfg, old(View()), Init(s))
      ensures At(View(), s).next.Some? && At(View(), s).next.value <= |LogOf(View(), s)|
      ensures forall o :: 0 <= o < |LogOf(View(), s)| ==>
                (At(View(), s).next.value <= o <==> LogOf(View(), s)[o].offset > old(At(View(), s).committed))
    {
      hide WalInv, Paired, Known;
      InvPaired(cfg, View());
      LogFacts(cfg, View(), s);
      var ss := At(View(), s);
      var idx := FirstAfter(LogOf(View(), s), ss.committed);
      InitFacts(cfg, View(), s, idx);
      hide Enabled, Apply;
      slots := slots[s := ss.(next := Some(idx), start := idx)];
    }

    /** Looks for a leasing consumer, from the round-robin position on, that can have the keyed
        message. */
    method PickLeased(s: Slot, m: Message, start: nat) returns (pick: Pick, ghost steps: seq<Step>)
      requires Valid() && Known(View(), s) && Keyed(m) && start < |Streams(View(), s)|
      modifies this`items, this`wal, this`cursors
      ensures Valid() && Takes(cfg, old(View()), steps, View()) && DispatchSteps(s, steps)
      ensures DoneFor(View(), s, m) <==> DoneFor(old(View()), s, m)
      ensures pick == Already ==> DoneFor(View(), s, m)
      ensures pick.Chosen? ==>
                && pick.index < |Streams(View(), s)| && Streams(View(), s)[pick.index].lease > 0
                && Leased(View(), s, m, Streams(View(), s)[pick.index].owner) && !DoneFor(View(), s, m)
      ensures pick.Nobody? ==> Sought(Streams(View(), s), ConsumeKey(s, m), steps, pick.fallback.None?)
      ensures pick.Nobody? && pick.fallback.Some? ==>
                pick.fallback.value < |Streams(View(), s)| && Streams(View(), s)[pick.fallback.value].lease == 0
      ensures pick.Nobody? ==> NoneHolds(View(), s, m, pick.fallback.None?)
      ensures pick.Refused? ==> LogRefuses(env) || OddLeases(Streams(View(), s))
    {
      hide WalInv, Enabled, Apply, Takes, DoneFor, Leased, LeasesSet, DispatchSteps, Paired, Sought, Tried, HeldFrom;
      var chans, gid := Streams(View(), s), GroupId(s.topic, s.group);
      steps := [];
      TakesNone(cfg, View());
      NoDispatchSteps(s);
      var fallback: Option<nat> := None;
      var tries := 0;
      while tries < |chans|
        invariant WalInv(cfg, View()) && Takes(cfg, old(View()), steps, View()) && DispatchSteps(s, steps)
        invariant DoneFor(View(), s, m) <==> DoneFor(old(View()), s, m)
        invariant fallback.Some? ==> fallback.value < |chans| && chans[fallback.value].lease == 0
        invariant forall u: nat :: u < tries ==>
                  Tried(chans, ConsumeKey(s, m), steps, fallback.Some?, Nth(start, u, |chans|))
        invariant forall u: nat :: u < tries ==> Passed(View(), s, m, chans, fallback.Some?, Nth(start, u, |chans|))
      {
        var i := Nth(start, tries, |chans|);
        var cand := chans[i];
        ghost var before := View();
        if cand.lease == 0 {
          ghost var had := fallback.Some?;
          if fallback.None? {
            fallback := Some(i);
          }
          NextTried(chans, ConsumeKey(s, m), steps, [], had, true, start, tries);
          NextPassed(before, View(), s, m, chans, had, true, start, tries);
        } else {
          var reply, asking := AskLease(s, m, cand, cand.lease, old(View()), steps);
          if reply.Granted? {
            LeasePositive(consumers, gid, i);
            cursors := cursors[gid := (i + 1) % |chans|];
            return Chosen(i), asking;
          } else if reply.AlreadyDone? {
            cursors := cursors[gid := (i + 1) % |chans|];
            return Already, asking;
          } else if !reply.LeaseHeld? {
            return Refused(reply), asking;
          }
          NextTried(chans, ConsumeKey(s, m), steps, asking[|steps|..], fallback.Some?, fallback.Some?, start, tries);
          NextPassed(before, View(), s, m, chans, fallback.Some?, fallback.Some?, start, tries);
          steps := asking;
        }
        tries := tries + 1;
      }
      AllTried(chans, ConsumeKey(s, m), steps, fallback.Some?, start);
      AllPassed(View(), s, m, chans, fallback.Some?, start);
      return Nobody(fallback), steps;
    }

    /** ConsumeBeginLease for one candidate. */
    method AskLease(s: Slot, m: Message, cand: Consumer, lease: int, ghost start: State, ghost steps: seq<Step>)
      returns (reply: I.Reply, ghost steps': seq<Step>)
      requires Valid() && Known(View(), s) && Keyed(m) && Takes(cfg, start, steps, View()) && DispatchSteps(s, steps)
      modifies this`items, this`wal
      ensures Valid() && Takes(cfg, start, steps', View()) && DispatchSteps(s, steps')
      ensures |steps'| == |steps| + 1 && steps' == steps + steps'[|steps|..]
              && Asked(steps'[|steps|..], ConsumeKey(s, m), cand.owner)
      ensures DoneFor(View(), s, m) <==> DoneFor(old(View()), s, m)
      ensures reply.AlreadyDone? ==> DoneFor(View(), s, m)
      ensures reply.Granted? ==> Leased(View(), s, m, cand.owner) && !DoneFor(View(), s, m)
      ensures reply.LeaseHeld? ==> HeldFrom(View(), s, m, cand.owner) && SameItem(old(View()), View(), s, m)
      ensures reply.Granted? || reply.AlreadyDone? || reply.LeaseHeld? || !I.ValidLease(lease) || LogRefuses(env)
    {
      hide WalInv, Enabled, Apply, Takes, DoneFor, Leased, LeasesSet, DispatchSteps, Paired, Asked, HeldFrom;
      var now: int, moment: int := *, *;
      var logOk := !env.refuses(moment);
      var op := I.OpBeginLease(ConsumeKey(s, m), cand.owner, lease, now, logOk);
      InvPaired(cfg, View());
      BeginFacts(cfg, View(), s, m, cand.owner, lease, now, logOk);
      TakesOne(cfg, View(), Idem(op));
      TakesOneMore(cfg, start, steps, View(), Idem(op));
      reply := Perform(op);
      TakesKeepsInv(cfg, old(View()), [Idem(op)], View());
      steps' := steps + [Idem(op)];
      assert steps'[|steps|..] == [] + [Idem(op)];
      AskedNow([], op);
      MoreDispatchSteps(s, steps, Idem(op));
    }

    /** The message at the cursor is done already: the group moves past it. */
    method SkipHead(s: Slot)
      requires Paired(View()) && HasHead(View(), s) && DoneFor(View(), s, Head(View(), s))
      modifies this`slots, this`groups
      ensures Enabled(cfg, old(View()), Skip(s)) && View() == Apply(cfg, old(View()), Skip(s))
      ensures At(View(), s).next == Some(old(At(View(), s).next.value) + 1)
    {
      SkipFacts(cfg, View(), s);
      hide Enabled, Apply, Paired, DoneFor;
      slots, groups := slots[s := Pass(At(View(), s), Head(View(), s).offset, SkippedDone)],
        groups + {GroupId(s.topic, s.group)};
    }

    /** Queues the message at the cursor to a consumer, if its queue has room. */
    method Deliver(s: Slot, index: nat) returns (turn: Turn, ghost steps: seq<Step>)
      requires Valid() && HasHead(View(), s) && index < |Streams(View(), s)|
      requires !DoneFor(View(), s, Head(View(), s))
      requires Streams(View(), s)[index].lease > 0 ==>
                Leased(View(), s, Head(View(), s), Streams(View(), s)[index].owner)
      modifies this`slots, this`groups
      ensures Takes(cfg, old(View()), steps, View()) && DispatchSteps(s, steps)
      ensures turn.Sent? || turn.QueueFull? || turn.FlightFull?
      ensures turn.Sent? <==> steps != []
      ensures turn.Sent? ==> SentTo(s, Streams(old(View()), s)[index], steps)
      ensures turn.QueueFull? ==> QueuesFill(env)
      ensures At(View(), s).next == Some(old(At(View(), s).next.value) + (if turn.Sent? then 1 else 0))
      ensures turn.FlightFull? ==> cfg.maxInFlight > 0 && |At(View(), s).inflight| >= cfg.maxInFlight
    {
      hide WalInv, DoneFor, Leased, Takes, Paired, Enabled, Apply;
      InvPaired(cfg, View());
      TakesNone(cfg, View());
      var cs, m, ss := Streams(View(), s)[index], Head(View(), s), At(View(), s);
      if cs.lease > 0 {
        turn, steps := DeliverLeased(s, index);
        return;
      }
      LeaseZero(consumers, GroupId(s.topic, s.group), index);
      var moment: int := *;
      if env.full(moment) {
        return QueueFull, [];
      }
      SimpleFacts(cfg, View(), s, index);
      TakesOne(cfg, View(), SendSimple(s));
      slots, groups := slots[s := Pass(ss, m.offset, AutoCommitted)], groups + {GroupId(s.topic, s.group)};
      return Sent, [SendSimple(s)];
    }

    /** To a leasing consumer: the entry goes in flight first and comes out again if the queue is
        full. */
    method DeliverLeased(s: Slot, index: nat) returns (turn: Turn, ghost steps: seq<Step>)
      requires Valid() && HasHead(View(), s) && index < |Streams(View(), s)| && Streams(View(), s)[index].lease > 0
      requires !DoneFor(View(), s, Head(View(), s))
               && Leased(View(), s, Head(View(), s), Streams(View(), s)[index].owner)
      modifies this`slots
      ensures Takes(cfg, old(View()), steps, View()) && DispatchSteps(s, steps)
      ensures turn.Sent? || turn.QueueFull? || turn.FlightFull?
      ensures turn.Sent? <==> steps != []
      ensures turn.Sent? ==> SentTo(s, Streams(old(View()), s)[index], steps)
      ensures turn.QueueFull? ==> QueuesFill(env)
      ensures At(View(), s).next == Some(old(At(View(), s).next.value) + (if turn.Sent? then 1 else 0))
      ensures turn.FlightFull? ==> cfg.maxInFlight > 0 && |At(View(), s).inflight| >= cfg.maxInFlight
    {
      hide WalInv, LeasesSet, DoneFor, Leased, Takes, Paired, Enabled, Apply;
      InvPaired(cfg, View());
      HeadFacts(cfg, View(), s);
      TakesNone(cfg, View());
      var owner, m, ss := Streams(View(), s)[index].owner, Head(View(), s), At(View(), s);
      if cfg.maxInFlight > 0 && |ss.inflight| >= cfg.maxInFlight {
        return FlightFull, [];
      }
      var now: int, moment: int := *, *;
      SendFacts(cfg, View(), s, index, now);
      TakesOne(cfg, View(), Send(s, owner, now));
      slots := slots[s := Launch(ss, m, owner, now)];
      if env.full(moment) {
        UndoRestores(ss, m, owner, now);
        slots := slots[s := Undo(slots[s], m.offset)];
        assert slots == old(slots);
        return QueueFull, [];
      }
      return Sent, [Send(s, owner, now)];
    }

    /** Records a message's last error, in memory and, if the append succeeds, in the log. */
    method Record(s: Slot, offset: int, text: string, inEntry: bool, logged: bool)
      requires Paired(View()) && Known(View(), s) && 0 <= offset < |LogOf(View(), s)|
      modifies this`slots, this`wal
      ensures Enabled(cfg, old(View()), Note(s, offset, text, inEntry, logged))
      ensures View() == Apply(cfg, old(View()), Note(s, offset, text, inEntry, logged))
      ensures At(View(), s) == NoteSlot(old(At(View(), s)), offset, text, inEntry)
    {
      NoteFacts(cfg, View(), s, offset, text, inEntry, logged);
      hide Enabled, Apply, Paired;
      slots := slots[s := NoteSlot(At(View(), s), offset, text, inEntry)];
      if logged {
        wal := wal + [RetryRecord(s, offset, text)];
      }
    }

    /** One round of dispatch: the message at the cursor of one group and partition. */
    method DispatchHead(s: Slot) returns (turn: Turn, ghost steps: seq<Step>)
      requires Valid() && HasHead(View(), s) && Streams(View(), s) != []
      modifies this`slots, this`groups, this`items, this`wal, this`cursors
      ensures Valid() && Takes(cfg, old(View()), steps, View()) && DispatchSteps(s, steps)
      ensures At(View(), s).next == Some(old(At(View(), s).next.value) + (if turn.Skipped? || turn.Sent? then 1 else 0))
      ensures turn.FlightFull? ==> cfg.maxInFlight > 0 && |At(View(), s).inflight| >= cfg.maxInFlight
      ensures turn.NotLeased? ==> Keyed(old(Head(View(), s)))
                                  && SoughtInVain(Streams(View(), s), s, old(Head(View(), s)), steps)
                                  && Unavailable(env, View(), s, old(Head(View(), s)))
      ensures turn.QueueFull? ==> QueuesFill(env)
      ensures old(!Keyed(Head(View(), s))) ==>
                var gid := GroupId(s.topic, s.group);
                TakenInTurn(s, Streams(old(View()), s), old(CursorOf(gid)), CursorOf(gid), turn, steps)
    {
      hide WalInv, DoneFor, Leased, Takes, Paired, Enabled, Apply, LeasesSet, Keyed, SoughtInVain, Unavailable, SentTo;
      var m, gid := Head(View(), s), GroupId(s.topic, s.group);
      var n := |Streams(View(), s)|;
      if !Keyed(m) {
        PlainFacts(View(), s, m);
        var index := CursorOf(gid) % n;
        cursors := cursors[gid := (index + 1) % n];
        turn, steps := Deliver(s, index);
      } else {
        turn, steps := DispatchKeyed(s);
      }
      TakesKeepsInv(cfg, old(View()), steps, View());
    }

    function CursorOf(gid: GroupId): nat
      reads this
    {
      if gid in cursors then cursors[gid] else 0
    }

    /** ConsumeCheck: is the message's work recorded as done for the group? */
    method CheckDone(s: Slot, m: Message) returns (done: bool, ghost steps: seq<Step>)
      requires Valid() && Known(View(), s)
      modifies this`items, this`wal
      ensures Valid() && Takes(cfg, old(View()), steps, View()) && DispatchSteps(s, steps)
      ensures done <==> DoneFor(View(), s, m)
      ensures DoneFor(View(), s, m) <==> DoneFor(old(View()), s, m)
    {
      hide WalInv, DoneFor, Takes, Paired, Enabled, Apply, LeasesSet;
      InvPaired(cfg, View());
      var now: int := *;
      var check := I.OpCheck(ConsumeKey(s, m), now);
      CheckFacts(cfg, View(), s, m, now);
      TakesOne(cfg, View(), Idem(check));
      var _ := Perform(check);
      steps := [Idem(check)];
      TakesKeepsInv(cfg, old(View()), steps, View());
      done := DoneFor(View(), s, m);
    }

    /** The same for a message with an idempotency key: skipped if its work is done, otherwise
        leased to the consumer it is queued to. */
    method DispatchKeyed(s: Slot) returns (turn: Turn, ghost steps: seq<Step>)
      requires Valid() && HasHead(View(), s) && Streams(View(), s) != [] && Keyed(Head(View(), s))
      modifies this`slots, this`groups, this`items, this`wal, this`cursors
      ensures Takes(cfg, old(View()), steps, View()) && DispatchSteps(s, steps)
      ensures At(View(), s).next == Some(old(At(View(), s).next.value) + (if turn.Skipped? || turn.Sent? then 1 else 0))
      ensures turn.NotLeased? ==> SoughtInVain(Streams(View(), s), s, old(Head(View(), s)), steps)
                                  && Unavailable(env, View(), s, old(Head(View(), s)))
      ensures turn.FlightFull? ==> cfg.maxInFlight > 0 && |At(View(), s).inflight| >= cfg.maxInFlight
      ensures turn.QueueFull? ==> QueuesFill(env)
    {
      hide WalInv, DoneFor, Leased, Takes, Paired, Enabled, Apply, LeasesSet, Keyed, DispatchSteps, Sought, NoneHolds;
      var m := Head(View(), s);
      var done, checking := CheckDone(s, m);
      ghost var checked := View();
      if done {
        InvPaired(cfg, View());
        SkipHead(s);
        TakesOneMore(cfg, old(View()), checking, checked, Skip(s));
        MoreDispatchSteps(s, checking, Skip(s));
        return Skipped, checking + [Skip(s)];
      }
      var start := CursorOf(GroupId(s.topic, s.group)) % |Streams(View(), s)|;
      var pick, picking := PickLeased(s, m, start);
      TakesMore(cfg, old(View()), checking, checked, picking, View());
      ghost var picked := View();
      ghost var rest;
      turn, rest := UsePick(s, pick);
      if turn.NotLeased? {
        StillUnavailable(env, picked, View(), s, m);
      }
      TakesMore(cfg, old(View()), checking + picking, picked, rest, View());
      steps := checking + picking + rest;
      JoinDispatchSteps(s, checking, picking);
      JoinDispatchSteps(s, checking + picking, rest);
      if pick == Nobody(None) {
        SoughtStill(Streams(View(), s), ConsumeKey(s, m), checking, picking, true);
        assert turn.NotLeased? ==> steps == checking + picking;
      } else if turn.NotLeased? {
        NotedOne(Streams(View(), s), s, m, rest);
        InVainAfter(Streams(View(), s), s, m, checking + picking, rest);
      }
    }

    /** What dispatch makes of the search. */
    method UsePick(s: Slot, pick: Pick) returns (turn: Turn, ghost steps: seq<Step>)
      requires Valid() && HasHead(View(), s) && Streams(View(), s) != []
      requires pick == Already <==> DoneFor(View(), s, Head(View(), s))
      requires pick.Chosen? ==>
                pick.index < |Streams(View(), s)|
                  && Leased(View(), s, Head(View(), s), Streams(View(), s)[pick.index].owner)
      requires pick.Nobody? && pick.fallback.Some? ==>
                 pick.fallback.value < |Streams(View(), s)| && Streams(View(), s)[pick.fallback.value].lease == 0
      modifies this`slots, this`groups, this`wal, this`cursors
      ensures Takes(cfg, old(View()), steps, View()) && DispatchSteps(s, steps)
      ensures At(View(), s).next == Some(old(At(View(), s).next.value) + (if turn.Skipped? || turn.Sent? then 1 else 0))
      ensures turn.NotLeased? ==>
                if pick == Nobody(None) then steps == []
                else (
                  && |steps| == 1 && steps[0].Note?
                  && steps[0].slot == s && steps[0].offset == old(Head(View(), s).offset))
      ensures turn.FlightFull? ==> cfg.maxInFlight > 0 && |At(View(), s).inflight| >= cfg.maxInFlight
      ensures turn.NotLeased? ==> pick == Nobody(None) || pick.Refused?
      ensures turn.QueueFull? ==> QueuesFill(env)
    {
      hide WalInv, DoneFor, Leased, Takes, Paired, Enabled, Apply, LeasesSet, SentTo, QueuesFill, Keyed;
      InvPaired(cfg, View());
      TakesNone(cfg, View());
      var gid := GroupId(s.topic, s.group);
      match pick
      case Refused(reply) =>
        HeadFacts(cfg, View(), s);
        var moment: int := *;
        var logged := !env.refuses(moment);
        var offset, text := Head(View(), s).offset, "idem_begin_failed: " + ReplyText(reply);
        Record(s, offset, text, false, logged);
        TakesOne(cfg, old(View()), Note(s, offset, text, false, logged));
        return NotLeased, [Note(s, offset, text, false, logged)];
      case Already =>
        SkipHead(s);
        TakesOne(cfg, old(View()), Skip(s));
        return Skipped, [Skip(s)];
      case Chosen(index) =>
        turn, steps := Deliver(s, index);
      case Nobody(fallback) =>
        if fallback.None? {
          return NotLeased, [];
        }
        cursors := cursors[gid := (fallback.value + 1) % |Streams(View(), s)|];
        turn, steps := Deliver(s, fallback.value);
    }

    /** The dispatch loop for one group and partition. */
    method DispatchSlot(s: Slot) returns (turn: Turn, ghost steps: seq<Step>)
      requires Valid() && Known(View(), s) && Streams(View(), s) != []
      modifies this`slots, this`groups, this`items, this`wal, this`cursors
      ensures Valid() && Takes(cfg, old(View()), steps, View()) && DispatchSteps(s, steps)
      ensures turn != QueueFull ==> Quiet(cfg, View(), s, steps)
      ensures Rests(cfg, env, View(), s, turn)
    {
      hide WalInv, Takes, Paired, Enabled, Apply, LeasesSet, Keyed, SoughtInVain, Unavailable, TakenInTurn;
      TakesNone(cfg, View());
      steps := [];
      if At(View(), s).next.None? {
        ghost var before := View();
        InitCursor(s);
        TakesOneMore(cfg, old(View()), steps, before, Init(s));
        InitStarts(cfg, before, s);
        steps := steps + [Init(s)];
        TakesKeepsInv(cfg, old(View()), steps, View());
      }
      var n := |LogOf(View(), s)|;
      turn := Sent;
      while At(View(), s).next.value < n
        invariant Valid() && Takes(cfg, old(View()), steps, View()) && DispatchSteps(s, steps)
        invariant At(View(), s).next.Some?
        invariant turn.Sent?
        decreases n - At(View(), s).next.value
      {
        ghost var before := View();
        ghost var m := Head(View(), s);
        ghost var more;
        turn, more := DispatchHead(s);
        TakesMore(cfg, old(View()), steps, before, more, View());
        ghost var joined := steps;
        steps := steps + more;
        if turn.QueueFull? {
          return;
        } else if turn.FlightFull? || turn.NotLeased? {
          assert Head(View(), s) == m;
          if turn.NotLeased? {
            InVainAfter(Streams(View(), s), s, m, joined, more);
          }
          return;
        }
        turn := Sent;
      }
    }

    /** Dispatch for one group: all partitions of the topic, or the one asked for.  The groups that
        had their turn before stay quiet. */
    method DispatchGroup(gid: GroupId, only: Option<nat>, ghost others: set<GroupId>, ghost earlier: seq<Step>)
      returns (full: bool, ghost steps: seq<Step>)
      requires Valid() && gid in consumers && consumers[gid] != [] && gid.topic in topics && gid !in others
      requires forall g :: g in others && g in consumers ==>
                 QuietUpTo(cfg, View(), g, only, |topics[gid.topic].logs|, earlier)
      modifies this`slots, this`groups, this`items, this`wal, this`cursors
      ensures Valid() && Takes(cfg, old(View()), steps, View()) && TopicSteps(gid.topic, only, steps)
      ensures !full ==> QuietUpTo(cfg, View(), gid, only, |topics[gid.topic].logs|, earlier + steps)
      ensures full ==> QueuesFill(env)
      ensures forall g :: g in others && g in consumers ==>
                QuietUpTo(cfg, View(), g, only, |topics[gid.topic].logs|, earlier + steps)
    {
      hide WalInv, Takes, Paired, DispatchSteps, TopicSteps, Quiet, Unavailable;
      TakesNone(cfg, View());
      steps := [];
      NoTopicSteps(gid.topic, only);
      var n := |topics[gid.topic].logs|;
      assert earlier + [] == earlier;
      for p := 0 to n
        invariant Valid() && Takes(cfg, old(View()), steps, View()) && TopicSteps(gid.topic, only, steps)
        invariant QuietUpTo(cfg, View(), gid, only, p, earlier + steps)
        invariant forall g :: g in others && g in consumers ==> QuietUpTo(cfg, View(), g, only, n, earlier + steps)
      {
        if only.None? || only.value == p {
          ghost var before, taken := View(), earlier + steps;
          var s := Slot(gid.topic, gid.group, p);
          var turn, more := DispatchSlot(s);
          TakesMore(cfg, old(View()), steps, before, more, View());
          SlotStepsAreTopicSteps(s, only, steps, more);
          assert earlier + (steps + more) == taken + more;
          steps := steps + more;
          QuietStays(cfg, before, s, more, View(), gid, only, p, taken);
          forall g | g in others && g in consumers
            ensures QuietUpTo(cfg, View(), g, only, n, taken + more)
          {
            QuietStays(cfg, before, s, more, View(), g, only, n, taken);
          }
          if turn.QueueFull? {
            return true, steps;
          }
          QuietLonger(cfg, View(), s, taken, more, []);
          assert taken + more + [] == taken + more;
        }
      }
      return false, steps;
    }

    /** dispatchFilteredLocked: for every group with consumers, in any order, until a consumer's
        queue is full. */
    method Dispatch(topic: string, only: Option<nat>) returns (full: bool, ghost steps: seq<Step>)
      requires Valid()
      modifies this`slots, this`groups, this`items, this`wal, this`cursors
      ensures Valid() && Takes(cfg, old(View()), steps, View()) && TopicSteps(topic, only, steps)
      ensures !full && topic in topics ==>
                forall g :: g in consumers && g.topic == topic && consumers[g] != [] ==>
                  QuietUpTo(cfg, View(), g, only, |topics[topic].logs|, steps)
      ensures full ==> QueuesFill(env)
    {
      hide WalInv, Takes, Paired, TopicSteps, QuietUpTo, LeasesSet;
      TakesNone(cfg, View());
      NoTopicSteps(topic, only);
      steps := [];
      if topic !in topics {
        return false, steps;
      }
      var todo := set g | g in consumers && g.topic == topic && consumers[g] != [];
      ghost var served: set<GroupId> := {};
      while todo != {}
        invariant Valid() && Takes(cfg, old(View()), steps, View()) && TopicSteps(topic, only, steps)
        invariant forall g :: g in consumers && g.topic == topic && consumers[g] != [] ==> g in todo || g in served
        invariant forall g :: g in todo ==> g in consumers && g.topic == topic && consumers[g] != [] && g !in served
        invariant forall g :: g in served && g in consumers ==>
                  QuietUpTo(cfg, View(), g, only, |topics[topic].logs|, steps)
        decreases todo
      {
        ghost var before := View();
        var gid :| gid in todo;
        var stop, more := DispatchGroup(gid, only, served, steps);
        TakesMore(cfg, old(View()), steps, before, more, View());
        MoreTopicSteps(topic, only, steps, more);
        steps := steps + more;
        if stop {
          return true, steps;
        }
        todo, served := todo - {gid}, served + {gid};
      }
      return false, steps;
    }

    // Topics

    /** CreateTopicWithConfig: in memory first, taken back if the append fails. */
    method CreateTopic(name: string, partitions: int) returns (err: Option<Error>, ghost steps: seq<Step>)
      requires Valid()
      modifies this`topics, this`wal
      ensures Valid() && Takes(cfg, old(View()), steps, View())
      ensures err.Some? ==> View() == old(View()) && steps == []
      ensures err.None? ==>
                && partitions > 0 && steps == [BrokerState.CreateTopic(name, partitions, true)]
                && topics.Keys == old(topics).Keys + {name} && |topics[name].logs| == partitions
                && (forall p :: 0 <= p < partitions ==> topics[name].logs[p] == [])
                && (forall t :: t in old(topics) ==> topics[t] == old(topics)[t])
      ensures if name == "" then err == Some(EmptyName)
              else if partitions <= 0 then err == Some(NoPartition)
              else if name in old(topics) then err == Some(TopicExists)
              else err.None? || (err == Some(LogFailed) && LogRefuses(env))
    {
      hide WalInv, Takes, LeasesSet, Enabled, Apply, Paired;
      TakesNone(cfg, View());
      if name == "" {
        return Some(EmptyName), [];
      }
      if partitions <= 0 {
        return Some(NoPartition), [];
      }
      if name in topics {
        return Some(TopicExists), [];
      }
      InvPaired(cfg, View());
      CreateFacts(cfg, View(), name, partitions);
      var step := BrokerState.CreateTopic(name, partitions, true);
      TakesOne(cfg, View(), step);
      topics := topics[name := NewTopic(partitions)];
      var moment: int := *;
      if env.refuses(moment) {
        topics := topics - {name};
        assert topics == old(topics);
        return Some(LogFailed), [];
      }
      wal := wal + [TopicRecord(name, partitions)];
      TakesKeepsInv(cfg, old(View()), [step], View());
      return None, [step];
    }

    // Producing

    /** slowestAckLocked. */
    method SlowestAck(topic: string, partition: nat) returns (slowest: int)
      ensures IsSlowest(View(), topic, partition, slowest) && LeastCommitted(View(), topic, partition, slowest)
    {
      var todo := set g | g in groups && g.topic == topic;
      if todo == {} {
        forall g | g in groups
          ensures g.topic != topic
        {
          assert g.topic == topic ==> g in todo;
        }
        return -1;
      }
      ghost var all := todo;
      var seen := false;
      slowest := 0x7fff_ffff_ffff_ffff;
      while todo != {}
        invariant todo <= all && (seen <==> todo != all)
        invariant seen ==> exists g :: g in all && At(View(), Slot(topic, g.group, partition)).committed == slowest
        invariant forall g :: g in all && g !in todo ==>
                  slowest <= At(View(), Slot(topic, g.group, partition)).committed
        decreases todo
      {
        var g :| g in todo;
        var off := At(View(), Slot(topic, g.group, partition)).committed;
        if !seen || off < slowest {
          slowest, seen := off, true;
        }
        todo := todo - {g};
      }
      assert exists g :: g in all && At(View(), Slot(topic, g.group, partition)).committed == slowest;
    }

    /** The checks of produceLocked before the append: where the message goes and whether the
        partition has room.  `hash` stands for the hash of the key. */
    method Admission(topic: string, m: Message, hash: nat) returns (err: Option<Error>, part: nat, slowest: int)
      requires Valid()
      ensures err.None? ==>
                && topic != "" && Exists(View(), topic, part) && Slowest(cfg, View(), topic, part, slowest)
                && Admits(cfg, topics[topic].logs[part], m, slowest)
      ensures Placeable(View(), topic, m) ==>
                && Exists(View(), topic, part) && Slowest(cfg, View(), topic, part, slowest)
                && (cfg.maxMsgs > 0 || cfg.maxBytes > 0 ==> LeastCommitted(View(), topic, part, slowest))
                && part == (if m.envelope.Some? && m.envelope.value.partitionOverride.Some?
                            then m.envelope.value.partitionOverride.value else hash % |topics[topic].logs|)
                && (err.None? <==> Room(cfg, topics[topic].logs[part], m, slowest))
                && (err.Some? ==> err == Some(BufferFull) || err == Some(BytesFull))
                && (err == Some(BufferFull) <==>
                    cfg.maxMsgs > 0 && CountAfter(topics[topic].logs[part], slowest) >= cfg.maxMsgs)
      ensures !Placeable(View(), topic, m) ==>
                err == Some(if topic == "" then EmptyName else if topic !in topics then NoTopic
                            else if topics[topic].logs == [] then NoPartition else BadOverride)
    {
      hide WalInv, IsSlowest, LeastCommitted;
      part, slowest := 0, -1;
      if topic == "" {
        return Some(EmptyName), part, slowest;
      }
      if topic !in topics {
        return Some(NoTopic), part, slowest;
      }
      var n := |topics[topic].logs|;
      if n <= 0 {
        return Some(NoPartition), part, slowest;
      }
      part := hash % n;
      if m.envelope.Some? && m.envelope.value.partitionOverride.Some? {
        var po := m.envelope.value.partitionOverride.value;
        if po < 0 || po >= n {
          return Some(BadOverride), part, slowest;
        }
        part := po;
      }
      if cfg.maxMsgs > 0 || cfg.maxBytes > 0 {
        slowest := SlowestAck(topic, part);
      }
      SumFacts(cfg, View(), topic, part);
      CountsAgree(topics[topic].logs[part], slowest);
      if cfg.maxMsgs > 0 && BufferedCount(topics[topic].logs[part], slowest) >= cfg.maxMsgs {
        return Some(BufferFull), part, slowest;
      }
      if cfg.maxBytes > 0 {
        var bytes := BufferedBytesCount(topics[topic].logs[part], topics[topic].sums[part], slowest);
        if bytes + |m.key| + |m.value| >= cfg.maxBytes {
          return Some(BytesFull), part, slowest;
        }
      }
      return None, part, slowest;
    }

    /** produceLocked: the record goes to the log first, then the message to its partition, then
        dispatch delivers what it can. */
    method ProduceLocked(topic: string, m: Message, hash: nat)
      returns (err: Option<Error>, part: nat, slowest: int, ghost steps: seq<Step>)
      requires Valid()
      modifies this`topics, this`slots, this`groups, this`items, this`wal, this`cursors
      ensures Valid() && Takes(cfg, old(View()), steps, View())
      ensures err.Some? ==> View() == old(View()) && steps == []
      ensures err.None? ==>
                && steps != [] && steps[0] == Produce(topic, part, m, slowest, true)
                  && TopicSteps(topic, Some(part), steps[1..])
                && old(Exists(View(), topic, part)) && Exists(View(), topic, part)
                && var log := old(topics[topic].logs)[part];
                topics[topic].logs[part] == log + [m.(partition := part, offset := |log|)]
      ensures err.None? ==> Dispatched(cfg, env, View(), topic, part, steps)
      ensures err.None? ==>
                topics.Keys == old(topics).Keys
                && forall t, p: nat :: t in topics && (t != topic || p != part) ==>
                     LogIn(topics, t, p) == LogIn(old(topics), t, p)
      ensures old(Placeable(View(), topic, m)) ==>
                && old(Exists(View(), topic, part))
                && (cfg.maxMsgs > 0 || cfg.maxBytes > 0 ==> LeastCommitted(old(View()), topic, part, slowest))
                && part == (if m.envelope.Some? && m.envelope.value.partitionOverride.Some?
                            then m.envelope.value.partitionOverride.value else hash % |old(topics)[topic].logs|)
                && if Room(cfg, old(topics)[topic].logs[part], m, slowest)
                   then err.None? || (err == Some(LogFailed) && LogRefuses(env))
                   else err == Some(BufferFull) || err == Some(BytesFull)
      ensures !old(Placeable(View(), topic, m)) ==>
                err == Some(if topic == "" then EmptyName else if topic !in topics then NoTopic
                            else if topics[topic].logs == [] then NoPartition else BadOverride)
    {
      hide WalInv, Slowest, Admits, Takes, TopicSteps, LeasesSet, Enabled, Apply, Paired, Placeable, Room,
        LeastCommitted, Dispatched, QuietUpTo;
      TakesNone(cfg, View());
      err, part, slowest := Admission(topic, m, hash);
      steps := [];
      if err.Some? {
        return;
      }
      var moment: int := *;
      if env.refuses(moment) {
        err := Some(LogFailed);
        return;
      }
      AppendMessage(topic, m, part, slowest);
      ghost var step := Produce(topic, part, m, slowest, true);
      ghost var before := View();
      var _, more := Dispatch(topic, Some(part));
      TakesMore(cfg, old(View()), [step], before, more, View());
      TakesTopics(cfg, before, more, View());
      UpToDispatched(cfg, env, View(), topic, part, |topics[topic].logs|, [step], more);
      steps := [step] + more;
    }

    /** The append, and the message at its place. */
    method AppendMessage(topic: string, m: Message, part: nat, ghost slowest: int)
      requires Valid() && topic != "" && Exists(View(), topic, part)
      requires Slowest(cfg, View(), topic, part, slowest) && Admits(cfg, topics[topic].logs[part], m, slowest)
      modifies this`topics, this`wal
      ensures Valid() && Takes(cfg, old(View()), [Produce(topic, part, m, slowest, true)], View())
      ensures Exists(View(), topic, part) && topics.Keys == old(topics).Keys
      ensures var log := old(topics)[topic].logs[part];
              topics[topic].logs[part] == log + [m.(partition := part, offset := |log|)]
      ensures forall t, p: nat :: t in topics && (t != topic || p != part) ==>
                LogIn(topics, t, p) == LogIn(old(topics), t, p)
    {
      hide WalInv, Slowest, Admits, Takes, LeasesSet, Enabled, Apply, Paired;
      InvPaired(cfg, View());
      SumFacts(cfg, View(), topic, part);
      ProduceFacts(cfg, View(), topic, part, m, slowest);
      var step := Produce(topic, part, m, slowest, true);
      TakesOne(cfg, View(), step);
      var t := topics[topic];
      var placed := Placed(m, part, |t.logs[part]|);
      wal := wal + [MessageRecord(ToEntry(topic, placed))];
      topics := topics[topic := AppendTo(t, part, placed)];
      TakesKeepsInv(cfg, old(View()), [step], View());
    }

    // Acknowledging

    /** ackLocked. */
    method AckLocked(topic: string, group: string, partition: nat, offset: nat)
        returns (err: Option<Error>, ghost steps: seq<Step>)
      requires Valid() && topic != "" && group != ""
      modifies this`slots, this`groups, this`items, this`wal, this`cursors
      ensures Valid() && Takes(cfg, old(View()), steps, View())
      ensures err == if topic !in topics then Some(NoTopic)
                     else if partition >= |topics[topic].logs| then Some(NoPartition) else None
      ensures err.Some? ==> View() == old(View()) && steps == []
      ensures err.None? ==>
                && AckShape(Slot(topic, group, partition), offset, steps)
                && At(View(), Slot(topic, group, partition)).committed >= offset
                && Dispatched(cfg, env, View(), topic, partition, steps)
    {
      hide WalInv, Takes, TopicSteps, LeasesSet, Enabled, Apply, Paired, Dispatched, QuietUpTo;
      TakesNone(cfg, View());
      if topic !in topics {
        return Some(NoTopic), [];
      }
      if partition >= |topics[topic].logs| {
        return Some(NoPartition), [];
      }
      var s := Slot(topic, group, partition);
      var step := BrokerState.Ack(s, offset);
      InvPaired(cfg, View());
      AckFacts(cfg, View(), s, offset);
      TakesOne(cfg, View(), step);
      slots, groups := slots[s := AckSlot(At(View(), s), offset)], groups + {GroupId(topic, group)};
      TakesKeepsInv(cfg, old(View()), [step], View());
      ghost var before := View();
      var _, more := Dispatch(topic, Some(partition));
      TakesMore(cfg, old(View()), [step], before, more, View());
      TakesForward(cfg, before, more, View(), s);
      TakesTopics(cfg, before, more, View());
      UpToDispatched(cfg, env, View(), topic, partition, |topics[topic].logs|, [step], more);
      err, steps := None, [step] + more;
      assert steps[1..] == more;
    }

    /** Ack. */
    method Ack(topic: string, group: string, partition: int, offset: int)
        returns (err: Option<Error>, ghost steps: seq<Step>)
      requires Valid()
      modifies this`slots, this`groups, this`items, this`wal, this`cursors
      ensures Valid() && Takes(cfg, old(View()), steps, View())
      ensures err.None? <==> topic != "" && group != "" && offset >= 0 && Exists(View(), topic, partition)
      ensures err.Some? ==> View() == old(View()) && steps == []
      ensures err.None? ==> AckShape(Slot(topic, group, partition), offset, steps)
                            && At(View(), Slot(topic, group, partition)).committed >= offset
                            && Dispatched(cfg, env, View(), topic, partition, steps)
    {
      hide WalInv, Takes, TopicSteps, LeasesSet, Dispatched;
      TakesNone(cfg, View());
      err, steps := ArgumentError(topic, group, partition, offset), [];
      if err.None? {
        err, steps := AckLocked(topic, group, partition, offset);
      }
    }

    /** AckIfOwner.  For a keyed message the lock is free between the commit of the key and the
        acknowledgement, and any other calls may come in between. */
    method AckIfOwner(topic: string, group: string, partition: int, offset: int, owner: string)
      returns (err: Option<Error>, ghost steps: seq<Step>)
      requires Valid()
      modifies this
      ensures Valid() && Takes(cfg, old(View()), steps, View())
      ensures err.None? ==>
                && Argued(topic, group, partition, offset, owner)
                && var s := Slot(topic, group, partition);
                && old(Owns(View(), s, offset, Glob.TrimSpace(owner)))
                && old(At(View(), s).inflight[offset].owner) == Glob.TrimSpace(owner)
                && BrokerState.Ack(s, offset) in steps && At(View(), s).committed >= offset
                && var m := old(At(View(), s).inflight[offset].msg);
                && (Keyed(m) ==> CommittedOrUnknown(cfg, old(View()), s, m, Glob.TrimSpace(owner), steps, View()))
                && Dispatched(cfg, env, View(), topic, partition, steps)
      ensures err.Some? ==> slots == old(slots) && groups == old(groups) && topics == old(topics)
      ensures (Argued(topic, group, partition, offset, owner)
               && var s := Slot(topic, group, partition);
               old(Owns(View(), s, offset, Glob.TrimSpace(owner))) && !Keyed(old(At(View(), s).inflight[offset].msg)))
              ==> err.None? && AckShape(Slot(topic, group, partition), offset, steps)
      ensures (Argued(topic, group, partition, offset, owner)
               && var s := Slot(topic, group, partition);
               old(Owns(View(), s, offset, Glob.TrimSpace(owner))) && Keyed(old(At(View(), s).inflight[offset].msg)))
              ==> var s := Slot(topic, group, partition);
                  MayCommit(env, old(View()), s, old(At(View(), s).inflight[offset].msg), Glob.TrimSpace(owner), steps,
                            err)
    {
      hide WalInv, Takes, LeasesSet, StillOwned, AckShape, CommittedOrUnknown, MayCommit, Dispatched;
      TakesNone(cfg, View());
      var name := Glob.TrimSpace(owner);
      err, steps := ArgumentError(topic, group, partition, offset), [];
      if err.None? && name == "" {
        err := Some(EmptyName);
      }
      if err.None? {
        err, steps := AckOwned(Slot(topic, group, partition), offset, name);
      }
    }

    /** The rest of AckIfOwner. */
    method AckOwned(s: Slot, offset: nat, owner: string) returns (err: Option<Error>, ghost steps: seq<Step>)
      requires Valid() && s.topic != "" && s.group != "" && owner != ""
      modifies this
      ensures Valid() && Takes(cfg, old(View()), steps, View())
      ensures err.None? ==>
                && old(Owns(View(), s, offset, owner))
                && BrokerState.Ack(s, offset) in steps && At(View(), s).committed >= offset
                && var m := old(At(View(), s).inflight[offset].msg);
                && (Keyed(m) ==> CommittedOrUnknown(cfg, old(View()), s, m, owner, steps, View()))
                && Dispatched(cfg, env, View(), s.topic, s.partition, steps)
      ensures err.Some? ==> slots == old(slots) && groups == old(groups) && topics == old(topics)
      ensures old(Owns(View(), s, offset, owner)) && Keyed(old(At(View(), s).inflight[offset].msg)) ==>
                MayCommit(env, old(View()), s, old(At(View(), s).inflight[offset].msg), owner, steps, err)
      ensures old(Owns(View(), s, offset, owner)) && !Keyed(old(At(View(), s).inflight[offset].msg)) ==>
                && err.None? && AckShape(s, offset, steps) && topics == old(topics)
                && StillOwned(old(At(View(), s)), At(View(), s), offset)
    {
      hide WalInv, Takes, TopicSteps, LeasesSet, Enabled, Apply, Paired, Keyed, DoneFor, MayCommit, Dispatched;
      TakesNone(cfg, View());
      if s.topic !in topics {
        return Some(NoTopic), [];
      }
      if s.partition >= |topics[s.topic].logs| {
        return Some(NoPartition), [];
      }
      var inflight := At(View(), s).inflight;
      if offset !in inflight {
        return Some(NotInFlight), [];
      }
      if inflight[offset].owner != owner {
        return Some(NotOwner), [];
      }
      if !Keyed(inflight[offset].msg) {
        err, steps := AckLocked(s.topic, s.group, s.partition, offset);
        AckSteps(s, offset, steps);
        CallOwned(cfg, old(View()), s.topic, Some(s.partition), steps, View(), s, offset);
        return;
      }
      err, steps := AckKeyed(s, offset, inflight[offset].msg, owner);
    }

    /** A keyed message: commits its key, lets go of the lock, and acknowledges.  When it succeeds
        the key is committed, or the store did not know it. */
    method AckKeyed(s: Slot, offset: nat, m: Message, owner: string)
        returns (err: Option<Error>, ghost steps: seq<Step>)
      requires Valid() && Known(View(), s) && Keyed(m)
      modifies this
      ensures Valid() && Takes(cfg, old(View()), steps, View())
      ensures err.None? ==>
                && BrokerState.Ack(s, offset) in steps && At(View(), s).committed >= offset
                && CommittedOrUnknown(cfg, old(View()), s, m, owner, steps, View())
                && Dispatched(cfg, env, View(), s.topic, s.partition, steps)
      ensures err.Some? ==> slots == old(slots) && groups == old(groups) && topics == old(topics)
      ensures MayCommit(env, old(View()), s, m, owner, steps, err)
    {
      hide WalInv, Takes, TopicSteps, LeasesSet, Keyed, DoneFor, NoFlush, I.Runs, Dispatched;
      var reply, committing := CommitKey(s, m, owner);
      if reply.LeaseHeld? {
        return Some(NotOwner), committing;
      }
      if !reply.Done? && !reply.NotFound? {
        return Some(Store(reply)), committing;
      }
      ghost var committed := View();
      ghost var others := OtherCalls(true);
      TakesMore(cfg, old(View()), committing, committed, others, View());
      TakesTopics(cfg, committed, others, View());
      StillKnown(committed, View(), s);
      ghost var before := View();
      ghost var acking;
      err, acking := AckLocked(s.topic, s.group, s.partition, offset);
      TakesMore(cfg, old(View()), committing + others, before, acking, View());
      TakesMore(cfg, committed, others, before, acking, View());
      if reply.Done? {
        TakesKeepsDone(cfg, committed, others + acking, View(), s, m);
      }
      StillDispatched(cfg, env, View(), s.topic, s.partition, committing + others, acking);
      steps := committing + others + acking;
      assert acking[0] in acking && steps[0] == committing[0];
    }

    /** ConsumeCommitIfOwner for the message's key. */
    method CommitKey(s: Slot, m: Message, owner: string) returns (reply: I.Reply, ghost steps: seq<Step>)
      requires Valid() && Known(View(), s) && Keyed(m)
      modifies this`items, this`wal
      ensures Valid() && Takes(cfg, old(View()), steps, View())
      ensures |steps| == 1 && CommitsKey(s, m, owner, steps[0])
      ensures reply == I.Do(old(items), cfg.ttl, steps[0].op).reply
      ensures reply.Done? <==> DoneFor(View(), s, m)
      ensures reply.Done? <==>
                old(DoneFor(View(), s, m))
                || (I.Runs(old(items), ConsumeKey(s, m), I.Named(owner), steps[0].op.now) && steps[0].op.logOk)
      ensures !steps[0].op.logOk ==> LogRefuses(env)
    {
      hide WalInv, Takes, LeasesSet, Enabled, Apply, Paired, Keyed, I.Runs;
      var now: int, moment: int := *, *;
      var logOk := !env.refuses(moment);
      var op := I.OpCommitIfOwner(ConsumeKey(s, m), owner, "", now, logOk);
      InvPaired(cfg, View());
      CommitFacts(cfg, View(), s, m, owner, now, logOk);
      CommitsExactly(cfg, View(), s, m, owner, now, logOk);
      hide DoneFor;
      TakesOne(cfg, View(), Idem(op));
      reply := Perform(op);
      steps := [Idem(op)];
      TakesKeepsInv(cfg, old(View()), steps, View());
    }

    /** AckCumulativeIfOwner: if the owner has everything between the committed offset and this one
        in flight, acknowledges it all, in order.  The lock is free between the check and the
        acknowledgements; the trace tells what came in between. */
    method AckCumulativeIfOwner(topic: string, group: string, partition: int, offset: int, owner: string)
      returns (err: Option<Error>, ghost steps: seq<Step>, ghost trace: Trace)
      requires Valid()
      modifies this
      ensures Valid() && Takes(cfg, old(View()), steps, View())
      ensures err.None? ==>
                && Argued(topic, group, partition, offset, owner)
                && var s := Slot(topic, group, partition);
                && At(View(), s).committed >= offset
                && OwnsRange(old(View()), s, old(At(View(), s).committed) + 1, offset, Glob.TrimSpace(owner))
                && (forall o :: old(At(View(), s).committed) < o <= offset ==>
                      o in old(At(View(), s).inflight) && old(At(View(), s).inflight)[o].owner == Glob.TrimSpace(owner))
      ensures (Argued(topic, group, partition, offset, owner) && old(Exists(View(), topic, partition))
               && offset <= old(At(View(), Slot(topic, group, partition)).committed)) ==>
                err.None?
      ensures (Argued(topic, group, partition, offset, owner)
               && !Checked(old(View()), Slot(topic, group, partition), offset, Glob.TrimSpace(owner))) ==>
                slots == old(slots) && topics == old(topics) && items == old(items)
      ensures Argued(topic, group, partition, offset, owner) ==>
                var s := Slot(topic, group, partition);
                var lo := old(At(View(), s).committed) + 1;
                && (Checked(old(View()), s, offset, Glob.TrimSpace(owner)) ==>
                      Traced(cfg, s, Glob.TrimSpace(owner), Touched(old(View()), s), lo, offset, trace, View(),
                             err.None?))
                && ((Checked(old(View()), s, offset, Glob.TrimSpace(owner)) && PlainRange(old(View()), s, lo, offset)
                     && Alone(trace))
                    ==> err.None?)
    {
      hide WalInv, Takes, LeasesSet, OwnsRange, PlainRange, Traced, Alone;
      TakesNone(cfg, View());
      var name := Glob.TrimSpace(owner);
      err, steps, trace := ArgumentError(topic, group, partition, offset), [], NO_TRACE;
      if err.None? && name == "" {
        err := Some(EmptyName);
      }
      if err.None? {
        ghost var b := View();
        err, steps, trace := AckAllOwned(Slot(topic, group, partition), offset, name);
        RangeOwned(b, Slot(topic, group, partition), At(b, Slot(topic, group, partition)).committed + 1, offset, name);
      }
    }

    /** The rest of it: the check, under the lock. */
    method AckAllOwned(s: Slot, offset: nat, owner: string)
      returns (err: Option<Error>, ghost steps: seq<Step>, ghost trace: Trace)
      requires Valid() && s.topic != "" && s.group != "" && owner != ""
      modifies this
      ensures Valid() && Takes(cfg, old(View()), steps, View())
      ensures err.None? ==> At(View(), s).committed >= offset
      ensures err.None? ==> OwnsRange(old(View()), s, old(At(View(), s).committed) + 1, offset, owner)
      ensures old(Exists(View(), s.topic, s.partition)) && offset <= old(At(View(), s).committed) ==> err.None?
      ensures !Checked(old(View()), s, offset, owner) ==>
                slots == old(slots) && topics == old(topics) && items == old(items)
      ensures Checked(old(View()), s, offset, owner) ==>
                var lo := old(At(View(), s).committed) + 1;
                && Traced(cfg, s, owner, Touched(old(View()), s), lo, offset, trace, View(), err.None?)
                && (PlainRange(old(View()), s, lo, offset) && Alone(trace) ==> err.None?)
    {
      hide WalInv, Takes, LeasesSet, Enabled, Apply, Paired, Keyed, Traced, Alone;
      TakesNone(cfg, View());
      steps, trace := [], NO_TRACE;
      if s.topic !in topics {
        return Some(NoTopic), steps, trace;
      }
      if s.partition >= |topics[s.topic].logs| {
        return Some(NoPartition), steps, trace;
      }
      var gid := GroupId(s.topic, s.group);
      Touch(gid);
      ghost var before := View();
      var cur, inflight := At(View(), s).committed, At(View(), s).inflight;
      if offset <= cur {
        return None, [TouchGroup(gid)], trace;
      }
      CommittedIsOffset(cfg, View(), s);
      for off := cur + 1 to offset + 1
        invariant OwnsRange(View(), s, cur + 1, off - 1, owner)
      {
        if off !in inflight {
          assert !Owns(old(View()), s, off, owner);
          return Some(NotInFlight), [TouchGroup(gid)], trace;
        }
        if inflight[off].owner != owner {
          assert !Owns(old(View()), s, off, owner);
          return Some(NotOwner), [TouchGroup(gid)], trace;
        }
      }
      ghost var acking;
      err, acking, trace := AckRange(s, cur + 1, offset, owner);
      TakesMore(cfg, old(View()), [TouchGroup(gid)], before, acking, View());
      steps := [TouchGroup(gid)] + acking;
      SameRange(old(View()), before, s, cur + 1, offset, owner);
    }

    /** The group gets its offset map. */
    method Touch(gid: GroupId)
      requires Valid() && gid.topic in topics && gid.group != ""
      modifies this`groups
      ensures Valid() && Takes(cfg, old(View()), [TouchGroup(gid)], View()) && groups == old(groups) + {gid}
    {
      hide WalInv, Takes, LeasesSet, Enabled, Apply, Paired;
      InvPaired(cfg, View());
      TouchFacts(cfg, View(), gid);
      TakesOne(cfg, View(), TouchGroup(gid));
      groups := groups + {gid};
      TakesKeepsInv(cfg, old(View()), [TouchGroup(gid)], View());
    }

    /** One acknowledgement after the other, up to the first error, with other calls in between. */
    method AckRange(s: Slot, from: nat, offset: nat, owner: string)
      returns (err: Option<Error>, ghost steps: seq<Step>, ghost trace: Trace)
      requires Valid() && Known(View(), s) && owner != "" && from <= offset
      modifies this
      ensures Valid() && Takes(cfg, old(View()), steps, View())
      ensures err.None? ==> At(View(), s).committed >= offset
      ensures Traced(cfg, s, owner, old(View()), from, offset, trace, View(), err.None?)
      ensures OwnsRange(old(View()), s, from, offset, owner) && PlainRange(old(View()), s, from, offset) && Alone(trace)
              ==> err.None?
    {
      hide WalInv, Takes, LeasesSet, Enabled, Apply, Paired, Keyed, StillOwned, RoundsFrom, OneRound, OwnsRange,
        PlainRange;
      TakesNone(cfg, View());
      NoRounds(cfg, s, owner, View(), from);
      steps, trace := [], NO_TRACE;
      ghost var plain := OwnsRange(View(), s, from, offset, owner) && PlainRange(View(), s, from, offset);
      for off := from to offset + 1
        invariant Valid() && Takes(cfg, old(View()), steps, View()) && Known(View(), s)
        invariant off > from ==> At(View(), s).committed >= off - 1
        invariant |trace.rounds| == off - from && trace.rest == []
        invariant RoundsFrom(cfg, s, owner, old(View()), from, trace.rounds)
                  && EndOf(old(View()), trace.rounds) == View()
        invariant plain && Alone(trace) ==>
                  OwnsRange(View(), s, off, offset, owner) && PlainRange(View(), s, off, offset)
      {
        ghost var before, earlier := View(), trace;
        ghost var round, more;
        err, more, round := AckNext(s, off, owner);
        TakesMore(cfg, old(View()), steps, before, more, View());
        TakesTopics(cfg, before, more, View());
        StillKnown(before, View(), s);
        steps := steps + more;
        if err.Some? {
          trace := trace.(rest := more);
          if plain && Alone(trace) {
            assert Alone(earlier);
            TakesNothing(cfg, before, View());
            RangeHead(before, s, off, offset, owner);
          }
          return;
        }
        NextRound(cfg, s, owner, old(View()), from, trace.rounds, round);
        trace := trace.(rounds := trace.rounds + [round]);
        if plain && Alone(trace) {
          AloneEarlier(earlier, round);
          RoundStart(cfg, s, owner, before, off, round);
          RangeHead(before, s, off, offset, owner);
          RangeStays(before, View(), s, off, offset, owner);
        }
      }
      TakesNone(cfg, View());
      return None, steps, trace;
    }

    /** Other calls, if any, and then one acknowledgement. */
    method AckNext(s: Slot, offset: nat, owner: string)
      returns (err: Option<Error>, ghost steps: seq<Step>, ghost round: Round)
      requires Valid() && Known(View(), s) && owner != ""
      modifies this
      ensures Valid() && Takes(cfg, old(View()), steps, View())
      ensures err.None? ==> At(View(), s).committed >= offset
      ensures err.None? ==>
                && OneRound(cfg, s, owner, old(View()), offset, round) && round.done == View()
                && (!Keyed(At(round.ready, s).inflight[offset].msg) ==>
                      StillOwned(At(round.ready, s), At(View(), s), offset))
      ensures err.Some? && Owns(View(), s, offset, owner) ==> Keyed(At(View(), s).inflight[offset].msg)
    {
      hide WalInv, Takes, LeasesSet, Enabled, Apply, Paired, Keyed, StillOwned, AckShape, NoFlush;
      ghost var others := OtherCalls(true);
      TakesTopics(cfg, old(View()), others, View());
      StillKnown(old(View()), View(), s);
      ghost var ready := View();
      ghost var acking;
      err, acking := AckOwned(s, offset, owner);
      TakesMore(cfg, old(View()), others, ready, acking, View());
      steps := others + acking;
      round := Round(others, ready, acking, View());
      if err.Some? {
        SameOwner(ready, View(), s, offset, owner);
      }
    }

    // Redelivery

    /** The entry leaves flight and the group's offset moves; if it moved forward, dispatch follows.
        (The source dispatches before it purges old errors at or below the offset; dispatch reads
        only later ones.) */
    method SettleEntry(s: Slot, offset: int) returns (ghost steps: seq<Step>)
      requires Valid() && Flying(View(), s, offset) && DoneFor(View(), s, At(View(), s).inflight[offset].msg)
      modifies this`slots, this`groups, this`items, this`wal, this`cursors
      ensures Valid() && Takes(cfg, old(View()), steps, View()) && EntrySteps(s, offset, steps)
      ensures offset in At(View(), s).gone && At(View(), s).gone[offset] == SettledDone
      ensures offset > old(At(View(), s).committed) ==> Dispatched(cfg, env, View(), s.topic, s.partition, steps)
    {
      hide WalInv, Takes, TopicSteps, EntrySteps, LeasesSet, Enabled, Apply, Paired, DoneFor, Dispatched;
      InvPaired(cfg, View());
      FlightFacts(cfg, View(), s, offset);
      SettleFacts(cfg, View(), s, offset);
      TakesOne(cfg, View(), Settle(s, offset));
      var moved := offset > At(View(), s).committed;
      slots, groups := slots[s := LeaveSlot(At(View(), s), offset, SettledDone)], groups + {GroupId(s.topic, s.group)};
      TakesKeepsInv(cfg, old(View()), [Settle(s, offset)], View());
      OneEntryStep(s, offset, Settle(s, offset));
      steps := DispatchAfter(s, offset, moved, old(View()), [Settle(s, offset)]);
    }

    /** The next delivery goes to a consumer; whether its queue has room does not matter. */
    method Resend(s: Slot, offset: int, index: nat, now: int)
      requires Paired(View()) && Due(cfg, View(), s, offset, now) && index < |Streams(View(), s)|
               && At(View(), s).inflight[offset].attempts >= 1
      requires !DoneFor(View(), s, At(View(), s).inflight[offset].msg) && !Exhausted(At(View(), s).inflight[offset])
      requires Leased(View(), s, At(View(), s).inflight[offset].msg, Streams(View(), s)[index].owner)
      modifies this`slots
      ensures Enabled(cfg, old(View()), Redeliver(s, offset, Streams(old(View()), s)[index].owner, now))
      ensures View() == Apply(cfg, old(View()), Redeliver(s, offset, Streams(old(View()), s)[index].owner, now))
      ensures offset in At(View(), s).inflight
              && At(View(), s).inflight[offset] == Again(old(At(View(), s).inflight[offset]),
                                                         Streams(View(), s)[index].owner, now)
    {
      ResendFacts(cfg, View(), s, offset, index, now);
      hide Enabled, Apply, Paired, DoneFor, Leased, Due, Exhausted, Delay;
      var ss := At(View(), s);
      var e := ss.inflight[offset];
      var rp := Policy(e.msg);
      e := e.(owner := Streams(View(), s)[index].owner, sentAt := now, attempts := e.attempts + 1);
      if rp.Some? && (rp.value.backoffMs > 0 || rp.value.maxBackoffMs > 0) {
        var backoff := ComputeBackoff(rp, e.attempts - 1);
        e := e.(nextAt := Some(now + backoff));
      } else {
        e := e.(nextAt := None);
      }
      slots := slots[s := ss.(inflight := ss.inflight[offset := e])];
    }

    /** Looks for a consumer, from the round-robin position on, that can lease the message again. */
    method PickAgain(s: Slot, m: Message, leases: map<string, int>) returns (pick: Pick, ghost steps: seq<Step>)
      requires Valid() && Known(View(), s) && Keyed(m) && Streams(View(), s) != []
      modifies this`items, this`wal
      ensures Valid() && Takes(cfg, old(View()), steps, View()) && DispatchSteps(s, steps)
      ensures DoneFor(View(), s, m) <==> DoneFor(old(View()), s, m)
      ensures pick == Already ==> DoneFor(View(), s, m)
      ensures pick.Chosen? ==>
                && pick.index < |Streams(View(), s)|
                && Leased(View(), s, m, Streams(View(), s)[pick.index].owner) && !DoneFor(View(), s, m)
      ensures pick.Nobody? ==>
                Sought(Streams(View(), s), ConsumeKey(s, m), steps, true) && NoneHolds(View(), s, m, true)
      ensures pick.Refused? ==> LogRefuses(env) || OddTable(Streams(View(), s), leases, cfg.ackTimeout)
    {
      hide WalInv, Enabled, Apply, Takes, DoneFor, Leased, LeasesSet, DispatchSteps, Paired, Sought, Tried, HeldFrom;
      var chans := Streams(View(), s);
      var start := CursorOf(GroupId(s.topic, s.group)) % |chans|;
      steps := [];
      TakesNone(cfg, View());
      NoDispatchSteps(s);
      for i := 0 to |chans|
        invariant WalInv(cfg, View()) && Takes(cfg, old(View()), steps, View()) && DispatchSteps(s, steps)
        invariant DoneFor(View(), s, m) <==> DoneFor(old(View()), s, m)
        invariant forall u: nat :: u < i ==> Tried(chans, ConsumeKey(s, m), steps, false, Nth(start, u, |chans|))
        invariant forall u: nat :: u < i ==> Passed(View(), s, m, chans, false, Nth(start, u, |chans|))
      {
        var idx := Nth(start, i, |chans|);
        var cand := chans[idx];
        ghost var before := View();
        var reply, asking := AskLease(s, m, cand, LeaseOf(leases, cand.owner, cfg.ackTimeout), old(View()), steps);
        if reply.Granted? {
          return Chosen(idx), asking;
        } else if reply.AlreadyDone? {
          return Already, asking;
        } else if !reply.LeaseHeld? {
          return Refused(reply), asking;
        }
        NextTried(chans, ConsumeKey(s, m), steps, asking[|steps|..], false, false, start, i);
        NextPassed(before, View(), s, m, chans, false, false, start, i);
        steps := asking;
      }
      AllTried(chans, ConsumeKey(s, m), steps, false, start);
      AllPassed(View(), s, m, chans, false, start);
      return Nobody(None), steps;
    }

    /** Dispatch again after the entry has gone. */
    method DispatchAfter(s: Slot, offset: int, moved: bool, ghost start: State, ghost steps: seq<Step>)
        returns (ghost steps': seq<Step>)
      requires Valid() && Takes(cfg, start, steps, View()) && EntrySteps(s, offset, steps)
               && offset in At(View(), s).gone && Known(View(), s)
      modifies this`slots, this`groups, this`items, this`wal, this`cursors
      ensures Valid() && Takes(cfg, start, steps', View()) && EntrySteps(s, offset, steps')
      ensures offset in At(View(), s).gone && At(View(), s).gone[offset] == old(At(View(), s).gone[offset])
      ensures moved ==> Dispatched(cfg, env, View(), s.topic, s.partition, steps')
    {
      hide WalInv, Takes, TopicSteps, EntrySteps, LeasesSet, Dispatched, QuietUpTo;
      if !moved {
        return steps;
      }
      var _, more := Dispatch(s.topic, Some(s.partition));
      TakesTopics(cfg, old(View()), more, View());
      UpToDispatched(cfg, env, View(), s.topic, s.partition, |topics[s.topic].logs|, steps, more);
      TakesMore(cfg, start, steps, old(View()), more, View());
      TakesForward(cfg, old(View()), more, View(), s);
      TopicEntrySteps(s, offset, s.topic, Some(s.partition), more);
      MoreEntrySteps(s, offset, steps, more);
      steps' := steps + more;
    }

    /** The entry has used up its retries: it leaves for the dead-letter topic, but only if the
        publication there succeeds.  An entry of a dead-letter topic just leaves.  (The source
        dispatches the dead letter before it takes the entry out of flight; the two touch
        different slots.) */
    method BuryEntry(s: Slot, offset: int, now: int, hash: nat) returns (err: Option<Error>, ghost steps: seq<Step>)
      requires Valid() && Due(cfg, View(), s, offset, now)
      requires !DoneFor(View(), s, At(View(), s).inflight[offset].msg) && Exhausted(At(View(), s).inflight[offset])
      modifies this`topics, this`slots, this`groups, this`items, this`wal, this`cursors
      ensures Valid() && Takes(cfg, old(View()), steps, View()) && EntrySteps(s, offset, steps)
      ensures err.Some? ==> slots == old(slots) && Known(View(), s) && LogOf(View(), s) == old(LogOf(View(), s))
      ensures err.Some? ==> Unpublishable(cfg, env, old(View()), s.topic)
      ensures err.None? && offset > old(At(View(), s).committed) ==>
                Dispatched(cfg, env, View(), s.topic, s.partition, steps)
      ensures err.None? ==> offset in At(View(), s).gone
                            && At(View(), s).gone[offset] == DeadLettered(old(At(View(), s).inflight[offset].attempts))
    {
      hide WalInv, Takes, EntrySteps, LeasesSet, Enabled, Apply, Paired, DoneFor, LeaseFor, Exhausted, Expired,
        GateOpen, Dispatched;
      InvPaired(cfg, View());
      if IsDlq(s.topic) {
        var step := Bury(s, offset, 0, -1, now);
        BuryFacts(cfg, View(), s, offset, 0, -1, now, now);
        TakesOne(cfg, View(), step);
        OneEntryStep(s, offset, step);
        var ss := At(View(), s);
        slots, groups := slots[s := LeaveSlot(ss, offset, DeadLettered(ss.inflight[offset].attempts))],
          groups + {GroupId(s.topic, s.group)};
        TakesKeepsInv(cfg, old(View()), [step], View());
        steps := DispatchAfter(s, offset, offset > ss.committed, old(View()), [step]);
        return None, steps;
      }
      EnsureFacts(cfg, View(), s);
      TakesOne(cfg, View(), EnsureDlq(s.topic));
      OneEntryStep(s, offset, EnsureDlq(s.topic));
      topics := WithDlq(topics, s.topic);
      TakesKeepsInv(cfg, old(View()), [EnsureDlq(s.topic)], View());
      ghost var before, more := View(), [];
      SameDue(cfg, old(View()), View(), s, offset, now);
      err, more := PublishDead(s, offset, now, hash);
      TakesMore(cfg, old(View()), [EnsureDlq(s.topic)], before, more, View());
      MoreEntrySteps(s, offset, [EnsureDlq(s.topic)], more);
      if err.None? && offset > old(At(View(), s).committed) {
        StillDispatched(cfg, env, View(), s.topic, s.partition, [EnsureDlq(s.topic)], more);
      }
      steps := [EnsureDlq(s.topic)] + more;
    }

    /** The record of the dead letter, the dead letter itself, and the end of the entry. */
    method MoveToDlq(s: Slot, offset: int, part: nat, slowest: int, now: int, later: int)
      requires Valid() && Due(cfg, View(), s, offset, now) && now <= later && !IsDlq(s.topic)
      requires !DoneFor(View(), s, At(View(), s).inflight[offset].msg) && Exhausted(At(View(), s).inflight[offset])
      requires Exists(View(), DlqTopic(s.topic), part) && Slowest(cfg, View(), DlqTopic(s.topic), part, slowest)
      requires Admits(cfg, topics[DlqTopic(s.topic)].logs[part],
                      DeadLetter(s.topic, At(View(), s).inflight[offset], later), slowest)
      modifies this`topics, this`slots, this`groups, this`wal
      ensures Valid() && Takes(cfg, old(View()), [Bury(s, offset, part, slowest, later)], View())
      ensures offset in At(View(), s).gone
              && At(View(), s).gone[offset] == DeadLettered(old(At(View(), s).inflight[offset].attempts))
    {
      hide WalInv, Takes, LeasesSet, Enabled, Apply, Paired, DoneFor, LeaseFor, Exhausted, Slowest, Admits, DeadLetter;
      InvPaired(cfg, View());
      var ss, dlq := At(View(), s), DlqTopic(s.topic);
      BuryFacts(cfg, View(), s, offset, part, slowest, now, later);
      SumFacts(cfg, View(), dlq, part);
      TakesOne(cfg, View(), Bury(s, offset, part, slowest, later));
      var placed := Placed(DeadLetter(s.topic, ss.inflight[offset], later), part, |topics[dlq].logs[part]|);
      wal := wal + [MessageRecord(ToEntry(dlq, placed))];
      topics := topics[dlq := AppendTo(topics[dlq], part, placed)];
      slots := slots[s := LeaveSlot(ss, offset, DeadLettered(ss.inflight[offset].attempts))];
      groups := groups + {GroupId(s.topic, s.group)};
      TakesKeepsInv(cfg, old(View()), [Bury(s, offset, part, slowest, later)], View());
    }

    /** publishToDLQLocked on an existing dead-letter topic, and what redelivery does on success. */
    method PublishDead(s: Slot, offset: int, now: int, hash: nat) returns (err: Option<Error>, ghost steps: seq<Step>)
      requires Valid() && Due(cfg, View(), s, offset, now) && !IsDlq(s.topic) && DlqTopic(s.topic) in topics
      requires !DoneFor(View(), s, At(View(), s).inflight[offset].msg) && Exhausted(At(View(), s).inflight[offset])
      modifies this`topics, this`slots, this`groups, this`items, this`wal, this`cursors
      ensures Valid() && Takes(cfg, old(View()), steps, View()) && EntrySteps(s, offset, steps)
      ensures err.Some? ==> View() == old(View())
      ensures err.Some? ==> Unpublishable(cfg, env, old(View()), s.topic)
      ensures err.None? && offset > old(At(View(), s).committed) ==>
                Dispatched(cfg, env, View(), s.topic, s.partition, steps)
      ensures err.None? ==> offset in At(View(), s).gone
                            && At(View(), s).gone[offset] == DeadLettered(old(At(View(), s).inflight[offset].attempts))
    {
      hide WalInv, Takes, EntrySteps, TopicSteps, LeasesSet, Enabled, Apply, Paired, DoneFor, LeaseFor, Exhausted,
        Slowest, Admits, DeadLetter, Dispatched;
      TakesNone(cfg, View());
      NoEntrySteps(s, offset);
      InvPaired(cfg, View());
      var ss, dlq := At(View(), s), DlqTopic(s.topic);
      var later: int := *;
      if later < now {
        later := now;
      }
      var dead := DeadLetter(s.topic, ss.inflight[offset], later);
      var part, slowest;
      err, part, slowest := Admission(dlq, dead, hash);
      if topics[dlq].logs != [] {
        DeadIsPlaceable(View(), s.topic, ss.inflight[offset], later);
      }
      if err.Some? {
        return err, [];
      }
      var moment: int := *;
      if env.refuses(moment) {
        return Some(LogFailed), [];
      }
      var step := Bury(s, offset, part, slowest, later);
      MoveToDlq(s, offset, part, slowest, now, later);
      OneEntryStep(s, offset, step);
      ghost var before := View();
      var _, more := Dispatch(dlq, Some(part));
      TakesMore(cfg, old(View()), [step], before, more, View());
      TakesForward(cfg, before, more, View(), s);
      TopicEntrySteps(s, offset, dlq, Some(part), more);
      MoreEntrySteps(s, offset, [step], more);
      TakesTopics(cfg, old(View()), [step] + more, View());
      StillKnown(old(View()), View(), s);
      steps := DispatchAfter(s, offset, offset > ss.committed, old(View()), [step] + more);
      err := None;
    }

    /** A due entry whose work is not done and whose retries are not used up: the next delivery. */
    method RetryEntry(s: Slot, offset: int, now: int, leases: map<string, int>)
        returns (fate: Fate, ghost steps: seq<Step>)
      requires Valid() && Due(cfg, View(), s, offset, now) && Streams(View(), s) != []
      requires !DoneFor(View(), s, At(View(), s).inflight[offset].msg) && !Exhausted(At(View(), s).inflight[offset])
      modifies this`slots, this`groups, this`items, this`wal, this`cursors
      ensures Takes(cfg, old(View()), steps, View()) && EntrySteps(s, offset, steps)
      ensures fate.Resent? || fate.Unleased?
      ensures fate.Resent? ==> offset in At(View(), s).inflight
                               && ResentAs(old(At(View(), s).inflight[offset]), At(View(), s).inflight[offset],
                                           fate.owner, now)
      ensures fate.Unleased? ==> Keyed(old(At(View(), s).inflight[offset].msg))
                                 && SoughtInVain(Streams(View(), s), s, old(At(View(), s).inflight[offset].msg), steps)
                                 && Unredeemable(cfg, env, View(), s, old(At(View(), s).inflight[offset].msg), leases)
    {
      hide WalInv, Takes, EntrySteps, DispatchSteps, Sought, LeasesSet, Enabled, Apply, Paired, DoneFor, Leased,
        LeaseFor, Exhausted, Keyed, Again, NoneHolds;
      var e, gid, n := At(View(), s).inflight[offset], GroupId(s.topic, s.group), |Streams(View(), s)|;
      var index: nat;
      FlightFacts(cfg, View(), s, offset);
      TakesNone(cfg, View());
      NoEntrySteps(s, offset);
      steps := [];
      if Keyed(e.msg) {
        var pick;
        pick, steps := PickAgain(s, e.msg, leases);
        SlotEntrySteps(s, offset, steps);
        match pick {
          case Refused(reply) =>
            ghost var picked := View();
            ghost var more := NoteError(s, offset, "idem_begin_failed: " + ReplyText(reply), old(View()), steps);
            StillUnredeemable(cfg, env, picked, View(), s, e.msg, leases);
            EntryOffset(cfg, old(View()), s, offset);
            assert Noted(s, offset, more);
            return Unleased, more;
          case Chosen(i) => index := i;
          case _ =>  // nobody; not Already, since the lookup under this lock found the work not done
            return Unleased, steps;
        }
        cursors := cursors[gid := (index + 1) % n];
      } else {
        PlainFacts(View(), s, e.msg);
        index := CursorOf(gid) % n;
        cursors := cursors[gid := (CursorOf(gid) + 1) % n];
      }
      TakesKeepsInv(cfg, old(View()), steps, View());
      InvPaired(cfg, View());
      SameDueItems(cfg, old(View()), View(), s, offset, now);
      ghost var before := View();
      var owner := Streams(View(), s)[index].owner;
      AgainIsResent(e, owner, now, Again(e, owner, now).lastError);
      Resend(s, offset, index, now);
      TakesOneMore(cfg, old(View()), steps, before, Redeliver(s, offset, owner, now));
      OneEntryStep(s, offset, Redeliver(s, offset, owner, now));
      MoreEntrySteps(s, offset, steps, [Redeliver(s, offset, owner, now)]);
      return Resent(owner), steps + [Redeliver(s, offset, owner, now)];
    }

    /** Adds to an entry's last error, in memory and, if the append succeeds, in the log. */
    method NoteError(s: Slot, offset: int, addition: string, ghost start: State, ghost steps: seq<Step>)
        returns (ghost steps': seq<Step>)
      requires Valid() && Flying(View(), s, offset) && Takes(cfg, start, steps, View()) && EntrySteps(s, offset, steps)
      modifies this`slots, this`wal
      ensures Valid() && Takes(cfg, start, steps', View()) && EntrySteps(s, offset, steps')
      ensures Flying(View(), s, offset)
      ensures |steps'| == |steps| + 1 && steps'[|steps|].Note? && steps'[|steps|].slot == s
              && steps'[|steps|].offset == offset
      ensures var e := At(View(), s).inflight[offset];
              e == old(At(View(), s).inflight[offset]).(lastError := e.lastError)
      ensures At(View(), s).gone == old(At(View(), s).gone)
      ensures At(View(), s).committed == old(At(View(), s).committed)
    {
      hide WalInv, Takes, EntrySteps, LeasesSet, Enabled, Apply, Paired;
      InvPaired(cfg, View());
      FlightFacts(cfg, View(), s, offset);
      var moment: int := *;
      var logged := !env.refuses(moment);
      var text := AppendError(At(View(), s).inflight[offset].lastError, addition);
      Record(s, offset, text, true, logged);
      var step := Note(s, offset, text, true, logged);
      TakesOneMore(cfg, start, steps, old(View()), step);
      TakesOne(cfg, old(View()), step);
      TakesKeepsInv(cfg, old(View()), [step], View());
      OneEntryStep(s, offset, step);
      MoreEntrySteps(s, offset, steps, [step]);
      steps' := steps + [step];
    }

    /** What happens to a due entry. */
    method RedeliverDue(s: Slot, offset: int, now: int, leases: map<string, int>)
        returns (fate: Fate, ghost steps: seq<Step>)
      requires Valid() && Due(cfg, View(), s, offset, now) && Streams(View(), s) != []
      modifies this`topics, this`slots, this`groups, this`items, this`wal, this`cursors
      ensures Takes(cfg, old(View()), steps, View()) && EntrySteps(s, offset, steps)
      ensures !fate.NotDue? && !fate.Waiting?
      ensures fate.Unleased? ==> SoughtInVain(Streams(View(), s), s, old(At(View(), s).inflight[offset].msg), steps)
                                 && Unredeemable(cfg, env, View(), s, old(At(View(), s).inflight[offset].msg), leases)
      ensures fate.Unburied? ==> Unpublishable(cfg, env, old(View()), s.topic)
      ensures (fate.Settled? || fate.Buried?) && offset > old(At(View(), s).committed) ==>
                Dispatched(cfg, env, View(), s.topic, s.partition, steps)
      ensures fate.Settled? <==> old(DoneFor(View(), s, At(View(), s).inflight[offset].msg))
      ensures DueOutcome(old(At(View(), s)), At(View(), s), offset, now, fate)
    {
      hide WalInv, Takes, EntrySteps, LeasesSet, Enabled, Apply, Paired, DoneFor, LeaseFor, Exhausted, Keyed, Again,
        SoughtInVain, Unredeemable, Dispatched;
      var e := At(View(), s).inflight[offset];
      TakesNone(cfg, View());
      NoEntrySteps(s, offset);
      steps := [];
      if !Keyed(e.msg) {
        PlainFacts(View(), s, e.msg);
      }
      if Keyed(e.msg) {
        var done;
        done, steps := CheckDone(s, e.msg);
        SlotEntrySteps(s, offset, steps);
        if done {
          ghost var checked := View();
          ghost var more := SettleEntry(s, offset);
          TakesMore(cfg, old(View()), steps, checked, more, View());
          MoreEntrySteps(s, offset, steps, more);
          if offset > old(At(View(), s).committed) {
            StillDispatched(cfg, env, View(), s.topic, s.partition, steps, more);
          }
          return Settled, steps + more;
        }
      }
      SameDueItems(cfg, old(View()), View(), s, offset, now);
      ExhaustedIsAtLimit(e);
      ghost var before := View();
      if Exhausted(e) {
        var hash: nat := *;
        var err, more := BuryEntry(s, offset, now, hash);
        TakesMore(cfg, old(View()), steps, before, more, View());
        MoreEntrySteps(s, offset, steps, more);
        if err.Some? {
          ghost var noted := NoteError(s, offset, "dlq_publish_failed", old(View()), steps + more);
          return Unburied, noted;
        }
        if offset > old(At(View(), s).committed) {
          StillDispatched(cfg, env, View(), s.topic, s.partition, steps, more);
        }
        return Buried, steps + more;
      }
      ghost var more;
      fate, more := RetryEntry(s, offset, now, leases);
      TakesMore(cfg, old(View()), steps, before, more, View());
      MoreEntrySteps(s, offset, steps, more);
      if fate.Unleased? {
        InVainAfter(Streams(View(), s), s, e.msg, steps, more);
      }
      steps := steps + more;
    }

    /** One entry's turn in redeliverExpiredLocked. */
    method RedeliverEntry(s: Slot, offset: int, now: int, leases: map<string, int>)
        returns (fate: Fate, ghost steps: seq<Step>)
      requires Valid() && Flying(View(), s, offset) && Streams(View(), s) != []
      requires LeaseTable(leases, Streams(View(), s), cfg.ackTimeout)
      modifies this`topics, this`slots, this`groups, this`items, this`wal, this`cursors
      ensures Valid() && Takes(cfg, old(View()), steps, View()) && EntrySteps(s, offset, steps)
      ensures var e := old(At(View(), s).inflight[offset]);
              && (forall lease :: LatestLease(old(Streams(View(), s)), e.owner, cfg.ackTimeout, lease) ==>
                    (fate.NotDue? <==> now - e.sentAt < lease))
              && (!fate.NotDue? ==> (fate.Waiting? <==> e.nextAt.Some? && now < e.nextAt.value))
      ensures fate.NotDue? <==> !Expired(old(At(View(), s).inflight[offset]),
                                         LeaseFor(old(Streams(View(), s)), old(At(View(), s).inflight[offset].owner),
                                                  cfg.ackTimeout), now)
      ensures fate.NotDue? ==> View() == old(View()) && steps == []
      ensures !fate.NotDue? ==> (fate.Waiting? <==> !GateOpen(old(At(View(), s).inflight[offset]), now))
      ensures fate.Unleased? ==> SoughtInVain(Streams(View(), s), s, old(At(View(), s).inflight[offset].msg), steps)
                                 && Unredeemable(cfg, env, View(), s, old(At(View(), s).inflight[offset].msg), leases)
      ensures fate.Unburied? ==> Unpublishable(cfg, env, old(View()), s.topic)
      ensures (fate.Settled? || fate.Buried?) && offset > old(At(View(), s).committed) ==>
                Dispatched(cfg, env, View(), s.topic, s.partition, steps)
      ensures !fate.NotDue? && !fate.Waiting? ==>
                (fate.Settled? <==> old(DoneFor(View(), s, At(View(), s).inflight[offset].msg)))
      ensures fate.Waiting? ==> Spared(old(At(View(), s)), At(View(), s), offset)
      ensures !fate.NotDue? && !fate.Waiting? ==> DueOutcome(old(At(View(), s)), At(View(), s), offset, now, fate)
    {
      hide WalInv, Takes, EntrySteps, LeasesSet, Enabled, Apply, Paired, LeaseFor, Exhausted, Keyed, Again,
        SoughtInVain, Unredeemable, Dispatched, DoneFor, DueOutcome;
      var e := At(View(), s).inflight[offset];
      TakesNone(cfg, View());
      NoEntrySteps(s, offset);
      steps := [];
      var lease := LeaseOf(leases, e.owner, cfg.ackTimeout);
      forall l
        ensures LatestLease(Streams(View(), s), e.owner, cfg.ackTimeout, l) <==> l == lease
      {
        LeaseIsLatest(Streams(View(), s), e.owner, cfg.ackTimeout, l);
      }
      hide LatestLease;
      if now - e.sentAt < lease {
        return NotDue, steps;
      }
      if e.lastError == "" {
        steps := NoteError(s, offset, "ack_timeout", old(View()), steps);
      }
      if e.nextAt.Some? && now < e.nextAt.value {
        return Waiting, steps;
      }
      ghost var before, more := View(), [];
      SameDone(old(View()), View(), s, e.msg);
      fate, more := RedeliverDue(s, offset, now, leases);
      if (fate.Settled? || fate.Buried?) && offset > old(At(View(), s).committed) {
        StillDispatched(cfg, env, View(), s.topic, s.partition, steps, more);
      }
      SameOutcome(old(At(View(), s)), At(before, s), At(View(), s), offset, now, fate);
      TakesMore(cfg, old(View()), steps, before, more, View());
      MoreEntrySteps(s, offset, steps, more);
      if fate.Unleased? {
        InVainAfter(Streams(View(), s), s, e.msg, steps, more);
      }
      steps := steps + more;
      TakesKeepsInv(cfg, old(View()), steps, View());
    }

    /** One entry's turn, as the tick needs it: it is handled and all others are spared. */
    method TakeTurn(s: Slot, offset: int, now: int, leases: map<string, int>) returns (ghost steps: seq<Step>)
      requires Valid() && Flying(View(), s, offset) && Streams(View(), s) != []
      requires LeaseTable(leases, Streams(View(), s), cfg.ackTimeout)
      modifies this`topics, this`slots, this`groups, this`items, this`wal, this`cursors
      ensures Valid() && Takes(cfg, old(View()), steps, View()) && TickSteps(steps)
      ensures Handled(cfg, old(View()), At(View(), s), s, offset, now)
      ensures forall u, o :: u != s || o != offset ==> Spared(old(At(View(), u)), At(View(), u), o)
    {
      hide WalInv, Takes, TickSteps, EntrySteps, LeasesSet, LeaseTable, DueOutcome, LeaseFor, Handled, Spared;
      FlyingIsNotGone(cfg, View(), s, offset);
      var fate;
      fate, steps := RedeliverEntry(s, offset, now, leases);
      EntryStepsAreTickSteps(s, offset, steps);
      SparedSelf(old(At(View(), s)), offset);
      TurnHandles(cfg, old(View()), At(View(), s), s, offset, now, fate);
      forall u, o | u != s || o != offset
        ensures Spared(old(At(View(), u)), At(View(), u), o)
      {
        TurnSpares(cfg, old(View()), s, offset, steps, View(), u, o);
      }
    }

    /** The entries of one slot, in any order; they leave only in their own turn.  Entries that
        dispatch adds meanwhile are new. */
    method RedeliverSlot(s: Slot, now: int) returns (ghost steps: seq<Step>)
      requires Valid() && Streams(View(), s) != [] && GroupId(s.topic, s.group) in consumers
      modifies this`topics, this`slots, this`groups, this`items, this`wal, this`cursors
      ensures Valid() && Takes(cfg, old(View()), steps, View()) && TickSteps(steps)
      ensures forall o :: o in old(At(View(), s)).inflight ==> Handled(cfg, old(View()), At(View(), s), s, o, now)
      ensures forall u, o :: u != s ==> Spared(old(At(View(), u)), At(View(), u), o)
    {
      hide WalInv, Takes, TickSteps, LeasesSet, LeaseTable, Handled, Spared, At;
      TakesNone(cfg, View());
      NoTickSteps();
      steps := [];
      var leases := OwnerLeases(Streams(View(), s), cfg.ackTimeout);
      var todo: set<int> := set o | o in At(View(), s).inflight;
      forall u, o
        ensures Spared(old(At(View(), u)), At(View(), u), o)
      {
        SparedSelf(At(View(), u), o);
      }
      while todo != {}
        invariant Valid() && Takes(cfg, old(View()), steps, View()) && TickSteps(steps)
        invariant forall o :: o in todo ==>
                  o in old(At(View(), s)).inflight && Spared(old(At(View(), s)), At(View(), s), o)
        invariant forall o :: o in old(At(View(), s)).inflight && o !in todo ==>
                  Handled(cfg, old(View()), At(View(), s), s, o, now)
        invariant forall u, o :: u != s ==> Spared(old(At(View(), u)), At(View(), u), o)
        decreases todo
      {
        var offset := AnyOf(todo);
        todo := todo - {offset};
        ghost var before := View();
        SparedFlies(old(At(View(), s)), At(View(), s), offset);
        FlightKnown(cfg, View(), s, offset);
        FlightKnown(cfg, old(View()), s, offset);
        ghost var more := TakeTurn(s, offset, now, leases);
        TakesMore(cfg, old(View()), steps, before, more, View());
        MoreTickSteps(steps, more);
        steps := steps + more;
        HandledFrom(cfg, old(View()), before, At(View(), s), s, offset, now);
        AfterTurn(cfg, old(View()), before, View(), s, offset, now, todo);
      }
    }

    /** redeliverExpiredLocked: every slot that has consumers, in any order.  Every entry that was
        in flight is handled. */
    method RedeliverExpired(now: int) returns (ghost steps: seq<Step>)
      requires Valid()
      modifies this`topics, this`slots, this`groups, this`items, this`wal, this`cursors
      ensures Valid() && Takes(cfg, old(View()), steps, View()) && TickSteps(steps)
      ensures forall s, o :: Served(old(View()), s) && o in old(At(View(), s)).inflight ==>
                Handled(cfg, old(View()), At(View(), s), s, o, now)
      ensures forall s, o :: !Served(old(View()), s) ==> Spared(old(At(View(), s)), At(View(), s), o)
    {
      hide WalInv, Takes, TickSteps, LeasesSet, Handled, Spared, At;
      TakesNone(cfg, View());
      NoTickSteps();
      steps := [];
      var todo := set s | s in slots && Served(View(), s);
      forall u, o
        ensures Spared(old(At(View(), u)), At(View(), u), o)
      {
        SparedSelf(At(View(), u), o);
      }
      NothingElsewhere(View());
      while todo != {}
        invariant Valid() && Takes(cfg, old(View()), steps, View()) && TickSteps(steps)
        invariant forall s :: s in todo ==> Served(View(), s)
        invariant forall s, o :: s in todo || !Served(old(View()), s) ==> Spared(old(At(View(), s)), At(View(), s), o)
        invariant forall s, o :: s !in todo && Served(old(View()), s) && o in old(At(View(), s)).inflight ==>
                    Handled(cfg, old(View()), At(View(), s), s, o, now)
        decreases todo
      {
        var s :| s in todo;
        todo := todo - {s};
        ghost var before := View();
        EntriesFly(cfg, old(View()), View(), s);
        ghost var more := RedeliverSlot(s, now);
        TakesMore(cfg, old(View()), steps, before, more, View());
        MoreTickSteps(steps, more);
        steps := steps + more;
        AfterSlot(cfg, old(View()), before, View(), s, now, todo);
      }
    }

    /** Nack. */
    method Nack(topic: string, group: string, partition: int, offset: int, owner: string, reason: string)
      returns (err: Option<Error>, ghost steps: seq<Step>, ghost k: nat, ghost made: State, ghost tick: int)
      requires Valid()
      modifies this`topics, this`slots, this`groups, this`items, this`wal, this`cursors
      ensures Valid() && Takes(cfg, old(View()), steps, View())
      ensures err.None? ==>
                && Argued(topic, group, partition, offset, owner)
                && var s := Slot(topic, group, partition);
                && old(Owns(View(), s, offset, Glob.TrimSpace(owner)))
                && old(At(View(), s).inflight[offset].owner) == Glob.TrimSpace(owner)
                && k < |steps| && steps[k].Nack? && steps[k].slot == s && steps[k].offset == offset
                  && TickSteps(steps[k + 1..])
                && GaveUp(s, offset, old(At(View(), s).inflight[offset]), Glob.TrimSpace(owner), Reason(reason), steps,
                          k)
                && Takes(cfg, old(View()), steps[..k + 1], made)
                && steps[k].now <= tick && Ticked(cfg, made, View(), tick)
      ensures Argued(topic, group, partition, offset, owner)
              && old(Owns(View(), Slot(topic, group, partition), offset, Glob.TrimSpace(owner)))
              ==> err.None? || (err == Some(LogFailed) && LogRefuses(env))
      ensures NoFlush(steps)
      ensures err.Some? && partition >= 0 ==>
                var s := Slot(topic, group, partition);
                At(View(), s).inflight == old(At(View(), s).inflight) && items == old(items)
    {
      hide WalInv, Takes, LeasesSet, TickSteps, GaveUp, Ticked;
      TakesNone(cfg, View());
      var name, why := Glob.TrimSpace(owner), Glob.TrimSpace(reason);
      if why == "" {
        why := "nack";
      }
      err, steps, k, made, tick := ArgumentError(topic, group, partition, offset), [], 0, View(), 0;
      if err.None? && name == "" {
        err := Some(EmptyName);
      }
      if err.None? {
        err, steps, k, made, tick := NackOwned(Slot(topic, group, partition), offset, name, why);
      }
    }

    /** The rest of Nack: the error is noted and logged, a keyed message's lease is given up, and
        the entry is made due at once. */
    method NackOwned(s: Slot, offset: nat, owner: string, reason: string)
        returns (err: Option<Error>, ghost steps: seq<Step>, ghost k: nat, ghost made: State, ghost tick: int)
      requires Valid() && s.topic != "" && s.group != "" && owner != "" && reason != ""
      modifies this`topics, this`slots, this`groups, this`items, this`wal, this`cursors
      ensures Valid() && Takes(cfg, old(View()), steps, View())
      ensures err.None? ==> old(Owns(View(), s, offset, owner))
                            && k < |steps| && steps[k].Nack? && steps[k].slot == s && steps[k].offset == offset
                              && TickSteps(steps[k + 1..])
                            && GaveUp(s, offset, old(At(View(), s).inflight[offset]), owner, reason, steps, k)
                            && Takes(cfg, old(View()), steps[..k + 1], made)
                            && steps[k].now <= tick && Ticked(cfg, made, View(), tick)
      ensures old(Owns(View(), s, offset, owner)) ==> err.None? || (err == Some(LogFailed) && LogRefuses(env))
      ensures NoFlush(steps)
      ensures err.Some? ==> At(View(), s).inflight == old(At(View(), s).inflight) && items == old(items)
    {
      hide WalInv, Takes, TickSteps, LeasesSet, GaveUp, Keyed, AppendError, FailsKey, LogRefuses, NoFlush,
        Ticked;
      TakesNone(cfg, View());
      NoneNoFlush();
      steps, k, made, tick := [], 0, View(), 0;
      if s.topic !in topics {
        return Some(NoTopic), steps, k, made, tick;
      }
      if s.partition >= |topics[s.topic].logs| {
        return Some(NoPartition), steps, k, made, tick;
      }
      if offset !in At(View(), s).inflight {
        return Some(NotInFlight), steps, k, made, tick;
      }
      if At(View(), s).inflight[offset].owner != owner {
        return Some(NotOwner), steps, k, made, tick;
      }
      var logged;
      logged, steps := NoteNack(s, offset, reason);
      if !logged {
        return Some(LogFailed), steps, k, made, tick;
      }
      ghost var noted := View();
      ghost var failing := FailKey(s, offset, owner, reason);
      TakesMore(cfg, old(View()), steps, noted, failing, View());
      GivesUp(s, offset, old(At(View(), s).inflight[offset]), owner, reason, steps, failing);
      MoreNoFlush(steps, failing);
      steps := steps + failing;
      k := |steps|;
      ghost var before := View();
      ghost var rest;
      rest, made, tick := MakeDue(s, offset);
      TakesMore(cfg, old(View()), steps, before, rest, View());
      TakesMore(cfg, old(View()), steps, before, rest[..1], made);
      assert (steps + rest)[..k + 1] == steps + rest[..1];
      GivenUp(s, offset, old(At(View(), s).inflight[offset]), owner, reason, steps, rest);
      MadeDueNoFlush(rest);
      MoreNoFlush(steps, rest);
      steps := steps + rest;
      assert steps[k] == rest[0] && steps[k + 1..] == rest[1..];
      err := None;
    }

    /** The merged error, in memory and in the log; in the entry only if the append succeeds. */
    method NoteNack(s: Slot, offset: nat, reason: string) returns (logged: bool, ghost steps: seq<Step>)
      requires Valid() && Flying(View(), s, offset)
      modifies this`slots, this`wal
      ensures Valid() && Takes(cfg, old(View()), steps, View()) && NoFlush(steps)
      ensures Flying(View(), s, offset)
      ensures !logged ==> At(View(), s).inflight == old(At(View(), s).inflight) && LogRefuses(env)
      ensures var e := old(At(View(), s).inflight[offset]);
              steps == [Note(s, offset, AppendError(e.lastError, reason), logged, logged)]
      ensures logged ==> var e := At(View(), s).inflight[offset];
              e == old(At(View(), s).inflight[offset]).(lastError := e.lastError)
    {
      hide WalInv, Takes, LeasesSet, Enabled, Apply, Paired;
      InvPaired(cfg, View());
      FlightFacts(cfg, View(), s, offset);
      var merged := AppendError(At(View(), s).inflight[offset].lastError, reason);
      var moment: int := *;
      logged := !env.refuses(moment);
      Record(s, offset, merged, logged, logged);
      TakesOne(cfg, old(View()), Note(s, offset, merged, logged, logged));
      steps := [Note(s, offset, merged, logged, logged)];
      TakesKeepsInv(cfg, old(View()), steps, View());
    }

    /** The entry's lease counts as over, and redelivery runs. */
    method MakeDue(s: Slot, offset: nat) returns (ghost steps: seq<Step>, ghost made: State, ghost tick: int)
      requires Valid() && Flying(View(), s, offset)
      modifies this`topics, this`slots, this`groups, this`items, this`wal, this`cursors
      ensures Valid() && Takes(cfg, old(View()), steps, View())
      ensures steps != [] && steps[0].Nack? && steps[0].slot == s && steps[0].offset == offset && TickSteps(steps[1..])
      ensures Takes(cfg, old(View()), steps[..1], made) && steps[0].now <= tick && Ticked(cfg, made, View(), tick)
    {
      hide WalInv, Takes, TickSteps, LeasesSet, Enabled, Apply, Paired, NackLease, Handled;
      InvPaired(cfg, View());
      var now: int := *;
      NackFacts(cfg, View(), s, offset, now);
      var step := BrokerState.Nack(s, offset, now);
      TakesOne(cfg, View(), step);
      var ss := At(View(), s);
      var e := ss.inflight[offset];
      var lease := FirstLease(Streams(View(), s), e.owner, cfg.ackTimeout);
      e := e.(nextAt := None, sentAt := now - lease - MILLISECOND);
      slots := slots[s := ss.(inflight := ss.inflight[offset := e])];
      TakesKeepsInv(cfg, old(View()), [step], View());
      ghost var before := View();
      var later: int := *;
      if later < now {
        later := now;
      }
      ghost var more := RedeliverExpired(later);
      TakesMore(cfg, old(View()), [step], before, more, View());
      steps, made, tick := [step] + more, before, later;
      assert steps[1..] == more && steps[..1] == [step];
    }

    /** Gives up the lease of a keyed message; if that fails the error is noted too. */
    method FailKey(s: Slot, offset: nat, owner: string, reason: string) returns (ghost steps: seq<Step>)
      requires Valid() && Flying(View(), s, offset)
      modifies this`slots, this`items, this`wal
      ensures Valid() && Takes(cfg, old(View()), steps, View())
      ensures Flying(View(), s, offset)
      ensures var e := At(View(), s).inflight[offset];
              e == old(At(View(), s).inflight[offset]).(lastError := e.lastError)
      ensures NoFlush(steps)
      ensures var m := old(At(View(), s).inflight[offset].msg);
              Keyed(m) ==> steps != [] && FailsKey(s, m, owner, reason, steps[0])
    {
      hide WalInv, Takes, TickSteps, LeasesSet, Enabled, Apply, Paired, Keyed;
      var m := At(View(), s).inflight[offset].msg;
      TakesNone(cfg, View());
      steps := [];
      if Keyed(m) {
        var now: int, moment: int := *, *;
        var logOk := !env.refuses(moment);
        var op := I.OpFailIfOwner(ConsumeKey(s, m), owner, reason, now, logOk);
        InvPaired(cfg, View());
        FailFacts(cfg, View(), s, m, op);
        TakesOne(cfg, View(), Idem(op));
        var reply := Perform(op);
        steps := [Idem(op)];
        TakesKeepsInv(cfg, old(View()), steps, View());
        if !reply.Done? && !reply.NotFound? {
          ghost var before := View();
          TakesNone(cfg, View());
          NoEntrySteps(s, offset);
          ghost var more := NoteError(s, offset, "idem_fail_failed: " + ReplyText(reply), before, []);
          TakesMore(cfg, old(View()), steps, before, more, View());
          EntryStepsAreTickSteps(s, offset, more);
          TickNoFlush(more);
          steps := steps + more;
        }
      }
    }

    // Other calls

    /** Any operation of the idempotency store by a client. */
    method Operate(op: I.Op) returns (ghost steps: seq<Step>)
      requires Valid()
      modifies this`items, this`wal
      ensures Valid() && Takes(cfg, old(View()), steps, View()) && NoFlush(steps)
    {
      hide WalInv, Takes, LeasesSet, Enabled, Apply, Paired, I.WellScoped, Addressed;
      TakesNone(cfg, View());
      steps := [];
      if I.WellScoped(op) && Addressed(op.k) {
        InvPaired(cfg, View());
        IdemAny(cfg, View(), op);
        TakesOne(cfg, View(), Idem(op));
        var _ := Perform(op);
        steps := [Idem(op)];
        TakesKeepsInv(cfg, old(View()), steps, View());
      }
    }

    /** A consumer's context is canceled: its stream goes. */
    method RemoveStream(gid: GroupId, index: nat) returns (ghost steps: seq<Step>)
      requires Valid()
      modifies this`consumers
      ensures Valid() && Takes(cfg, old(View()), steps, View()) && NoFlush(steps)
      ensures forall g :: g != gid && g in old(consumers) ==> g in consumers && consumers[g] == old(consumers)[g]
      ensures gid in old(consumers) && index < |old(consumers)[gid]| ==>
                var left := if gid in consumers then consumers[gid] else [];
                multiset(left) == multiset(old(consumers)[gid]) - multiset{old(consumers)[gid][index]}
                && (gid in consumers ==> left != [])
    {
      hide WalInv, Takes, Enabled, Apply, Paired, LeasesSet, Without;
      TakesNone(cfg, View());
      steps := [];
      if gid in consumers && index < |consumers[gid]| {
        InvPaired(cfg, View());
        UnregisterFacts(cfg, View(), gid, index);
        UnregisteredLeases(View(), gid, index);
        TakesOne(cfg, View(), Unregister(gid, index));
        var rest := Without(consumers[gid], index);
        WithoutOne(consumers[gid], index);
        if rest == [] {
          consumers := consumers - {gid};
        } else {
          consumers := consumers[gid := rest];
        }
        steps := [Unregister(gid, index)];
        TakesKeepsInv(cfg, old(View()), steps, View());
      }
    }

    /** One section under the lock of the offset flush, if its turn has come. */
    method FlushSection() returns (ghost steps: seq<Step>)
      requires Valid()
      modifies this`slots, this`wal
      ensures Valid() && Takes(cfg, old(View()), steps, View())
    {
      hide WalInv, Takes, Enabled, Apply, Paired, LeasesSet;
      TakesNone(cfg, View());
      InvPaired(cfg, View());
      steps := [];
      var moment: int := *;
      if forall s :: s in slots ==> slots[s].taken == -1 {
        TakeAll();
        steps := [FlushTake];
        TakesOne(cfg, old(View()), FlushTake);
      } else if env.refuses(moment) {
        ReturnTaken();
        steps := [FlushFail];
        TakesOne(cfg, old(View()), FlushFail);
      } else {
        var s :| s in slots && slots[s].taken != -1;
        TakenIsOffset(cfg, View());
        WriteOne(s);
        steps := [FlushWrite(s)];
        TakesOne(cfg, old(View()), FlushWrite(s));
      }
      TakesKeepsInv(cfg, old(View()), steps, View());
    }

    /** One section of another call, whichever it is. */
    method OtherCall(flushing: bool) returns (ghost steps: seq<Step>)
      requires Valid()
      modifies this
      ensures Valid() && Takes(cfg, old(View()), steps, View())
      ensures !flushing ==> NoFlush(steps)
    {
      hide WalInv, Takes, LeasesSet, NoFlush, TopicSteps, TickSteps;
      var kind: int, topic: string, group: string, partition: int, offset: int, owner: string := *, *, *, *, *, *;
      if kind == 0 {
        var _, created := CreateTopic(topic, partition);
        CreatedNoFlush(topic, partition, created);
        steps := created;
      } else if kind == 1 {
        var m: Message, hash: nat := *, *;
        var _, _, _, produced := ProduceLocked(topic, m, hash);
        FirstNoFlush(topic, produced);
        steps := produced;
      } else if kind == 2 {
        var _, acked := Ack(topic, group, partition, offset);
        FirstNoFlush(topic, acked);
        steps := acked;
      } else if kind == 3 {
        var _, nacked, _, _, _ := Nack(topic, group, partition, offset, owner, "");
        steps := nacked;
      } else if kind == 4 {
        ghost var ticked := RedeliverExpired(offset);
        TickNoFlush(ticked);
        steps := ticked;
      } else if kind == 5 {
        steps := [];
        TakesNone(cfg, View());
        NoneNoFlush();
        if topic in topics && topic != "" && group != "" && owner != "" && offset >= 0 {
          AddStream(GroupId(topic, group), Consumer(owner, offset));
          steps := [Register(GroupId(topic, group), Consumer(owner, offset))];
          RegisteredNoFlush(GroupId(topic, group), Consumer(owner, offset));
        }
      } else if kind == 6 {
        var index: nat := *;
        steps := RemoveStream(GroupId(topic, group), index);
      } else if kind == 7 {
        var _, dispatched := Dispatch(topic, None);
        DispatchedNoFlush(topic, dispatched);
        steps := dispatched;
      } else if kind == 8 {
        steps := [];
        TakesNone(cfg, View());
        NoneNoFlush();
        if topic in topics && group != "" {
          Touch(GroupId(topic, group));
          steps := [TouchGroup(GroupId(topic, group))];
          TouchedNoFlush(GroupId(topic, group));
        }
      } else if kind == 9 && flushing {
        steps := FlushSection();
      } else {
        var op: I.Op := *;
        steps := Operate(op);
      }
    }

    /** What other calls do while the lock is free: any number of their sections, in any order. */
    method OtherCalls(flushing: bool) returns (ghost steps: seq<Step>)
      requires Valid()
      modifies this
      ensures Valid() && Takes(cfg, old(View()), steps, View())
      ensures !flushing ==> NoFlush(steps)
    {
      hide WalInv, Takes, LeasesSet, NoFlush;
      TakesNone(cfg, View());
      NoneNoFlush();
      steps := [];
      var calls: int := *;
      for i := 0 to if calls > 0 then calls else 0
        invariant Valid() && Takes(cfg, old(View()), steps, View())
        invariant !flushing ==> NoFlush(steps)
      {
        ghost var before := View();
        ghost var more := OtherCall(flushing);
        TakesMore(cfg, old(View()), steps, before, more, View());
        if !flushing {
          MoreNoFlush(steps, more);
        }
        steps := steps + more;
      }
    }

    // Flushing offsets

    /** flushPendingOffsets: takes the pending offsets under the lock, lets go of it, and writes
        them.  If every append succeeds, a restart gives at least the offsets that were committed
        when the flush began, and exactly the live ones if no other call came in between. */
    method FlushPendingOffsets() returns (ok: bool, ghost steps: seq<Step>, ghost others: seq<Step>)
      requires Valid() && forall s :: s in slots ==> slots[s].taken == -1
      modifies this
      ensures Valid() && Takes(cfg, old(View()), steps, View())
      ensures forall s :: s in slots ==> slots[s].taken == -1
      ensures Recovered(wal).Some?
      ensures !ok ==> LogRefuses(env)
      ensures ok ==> forall s :: LoggedOffset(Recovered(wal).value, s) >= old(At(View(), s).committed)
      ensures ok && others == [] ==> forall s :: LoggedOffset(Recovered(wal).value, s) == At(View(), s).committed
      ensures forall s :: At(View(), s).committed >= old(At(View(), s).committed)
    {
      hide WalInv, Takes, LeasesSet, Enabled, Apply, Paired, Recovered, BrokerRuns.SlotForward, Covered;
      TakesNone(cfg, View());
      LogReplays(cfg, View());
      steps, others := [], [];
      if forall s :: s in slots ==> slots[s].pending == -1 {
        AllLogged(cfg, View());
        return true, steps, others;
      }
      InvPaired(cfg, View());
      TakeAll();
      TakesOne(cfg, old(View()), FlushTake);
      steps := [FlushTake];
      TakesKeepsInv(cfg, old(View()), steps, View());
      CoveredOnTake(cfg, View(), old(View()));
      ghost var taken := View();
      ghost var writing;
      ok, writing, others := WriteTaken(old(View()));
      TakesMore(cfg, old(View()), steps, taken, writing, View());
      steps := steps + writing;
      LogReplays(cfg, View());
      if ok && others == [] {
        AllLogged(cfg, View());
      }
      forall s
        ensures At(View(), s).committed >= old(At(View(), s).committed)
      {
        TakesForward(cfg, old(View()), steps, View(), s);
        ForwardCommitted(old(At(View(), s)), At(View(), s));
      }
    }

    /** The first phase. */
    method TakeAll()
      requires Paired(View()) && forall s :: s in slots ==> slots[s].taken == -1
      modifies this`slots
      ensures Enabled(cfg, old(View()), FlushTake) && View() == Apply(cfg, old(View()), FlushTake)
      ensures forall s :: At(View(), s).pending == -1 && At(View(), s).committed == old(At(View(), s)).committed
      ensures forall s :: s in slots ==> slots[s].pending == -1
    {
      TakeFacts(cfg, View());
      hide Enabled, Apply, Paired;
      slots := map s | s in slots :: Take(slots[s]);
    }

    method WriteOne(s: Slot)
      requires Paired(View()) && s in slots && slots[s].taken >= 0
      modifies this`slots, this`wal
      ensures Enabled(cfg, old(View()), FlushWrite(s)) && View() == Apply(cfg, old(View()), FlushWrite(s))
      ensures slots == old(slots)[s := old(slots)[s].(taken := -1)]
      ensures wal == old(wal) + [OffsetRecord(s, old(slots)[s].taken)]
    {
      WriteFacts(cfg, View(), s);
      hide Enabled, Apply, Paired;
      wal := wal + [OffsetRecord(s, slots[s].taken)];
      slots := slots[s := slots[s].(taken := -1)];
    }

    method ReturnTaken()
      requires Paired(View())
      modifies this`slots
      ensures Enabled(cfg, old(View()), FlushFail) && View() == Apply(cfg, old(View()), FlushFail)
      ensures forall s :: s in slots ==> slots[s].taken == -1
    {
      GiveBackFacts(cfg, View());
      hide Enabled, Apply, Paired;
      slots := map s | s in slots :: GiveBack(slots[s]);
    }

    /** The second phase, without the lock: one record after the other; what a failed append leaves
        over goes back. */
    method WriteTaken(ghost goal: State) returns (ok: bool, ghost steps: seq<Step>, ghost others: seq<Step>)
      requires Valid() && NonePending(View()) && Recovered(wal).Some? && Covered(View(), goal)
      modifies this
      ensures Valid() && Takes(cfg, old(View()), steps, View())
      ensures NoneTaken(View()) && Recovered(wal).Some?
      ensures !ok ==> LogRefuses(env)
      ensures ok ==> forall s :: LoggedOffset(Recovered(wal).value, s) >= At(goal, s).committed
      ensures ok && others == [] ==> NonePending(View())
    {
      hide WalInv, Takes, LeasesSet, Recovered, Covered, At, TakenAre, NonePending, NoneTaken;
      TakesNone(cfg, View());
      steps, others := [], [];
      var todo := set s | s in slots && slots[s].taken >= 0;
      TakenFirst(View(), todo);
      ok := true;
      while todo != {} && ok
        invariant Valid() && Takes(cfg, old(View()), steps, View()) && Recovered(wal).Some?
        invariant if ok then TakenAre(View(), todo) && Covered(View(), goal) else NoneTaken(View())
        invariant ok && others == [] ==> NonePending(View())
        invariant !ok ==> LogRefuses(env)
        decreases todo, ok
      {
        ghost var before := View();
        var s :| s in todo;
        ghost var more, pause;
        ok, more, pause := WriteNext(s, todo, goal);
        TakesMore(cfg, old(View()), steps, before, more, View());
        steps, others := steps + more, others + pause;
        todo := todo - {s};
      }
      if ok {
        AllCovered(cfg, View(), goal);
      }
    }

    /** One round of it. */
    method WriteNext(s: Slot, ghost todo: set<Slot>, ghost goal: State)
      returns (ok: bool, ghost steps: seq<Step>, ghost pause: seq<Step>)
      requires Valid() && s in todo && TakenAre(View(), todo) && Recovered(wal).Some? && Covered(View(), goal)
      modifies this
      ensures Valid() && Takes(cfg, old(View()), steps, View()) && Recovered(wal).Some?
      ensures if ok then TakenAre(View(), todo - {s}) && Covered(View(), goal) else NoneTaken(View())
      ensures ok && pause == [] && NonePending(old(View())) ==> NonePending(View())
      ensures !ok ==> LogRefuses(env)
    {
      hide WalInv, Takes, LeasesSet, Recovered, Covered, At;
      pause := Pause(goal);
      ghost var before := View();
      TakenStill(old(View()), before, todo);
      ghost var step;
      ok, step := LogTaken(s, goal);
      TakesMore(cfg, old(View()), pause, before, [step], View());
      steps := pause + [step];
      if ok {
        TakenBut(before, View(), todo, s);
      }
    }

    /** The lock is free: other calls go on, but no other flush. */
    method Pause(ghost goal: State) returns (ghost more: seq<Step>)
      requires Valid() && Recovered(wal).Some? && Covered(View(), goal)
      modifies this
      ensures Valid() && Takes(cfg, old(View()), more, View())
      ensures Recovered(wal).Some? && Covered(View(), goal)
      ensures forall s :: At(View(), s).taken == old(At(View(), s)).taken
      ensures more == [] ==> View() == old(View())
    {
      hide WalInv, Takes, LeasesSet, Recovered, Covered, NoFlush, At;
      more := OtherCalls(false);
      CoveredStays(cfg, old(View()), more, View(), goal);
      SameTaken(cfg, old(View()), more, View());
      if more == [] {
        TakesNothing(cfg, old(View()), View());
      }
    }

    /** The append of one offset, or the end of the flush. */
    method LogTaken(s: Slot, ghost goal: State) returns (ok: bool, ghost step: Step)
      requires Valid() && At(View(), s).taken >= 0 && Recovered(wal).Some? && Covered(View(), goal)
      modifies this`slots, this`wal
      ensures Valid() && Takes(cfg, old(View()), [step], View())
      ensures Recovered(wal).Some? && (ok ==> Covered(View(), goal))
      ensures ok ==> forall u :: At(View(), u).taken == if u == s then -1 else old(At(View(), u)).taken
      ensures ok ==> forall u :: u in slots ==> u in old(slots) && slots[u].pending == old(slots)[u].pending
      ensures !ok ==> LogRefuses(env) && forall u :: u in slots ==> slots[u].taken == -1
    {
      hide WalInv, Takes, LeasesSet, Recovered, Covered, Enabled, Apply, Paired;
      SlotTaken(View(), s);
      InvPaired(cfg, View());
      var moment: int := *;
      ok := !env.refuses(moment);
      if ok {
        WriteOne(s);
        step := FlushWrite(s);
      } else {
        ReturnTaken();
        step := FlushFail;
      }
      TakesOne(cfg, old(View()), step);
      TakesKeepsInv(cfg, old(View()), [step], View());
      LogReplays(cfg, View());
      if ok {
        CoveredOnWrite(old(View()), View(), s, goal);
        OneLessTaken(old(View()), View(), s);
      }
    }

    // Consumers

    /** Consume (no lease asked for) and ConsumeWithLease: the new stream is registered, the lock is
        free for a moment, and then dispatch runs.  Unless a queue is full, the group, if it still
        has consumers then, has all it can have. */
    method Consume(gid: GroupId, owner: string, lease: Option<int>)
      returns (err: Option<Error>, full: bool, ghost steps: seq<Step>)
      requires Valid()
      modifies this
      ensures Valid() && Takes(cfg, old(View()), steps, View())
      ensures err.Some? <==>
                gid.topic == "" || gid.group == "" || Glob.TrimSpace(owner) == "" || gid.topic !in old(topics)
      ensures err.Some? ==> View() == old(View()) && steps == []
      ensures full ==> QueuesFill(env)
      ensures err.None? ==>
                && steps != [] && steps[0].Register? && steps[0].gid == gid
                && steps[0].consumer == Consumer(Glob.TrimSpace(owner), StreamLease(lease, cfg.ackTimeout))
                && (lease.None? <==> steps[0].consumer.lease == 0)
                && (lease.Some? && lease.value > 0 ==> steps[0].consumer.lease == lease.value)
                && gid.topic in topics
                && (!full && gid in consumers && consumers[gid] != [] ==>
                      QuietUpTo(cfg, View(), gid, None, |topics[gid.topic].logs|, steps))
    {
      hide WalInv, Takes, Enabled, Apply, Paired, TopicSteps, QuietUpTo, LeasesSet, NoFlush;
      TakesNone(cfg, View());
      steps, full := [], false;
      var name := Glob.TrimSpace(owner);
      if gid.topic == "" || gid.group == "" || name == "" {
        return Some(EmptyName), full, steps;
      }
      if gid.topic !in topics {
        return Some(NoTopic), full, steps;
      }
      var c := Consumer(name, 0);
      if lease.Some? {
        c := c.(lease := if lease.value > 0 then lease.value
                         else if cfg.ackTimeout > 0 then cfg.ackTimeout else 2_000_000_000);
      }
      AddStream(gid, c);
      ghost var added := View();
      ghost var others := OtherCalls(true);
      TakesMore(cfg, old(View()), [Register(gid, c)], added, others, View());
      TakesTopics(cfg, added, others, View());
      ghost var before, more := View(), [];
      full, more := Dispatch(gid.topic, None);
      TakesMore(cfg, old(View()), [Register(gid, c)] + others, before, more, View());
      steps := [Register(gid, c)] + others + more;
      if !full && gid in consumers && consumers[gid] != [] {
        QuietUpToLonger(cfg, View(), gid, None, |topics[gid.topic].logs|, [Register(gid, c)] + others, more);
      }
      err := None;
    }

    method AddStream(gid: GroupId, c: Consumer)
      requires Valid() && gid.topic in topics && gid.topic != "" && gid.group != "" && c.owner != "" && c.lease >= 0
      modifies this`consumers
      ensures Valid() && Takes(cfg, old(View()), [Register(gid, c)], View())
      ensures gid in consumers && consumers[gid] != []
    {
      hide WalInv, Takes, Enabled, Apply, Paired;
      InvPaired(cfg, View());
      RegisterFacts(cfg, View(), gid, c);
      TakesOne(cfg, View(), Register(gid, c));
      consumers := consumers[gid := (if gid in consumers then consumers[gid] else []) + [c]];
      TakesKeepsInv(cfg, old(View()), [Register(gid, c)], View());
    }

    constructor (cfg: Config, env: Env, b: State)
      ensures this.cfg == cfg && this.env == env && View() == b
    {
      this.cfg, this.env := cfg, env;
      topics, slots, groups, consumers, items, wal := b.topics, b.slots, b.groups, b.consumers, b.items, b.wal;
      cursors := map[];
    }
  }

  /** NewInMemoryBrokerFromWAL: on the log of any valid broker it succeeds, and the new broker is
      valid and agrees with the old one. */
  method FromWal(cfg: Config, env: Env, wal: seq<WalRecord>, now: int) returns (broker: InMemoryBroker?)
    ensures broker == null <==> Recovered(wal).None?
    ensures broker != null ==>
              broker.cfg == cfg && broker.env == env && broker.View() == Rebuilt(Recovered(wal).value, wal, now)
    ensures forall b :: WalInv(cfg, b) && b.wal == wal ==>
              broker != null && broker.Valid() && RestartFaithful(b, broker.View())
              && SameMessages(b.topics, broker.View().topics)
  {
    var b := Replay(wal, now);
    forall live | WalInv(cfg, live) && live.wal == wal
      ensures b.Some? && WalInv(cfg, b.value) && RestartFaithful(live, b.value)
              && SameMessages(live.topics, b.value.topics)
    {
      LogReplays(cfg, live);
      RestartAgrees(cfg, live, now);
    }
    hide WalInv, RestartFaithful, SameMessages, Recovered, Rebuilt;
    if b.None? {
      return null;
    }
    NoStreams(wal, now);
    broker := new InMemoryBroker(cfg, env, b.value);
  }
}
