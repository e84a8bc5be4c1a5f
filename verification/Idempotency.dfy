/** The idempotency store (internal/broker/idempotency.go): produce keys and leased consume keys
    with time-to-live eviction, and the log records of the consume scope.

    Time is an integer; `now` is the clock reading an operation took.  Whether the log accepts a
    record is a parameter.  The operations are functions on the item map; the class below holds
    the map and the log as the source does and is proved to follow them. */
module Idempotency {
  import opened Common

  type Blob = string

  datatype Scope = Produce | Consume
  datatype Key = Key(scope: Scope, tenant: string, topic: string, group: string, key: string)

  datatype Status = Pending | Committed | Failed

  datatype Item = Item(status: Status, result: Blob, lastError: string, updatedAt: int,
                       owner: string, leaseUntil: Option<int>)

  type Items = map<Key, Item>

  /** A consume-scope record of the log. */
  datatype Record = Record(key: Key, status: Status, owner: string, leaseUntil: Option<int>,
                           result: Blob, lastError: string, updatedAt: int)

  datatype Reply =
    | Granted                      // proceed
    | AlreadyDone(result: Blob)    // committed before
    | Done                         // the transition was made, or nothing was asked
    | InFlight | LeaseHeld | LeaseLost | NotFound | BadLease | LogError

  /** What an operation does: the new items, the reply, and the record it appended. */
  datatype Effect = Effect(items: Items, reply: Reply, logged: Option<Record>)

  const MIN_LEASE: int := 250_000_000            // 250 ms, in nanoseconds
  const MAX_LEASE: int := 600_000_000_000        // 10 min
  const DEFAULT_TTL: int := 600_000_000_000

  predicate ValidLease(lease: int) {
    MIN_LEASE <= lease <= MAX_LEASE
  }

  function Named(owner: string): string {
    if owner == "" then "unknown" else owner
  }

  predicate LeaseActive(item: Item, now: int) {
    item.leaseUntil.Some? && now < item.leaseUntil.value
  }

  /** What one round of the eviction loop decides. */
  predicate Evicts(k: Key, item: Item, ttl: int, now: int) {
    && !(k.scope == Consume && item.status == Committed)
    && !(k.scope == Consume && item.status == Pending && LeaseActive(item, now))
    && item.updatedAt < now - ttl
  }

  /** cleanupLocked. */
  function Cleanup(items: Items, ttl: int, now: int): Items {
    map k | k in items && !Evicts(k, items[k], ttl, now) :: items[k]
  }

  // Produce scope

  function ProduceKey(tenant: string, topic: string, key: string): Key {
    Key(Produce, tenant, topic, "", key)
  }

  /** Begin: the clock is read once for the eviction and once for the stamp. */
  function Begin(items: Items, ttl: int, k: Key, now: int, stamp: int): Effect {
    if k.key == "" then Effect(items, Granted, None)
    else
      var live := Cleanup(items, ttl, now);
      if k in live && live[k].status == Committed then Effect(live, AlreadyDone(live[k].result), None)
      else if k in live && live[k].status == Pending then Effect(live, InFlight, None)
      else Effect(live[k := Item(Pending, "", "", stamp, "", None)], Granted, None)
  }

  function Commit(items: Items, k: Key, result: Blob, now: int): Items {
    if k.key == "" then items else items[k := Item(Committed, result, "", now, "", None)]
  }

  function Fail(items: Items, k: Key, cause: string, now: int): Items {
    if k.key == "" then items else items[k := Item(Failed, "", cause, now, "", None)]
  }

  // Consume scope

  function PendingRecord(k: Key, owner: string, until: int, now: int): Record {
    Record(k, Pending, owner, Some(until), "", "", now)
  }

  /** ConsumeBeginLease. */
  function BeginLease(items: Items, ttl: int, k: Key, worker: string, lease: int, now: int, logOk: bool): Effect {
    if k.key == "" then Effect(items, Granted, None)
    else if !ValidLease(lease) then Effect(items, BadLease, None)
    else
      var owner := Named(worker);
      var live := Cleanup(items, ttl, now);
      var until := now + lease;
      if k in live && live[k].status == Committed then Effect(live, AlreadyDone(live[k].result), None)
      else if k in live && live[k].status == Pending && LeaseActive(live[k], now) && live[k].owner != owner
      then Effect(live, LeaseHeld, None)
      else if !logOk then Effect(live, LogError, None)
      else
        var item := if k !in live then Item(Pending, "", "", now, owner, Some(until))
                    else if live[k].status == Pending
                    then live[k].(owner := owner, leaseUntil := Some(until), updatedAt := now)
                    else live[k].(status := Pending, lastError := "", owner := owner, leaseUntil := Some(until),
                                  updatedAt := now);
        Effect(live[k := item], Granted, Some(PendingRecord(k, owner, until, now)))
  }

  /** The checks that renewing, committing and failing share. */
  function OwnerCheck(live: Items, k: Key, owner: string, now: int): Reply {
    if k !in live then NotFound
    else if live[k].status != Pending then LeaseLost
    else if live[k].owner != owner then LeaseHeld
    else if !LeaseActive(live[k], now) then LeaseLost
    else Granted
  }

  /** ConsumeRenewLease. */
  function RenewLease(items: Items, ttl: int, k: Key, worker: string, lease: int, now: int, logOk: bool): Effect {
    if k.key == "" then Effect(items, Done, None)
    else if !ValidLease(lease) then Effect(items, BadLease, None)
    else
      var owner := Named(worker);
      var live := Cleanup(items, ttl, now);
      var check := OwnerCheck(live, k, owner, now);
      if check != Granted then Effect(live, check, None)
      else if !logOk then Effect(live, LogError, None)
      else
        var until := now + lease;
        Effect(live[k := live[k].(leaseUntil := Some(until), updatedAt := now)], Granted,
               Some(PendingRecord(k, owner, until, now)))
  }

  /** ConsumeCommitIfOwner. */
  function CommitIfOwner(items: Items, ttl: int, k: Key, worker: string, result: Blob, now: int, logOk: bool): Effect {
    if k.key == "" then Effect(items, Done, None)
    else
      var owner := Named(worker);
      var live := Cleanup(items, ttl, now);
      if k in live && live[k].status == Committed then Effect(live, Done, None)
      else
        var check := OwnerCheck(live, k, owner, now);
        if check != Granted then Effect(live, check, None)
        else if !logOk then Effect(live, LogError, None)
        else
          Effect(live[k := Item(Committed, result, "", now, "", None)], Done,
                 Some(Record(k, Committed, owner, live[k].leaseUntil, result, "", now)))
  }

  /** ConsumeFailIfOwner. */
  function FailIfOwner(items: Items, ttl: int, k: Key, worker: string, cause: string, now: int, logOk: bool): Effect {
    if k.key == "" then Effect(items, Done, None)
    else
      var owner := Named(worker);
      var live := Cleanup(items, ttl, now);
      var check := OwnerCheck(live, k, owner, now);
      if check != Granted then Effect(live, check, None)
      else if !logOk then Effect(live, LogError, None)
      else
        Effect(live[k := Item(Failed, "", cause, now, "", None)], Done,
               Some(Record(k, Failed, owner, None, "", cause, now)))
  }

  // All operations as one alphabet

  datatype Op =
    | OpBegin(k: Key, now: int, stamp: int)
    | OpCommit(k: Key, result: Blob, now: int)
    | OpFail(k: Key, cause: string, now: int)
    | OpBeginLease(k: Key, worker: string, lease: int, now: int, logOk: bool)
    | OpRenewLease(k: Key, worker: string, lease: int, now: int, logOk: bool)
    | OpCommitIfOwner(k: Key, worker: string, result: Blob, now: int, logOk: bool)
    | OpFailIfOwner(k: Key, worker: string, cause: string, now: int, logOk: bool)
    | OpCheck(k: Key, now: int)

  /** Produce operations name produce keys, consume operations consume keys. */
  predicate WellScoped(op: Op) {
    if op.OpBegin? || op.OpCommit? || op.OpFail? then op.k.scope == Produce
    else if op.OpCheck? then true
    else op.k.scope == Consume
  }

  function Do(items: Items, ttl: int, op: Op): Effect {
    match op
    case OpBegin(k, now, stamp) => Begin(items, ttl, k, now, stamp)
    case OpCommit(k, result, now) => Effect(Commit(items, k, result, now), Done, None)
    case OpFail(k, cause, now) => Effect(Fail(items, k, cause, now), Done, None)
    case OpBeginLease(k, worker, lease, now, logOk) => BeginLease(items, ttl, k, worker, lease, now, logOk)
    case OpRenewLease(k, worker, lease, now, logOk) => RenewLease(items, ttl, k, worker, lease, now, logOk)
    case OpCommitIfOwner(k, worker, result, now, logOk) => CommitIfOwner(items, ttl, k, worker, result, now, logOk)
    case OpFailIfOwner(k, worker, cause, now, logOk) => FailIfOwner(items, ttl, k, worker, cause, now, logOk)
    case OpCheck(k, now) => Effect(if k.key == "" then items else Cleanup(items, ttl, now), Done, None)
  }

  // Committed is for ever

  ghost predicate CommittedIn(items: Items, k: Key) {
    k in items && items[k].status == Committed
  }

  /** No operation, on this key or any other, changes a committed consume key. */
  lemma CommittedStays(items: Items, ttl: int, op: Op, k: Key)
    requires WellScoped(op) && k.scope == Consume && CommittedIn(items, k)
    ensures var after := Do(items, ttl, op).items; k in after && after[k] == items[k]
    ensures op.k == k && op.OpBeginLease? && k.key != "" && ValidLease(op.lease) ==>
              Do(items, ttl, op).reply == AlreadyDone(items[k].result)
    ensures Do(items, ttl, op).logged.Some? ==> Do(items, ttl, op).logged.value.key != k
  {
  }

  /** A consume key becomes committed only through a logged commit of its lease holder. */
  lemma CommitIsLogged(items: Items, ttl: int, op: Op, k: Key)
    requires WellScoped(op) && k.scope == Consume && !CommittedIn(items, k)
    ensures var e := Do(items, ttl, op);
            CommittedIn(e.items, k) <==> e.logged.Some? && e.logged.value.key == k && e.logged.value.status == Committed
    ensures var e := Do(items, ttl, op);
            CommittedIn(e.items, k) ==> e.logged.value.result == e.items[k].result
  {
  }

  // Restarts

  /** What replay makes of one record: pending leases are dropped. */
  function Restore(items: Items, r: Record): Items {
    match r.status
    case Committed => items[r.key := Item(Committed, r.result, "", r.updatedAt, "", None)]
    case Failed => items[r.key := Item(Failed, "", r.lastError, r.updatedAt, "", None)]
    case Pending => items
  }

  function Restored(log: seq<Record>): Items {
    if log == [] then map[] else Restore(Restored(log[..|log| - 1]), log[|log| - 1])
  }

  lemma RestoredSnoc(log: seq<Record>, r: Record)
    ensures Restored(log + [r]) == Restore(Restored(log), r)
  {
    assert (log + [r])[..|log + [r]| - 1] == log;
  }

  /** Items and log agree on the committed consume keys, and nothing was logged for a key after
      its commit. */
  ghost predicate LogAgrees(items: Items, log: seq<Record>) {
    && (forall k: Key :: k.scope == Consume ==> (CommittedIn(items, k) <==> CommittedIn(Restored(log), k)))
    && (forall k: Key :: k.scope == Consume && CommittedIn(items, k) ==> Restored(log)[k].result == items[k].result)
    && (forall i, j :: 0 <= i < j < |log| && log[i].key == log[j].key ==> log[i].status != Committed)
    && (forall i :: 0 <= i < |log| && log[i].status == Committed ==> CommittedIn(items, log[i].key))
    && (forall i :: 0 <= i < |log| ==> log[i].key.scope == Consume)
  }

  function Append(log: seq<Record>, r: Option<Record>): seq<Record> {
    if r.Some? then log + [r.value] else log
  }

  lemma StepKeepsLog(items: Items, log: seq<Record>, ttl: int, op: Op)
    requires WellScoped(op) && LogAgrees(items, log)
    ensures LogAgrees(Do(items, ttl, op).items, Append(log, Do(items, ttl, op).logged))
  {
    hide Do;
    var e := Do(items, ttl, op);
    forall k: Key | k.scope == Consume
      ensures CommittedIn(items, k) ==> CommittedIn(e.items, k) && e.items[k] == items[k]
                                        && (e.logged.Some? ==> e.logged.value.key != k)
      ensures !CommittedIn(items, k) ==>
                (CommittedIn(e.items, k) <==>
                 e.logged.Some? && e.logged.value.key == k && e.logged.value.status == Committed)
      ensures !CommittedIn(items, k) && CommittedIn(e.items, k) ==> e.logged.value.result == e.items[k].result
    {
      if CommittedIn(items, k) {
        CommittedStays(items, ttl, op, k);
      } else {
        CommitIsLogged(items, ttl, op, k);
      }
    }
    LoggedIsConsume(items, ttl, op);
    if e.logged.Some? {
      RestoredSnoc(log, e.logged.value);
    }
  }

  lemma LoggedIsConsume(items: Items, ttl: int, op: Op)
    requires WellScoped(op)
    ensures Do(items, ttl, op).logged.Some? ==> Do(items, ttl, op).logged.value.key.scope == Consume
  {
  }

  /** A crash and a replay of the log keep the agreement. */
  lemma RestartKeepsLog(items: Items, log: seq<Record>)
    requires LogAgrees(items, log)
    ensures LogAgrees(Restored(log), log)
  {
  }

  // Whole runs: any operations, any crashes

  datatype Event = Call(op: Op) | Restart

  datatype World = World(items: Items, log: seq<Record>)

  function Next(w: World, ttl: int, ev: Event): World {
    match ev
    case Call(op) => World(Do(w.items, ttl, op).items, Append(w.log, Do(w.items, ttl, op).logged))
    case Restart => World(Restored(w.log), w.log)
  }

  function RunFrom(w: World, ttl: int, run: seq<Event>): World {
    if run == [] then w else Next(RunFrom(w, ttl, run[..|run| - 1]), ttl, run[|run| - 1])
  }

  ghost predicate Scoped(run: seq<Event>) {
    forall i :: 0 <= i < |run| && run[i].Call? ==> WellScoped(run[i].op)
  }

  lemma {:induction false} RunKeepsLog(w: World, ttl: int, run: seq<Event>)
    requires LogAgrees(w.items, w.log) && Scoped(run)
    ensures var end := RunFrom(w, ttl, run); LogAgrees(end.items, end.log) && w.log <= end.log
  {
    if run != [] {
      var front, ev := run[..|run| - 1], run[|run| - 1];
      RunKeepsLog(w, ttl, front);
      var mid := RunFrom(w, ttl, front);
      if ev.Call? {
        StepKeepsLog(mid.items, mid.log, ttl, ev.op);
      } else {
        RestartKeepsLog(mid.items, mid.log);
      }
    }
  }

  /** Once a consume key is committed, no run of operations, evictions and restarts changes its
      status or its result. */
  lemma {:induction false} CommittedForever(w: World, ttl: int, run: seq<Event>, k: Key)
    requires LogAgrees(w.items, w.log) && Scoped(run)
    requires k.scope == Consume && CommittedIn(w.items, k)
    ensures var end := RunFrom(w, ttl, run); CommittedIn(end.items, k) && end.items[k].result == w.items[k].result
  {
    if run != [] {
      var front, ev := run[..|run| - 1], run[|run| - 1];
      CommittedForever(w, ttl, front, k);
      RunKeepsLog(w, ttl, front);
      var mid := RunFrom(w, ttl, front);
      if ev.Call? {
        CommittedStays(mid.items, ttl, ev.op, k);
      }
    }
  }

  /** At most one committed record per key is ever logged, from an empty store on. */
  lemma CommittedLoggedOnce(ttl: int, run: seq<Event>, i: nat, j: nat)
    requires Scoped(run)
    requires var log := RunFrom(World(map[], []), ttl, run).log;
             i < |log| && j < |log| && log[i].key == log[j].key && log[i].status == log[j].status == Committed
    ensures i == j
  {
    RunKeepsLog(World(map[], []), ttl, run);
  }

  // Leases exclude other owners

  /** The key is leased to this owner until that time. */
  ghost predicate Held(items: Items, k: Key, owner: string, until: int) {
    k in items && items[k].status == Pending && items[k].owner == owner && items[k].leaseUntil == Some(until)
  }

  /** The lease operations of an owner on a key. */
  predicate ActsOn(op: Op, k: Key, owner: string) {
    IsLeaseOp(op) && op.k == k && Named(op.worker) == owner
  }

  predicate IsLeaseOp(op: Op) {
    op.OpBeginLease? || op.OpRenewLease? || op.OpCommitIfOwner? || op.OpFailIfOwner?
  }

  lemma GrantHolds(items: Items, ttl: int, op: Op)
    requires WellScoped(op) && (op.OpBeginLease? || op.OpRenewLease?) && op.k.key != ""
    requires Do(items, ttl, op).reply == Granted
    ensures Held(Do(items, ttl, op).items, op.k, Named(op.worker), op.now + op.lease)
    ensures op.now < op.now + op.lease
    ensures Do(items, ttl, op).items[op.k].owner == if op.worker == "" then "unknown" else op.worker
  {
  }

  /** The holder takes a newer grant, commits or fails: the one thing that ends a running lease. */
  ghost predicate EndsLease(items: Items, ttl: int, op: Op, k: Key, owner: string) {
    ActsOn(op, k, owner) && Do(items, ttl, op).reply in {Granted, Done}
  }

  /** While a lease runs, an operation of anyone else neither takes it nor ends it, a refused one
      of the holder does not either, and the eviction it starts with does not remove it. */
  lemma LeaseStepExcludes(items: Items, ttl: int, op: Op, k: Key, owner: string, until: int)
    requires WellScoped(op) && k.scope == Consume && k.key != "" && Held(items, k, owner, until)
    requires op.now < until && !EndsLease(items, ttl, op, k, owner)
    ensures Held(Do(items, ttl, op).items, k, owner, until)
    ensures op.k == k && (op.OpBeginLease? || op.OpRenewLease?) && Named(op.worker) != owner ==>
              Do(items, ttl, op).reply == LeaseHeld || !ValidLease(op.lease)
    ensures op.k == k && (op.OpCommitIfOwner? || op.OpFailIfOwner?) && Named(op.worker) != owner ==>
              Do(items, ttl, op).reply == LeaseHeld
    ensures op.k == k && (op.OpBeginLease? || op.OpRenewLease?) && !ValidLease(op.lease) ==>
              Do(items, ttl, op).reply == BadLease
  {
  }

  // What every call answers, told by the items it finds

  /** Somebody's lease on the key runs at that moment. */
  ghost predicate Runs(items: Items, k: Key, owner: string, now: int) {
    k in items && items[k].status == Pending && items[k].owner == owner
    && items[k].leaseUntil.Some? && now < items[k].leaseUntil.value
  }

  /** The lease is somebody else's. */
  ghost predicate RunsElsewhere(items: Items, k: Key, owner: string, now: int) {
    exists other :: other != owner && Runs(items, k, other, now)
  }

  /** A lease is granted unless the work is done or somebody else's lease runs: a free key, a failed
      one, one whose lease has run out, and the owner's own. */
  lemma GrantedExactly(items: Items, ttl: int, k: Key, worker: string, lease: int, now: int, logOk: bool)
    requires k.scope == Consume && k.key != ""
    ensures var e := BeginLease(items, ttl, k, worker, lease, now, logOk);
            && (e.reply == BadLease <==> lease < 250_000_000 || lease > 600_000_000_000)
            && (e.reply != BadLease ==>
                  && (e.reply.AlreadyDone? <==> CommittedIn(items, k))
                  && (e.reply.AlreadyDone? ==> e.reply.result == items[k].result)
                  && (e.reply == LeaseHeld <==> RunsElsewhere(items, k, Named(worker), now))
                  && (e.reply == Granted <==>
                      logOk && !CommittedIn(items, k) && !RunsElsewhere(items, k, Named(worker), now))
                  && (e.reply == LogError <==>
                      !logOk && !CommittedIn(items, k) && !RunsElsewhere(items, k, Named(worker), now)))
            && (e.reply == Granted ==>
                  && Runs(e.items, k, Named(worker), now) && e.items[k].leaseUntil == Some(now + lease)
                  && e.logged == Some(Record(k, Pending, Named(worker), Some(now + lease), "", "", now)))
            && (e.reply != Granted ==>
                  e.logged.None? && forall j :: j in e.items ==> j in items && e.items[j] == items[j])
  {
    assert k in items && items[k].status == Pending && LeaseActive(items[k], now) ==>
        Runs(items, k, items[k].owner, now);
  }

  /** Renewing, committing and failing succeed exactly for the holder of a running lease; committing
      also if the work is done. */
  lemma HolderExactly(items: Items, ttl: int, op: Op)
    requires WellScoped(op) && op.k.key != "" && (op.OpRenewLease? || op.OpCommitIfOwner? || op.OpFailIfOwner?)
    requires op.OpRenewLease? ==> ValidLease(op.lease)
    ensures var e, runs := Do(items, ttl, op), Runs(items, op.k, Named(op.worker), op.now);
            && (op.OpRenewLease? ==> (e.reply == Granted <==> runs && op.logOk))
            && (op.OpCommitIfOwner? ==> (e.reply == Done <==> CommittedIn(items, op.k) || (runs && op.logOk)))
            && (op.OpFailIfOwner? ==> (e.reply == Done <==> runs && op.logOk))
            && (e.logged.Some? <==> runs && op.logOk)
            && (e.logged.None? ==> forall j :: j in e.items ==> j in items && e.items[j] == items[j])
    ensures var e := Do(items, ttl, op);
            e.logged.Some? ==>
              && op.k in e.items && e.logged.value.key == op.k && e.logged.value.updatedAt == op.now
              && (op.OpRenewLease? ==> Runs(e.items, op.k, Named(op.worker), op.now)
                                       && e.items[op.k].leaseUntil == Some(op.now + op.lease))
              && (op.OpCommitIfOwner? ==> CommittedIn(e.items, op.k) && e.items[op.k].result == op.result
                                          && e.logged.value.status == Committed && e.logged.value.result == op.result)
              && (op.OpFailIfOwner? ==> e.items[op.k].status == Failed && e.items[op.k].lastError == op.cause
                                        && e.logged.value.status == Failed && e.logged.value.lastError == op.cause)
  {
  }

  /** A keyed produce passes exactly if the key is unknown, failed, or too old; it is then pending. */
  lemma BeginExactly(items: Items, ttl: int, k: Key, now: int, stamp: int)
    requires k.scope == Produce && k.key != ""
    ensures var e := Begin(items, ttl, k, now, stamp);
            var young := k in items && items[k].updatedAt >= now - ttl;
            && (e.reply == Granted <==> !(young && (items[k].status == Pending || items[k].status == Committed)))
            && (e.reply == InFlight <==> young && items[k].status == Pending)
            && (e.reply.AlreadyDone? <==> young && items[k].status == Committed)
            && (e.reply.AlreadyDone? ==> e.reply.result == items[k].result)
            && (e.reply == Granted ==> k in e.items && e.items[k].status == Pending && e.items[k].updatedAt == stamp)
            && e.logged.None?
    ensures forall result :: var after := Commit(items, k, result, now);
                             k in after && after[k].status == Committed && after[k].result == result
                             && after[k].updatedAt == now
    ensures forall cause :: var after := Fail(items, k, cause, now); k in after && after[k].status == Failed
  {
  }

  /** The key has not changed for the time-to-live, and is no consume key that is committed or
      leased. */
  ghost predicate Stale(items: Items, j: Key, ttl: int, now: int) {
    && j in items && items[j].updatedAt < now - ttl
    && (j.scope == Consume ==>
          items[j].status == Failed || (items[j].status == Pending && !Runs(items, j, items[j].owner, now)))
  }

  /** The operation gets as far as looking at its key. */
  predicate Looks(op: Op) {
    op.k.key != "" && !op.OpCommit? && !op.OpFail? && (op.OpBeginLease? || op.OpRenewLease? ==> ValidLease(op.lease))
  }

  /** An operation leaves every other key alone, or forgets it if it is stale; one that gets as far
      as looking at its own key forgets all that are. */
  lemma OthersStay(items: Items, ttl: int, op: Op, j: Key)
    requires j != op.k
    ensures var after := Do(items, ttl, op).items;
            && (j in after ==> j in items && after[j] == items[j])
            && (j in items && j !in after ==> Stale(items, j, ttl, op.now))
            && (Stale(items, j, ttl, op.now) && Looks(op) ==> j !in after)
  {
  }

  /** A restart gives back, for every key, what its last commit or failure on record says. */
  ghost predicate LastSays(log: seq<Record>, k: Key, i: int) {
    && 0 <= i < |log| && log[i].key == k && log[i].status != Pending
    && forall j :: i < j < |log| ==> !(log[j].key == k && log[j].status != Pending)
  }

  lemma RestoredExactly(log: seq<Record>, k: Key)
    ensures k in Restored(log) <==> exists i :: LastSays(log, k, i)
    ensures forall i :: LastSays(log, k, i) ==>
              && k in Restored(log) && Restored(log)[k].status == log[i].status
              && Restored(log)[k].updatedAt == log[i].updatedAt
              && (log[i].status == Committed ==> Restored(log)[k].result == log[i].result)
              && (log[i].status == Failed ==> Restored(log)[k].lastError == log[i].lastError)
  {
    LastIs(log, k);
    RestoredAt(log, k);
    hide LastSays, Restored, LastOn;
    if LastOn(log, k) >= 0 {
      assert LastSays(log, k, LastOn(log, k));
    }
  }

  function LastOn(log: seq<Record>, k: Key): (i: int)
    ensures -1 <= i < |log|
  {
    if log == [] then -1
    else if log[|log| - 1].key == k && log[|log| - 1].status != Pending then |log| - 1
    else LastOn(log[..|log| - 1], k)
  }

  lemma {:induction false} LastIs(log: seq<Record>, k: Key)
    ensures forall i :: LastSays(log, k, i) <==> 0 <= i == LastOn(log, k)
  {
    if log != [] {
      var front, last := log[..|log| - 1], log[|log| - 1];
      LastIs(front, k);
      forall i
        ensures LastSays(log, k, i) <==> 0 <= i == LastOn(log, k)
      {
        if !(last.key == k && last.status != Pending) {
          assert LastSays(log, k, i) <==> LastSays(front, k, i);
        }
      }
    }
  }

  lemma {:induction false} RestoredAt(log: seq<Record>, k: Key)
    ensures k in Restored(log) <==> LastOn(log, k) >= 0
    ensures LastOn(log, k) >= 0 ==>
              var r := log[LastOn(log, k)];
              && Restored(log)[k].status == r.status && Restored(log)[k].updatedAt == r.updatedAt
              && (r.status == Committed ==> Restored(log)[k].result == r.result)
              && (r.status == Failed ==> Restored(log)[k].lastError == r.lastError)
  {
    if log != [] {
      RestoredAt(log[..|log| - 1], k);
    }
  }

  function Ops(items: Items, ttl: int, ops: seq<Op>): Items {
    if ops == [] then items else Do(Ops(items, ttl, ops[..|ops| - 1]), ttl, ops[|ops| - 1]).items
  }

  /** After a grant until U, over any operations whose clock readings are before U and none of
      which is a successful lease operation of the holder itself, the holder keeps the key, and
      every other owner's lease operation on it is refused.  Readings need not be in order. */
  lemma {:induction false} LeaseExcludes(items: Items, ttl: int, ops: seq<Op>, k: Key, owner: string, until: int,
                                         i: nat)
    requires k.scope == Consume && k.key != "" && Held(items, k, owner, until) && i <= |ops|
    requires forall j :: 0 <= j < |ops| ==>
               WellScoped(ops[j]) && ops[j].now < until && !EndsLease(Ops(items, ttl, ops[..j]), ttl, ops[j], k, owner)
    ensures Held(Ops(items, ttl, ops[..i]), k, owner, until)
    ensures i < |ops| && IsLeaseOp(ops[i]) && ops[i].k == k && Named(ops[i].worker) != owner ==>
              Do(Ops(items, ttl, ops[..i]), ttl, ops[i]).reply in {LeaseHeld, BadLease}
  {
    hide Do, EndsLease;
    if i > 0 {
      LeaseExcludes(items, ttl, ops, k, owner, until, i - 1);
      assert ops[..i][..i - 1] == ops[..i - 1];
      LeaseStepExcludes(Ops(items, ttl, ops[..i - 1]), ttl, ops[i - 1], k, owner, until);
    }
    if i < |ops| {
      LeaseStepExcludes(Ops(items, ttl, ops[..i]), ttl, ops[i], k, owner, until);
    }
  }

  // The store itself

  class IdempotencyStore {
    const ttl: int
    var items: Items
    var log: seq<Record>

    constructor (ttl: int)
      ensures this.ttl == (if ttl <= 0 then DEFAULT_TTL else ttl) && items == map[] && log == []
      ensures LogAgrees(items, log)
    {
      this.ttl := if ttl <= 0 then DEFAULT_TTL else ttl;
      items, log := map[], [];
    }

    /** The store did exactly what the operation says. */
    twostate predicate Did(op: Op, reply: Reply)
      reads this
    {
      var e := Do(old(items), ttl, op);
      items == e.items && reply == e.reply && log == Append(old(log), e.logged)
    }

    /** The eviction loop. */
    method CleanupLocked(now: int)
      modifies this`items
      ensures items == Cleanup(old(items), ttl, now)
    {
      var cutoff := now - ttl;
      var rest := items.Keys;
      ghost var before := items;
      while rest != {}
        invariant rest <= before.Keys && rest <= items.Keys <= before.Keys
        invariant forall k :: k in items ==> items[k] == before[k]
        invariant forall k :: k in before.Keys - rest ==> (k in items <==> !Evicts(k, before[k], ttl, now))
        decreases |rest|
      {
        var k :| k in rest;
        rest := rest - {k};
        var st := items[k];
        if k.scope == Consume && st.status == Committed {
          continue;
        }
        if k.scope == Consume && st.status == Pending {
          var leaseActive := st.leaseUntil.Some? && now < st.leaseUntil.value;
          if leaseActive {
            continue;
          }
        }
        if st.updatedAt < cutoff {
          items := items - {k};
        }
      }
      assert items == Cleanup(before, ttl, now);
    }

    method Begin(tenant: string, topic: string, key: string, now: int, stamp: int) returns (reply: Reply)
      modifies this
      ensures Did(OpBegin(ProduceKey(tenant, topic, key), now, stamp), reply)
    {
      if key == "" {
        return Granted;
      }
      CleanupLocked(now);
      var k := ProduceKey(tenant, topic, key);
      if k in items {
        match items[k].status
        case Committed => return AlreadyDone(items[k].result);
        case Pending => return InFlight;
        case Failed =>
      }
      items := items[k := Item(Pending, "", "", stamp, "", None)];
      return Granted;
    }

    method Commit(tenant: string, topic: string, key: string, result: Blob, now: int)
      modifies this
      ensures Did(OpCommit(ProduceKey(tenant, topic, key), result, now), Done)
    {
      if key == "" {
        return;
      }
      items := items[ProduceKey(tenant, topic, key) := Item(Committed, result, "", now, "", None)];
    }

    method Fail(tenant: string, topic: string, key: string, cause: string, now: int)
      modifies this
      ensures Did(OpFail(ProduceKey(tenant, topic, key), cause, now), Done)
    {
      if key == "" {
        return;
      }
      items := items[ProduceKey(tenant, topic, key) := Item(Failed, "", cause, now, "", None)];
    }

    method ConsumeBeginLease(k: Key, worker: string, lease: int, now: int, logOk: bool) returns (reply: Reply)
      requires k.scope == Consume
      modifies this
      ensures Did(OpBeginLease(k, worker, lease, now, logOk), reply)
    {
      if k.key == "" {
        return Granted;
      }
      if lease < MIN_LEASE || lease > MAX_LEASE {
        return BadLease;
      }
      var owner := if worker == "" then "unknown" else worker;
      CleanupLocked(now);
      var newUntil := now + lease;
      if k in items {
        var st := items[k];
        match st.status
        case Committed =>
          return AlreadyDone(st.result);
        case Pending =>
          if LeaseActive(st, now) && st.owner != owner {
            return LeaseHeld;
          }
          if !logOk {
            return LogError;
          }
          log := log + [PendingRecord(k, owner, newUntil, now)];
          items := items[k := st.(owner := owner, leaseUntil := Some(newUntil), updatedAt := now)];
          return Granted;
        case Failed =>
          if !logOk {
            return LogError;
          }
          log := log + [PendingRecord(k, owner, newUntil, now)];
          items := items[k := st.(status := Pending, lastError := "", owner := owner, leaseUntil := Some(newUntil),
                                  updatedAt := now)];
          return Granted;
      }
      if !logOk {
        return LogError;
      }
      log := log + [PendingRecord(k, owner, newUntil, now)];
      items := items[k := Item(Pending, "", "", now, owner, Some(newUntil))];
      return Granted;
    }

    method ConsumeRenewLease(k: Key, worker: string, lease: int, now: int, logOk: bool) returns (reply: Reply)
      requires k.scope == Consume
      modifies this
      ensures Did(OpRenewLease(k, worker, lease, now, logOk), reply)
    {
      if k.key == "" {
        return Done;
      }
      if lease < MIN_LEASE || lease > MAX_LEASE {
        return BadLease;
      }
      var owner := if worker == "" then "unknown" else worker;
      CleanupLocked(now);
      if k !in items {
        return NotFound;
      }
      var st := items[k];
      if st.status != Pending {
        return LeaseLost;
      }
      if st.owner != owner {
        return LeaseHeld;
      }
      if st.leaseUntil.None? || !(now < st.leaseUntil.value) {
        return LeaseLost;
      }
      if !logOk {
        return LogError;
      }
      log := log + [PendingRecord(k, owner, now + lease, now)];
      items := items[k := st.(leaseUntil := Some(now + lease), updatedAt := now)];
      return Granted;
    }

    method ConsumeCommitIfOwner(k: Key, worker: string, result: Blob, now: int, logOk: bool) returns (reply: Reply)
      requires k.scope == Consume
      modifies this
      ensures Did(OpCommitIfOwner(k, worker, result, now, logOk), reply)
    {
      if k.key == "" {
        return Done;
      }
      var owner := if worker == "" then "unknown" else worker;
      CleanupLocked(now);
      if k !in items {
        return NotFound;
      }
      var st := items[k];
      if st.status == Committed {
        return Done;
      }
      if st.status != Pending {
        return LeaseLost;
      }
      if st.owner != owner {
        return LeaseHeld;
      }
      if st.leaseUntil.None? || !(now < st.leaseUntil.value) {
        return LeaseLost;
      }
      if !logOk {
        return LogError;
      }
      log := log + [Record(k, Committed, owner, st.leaseUntil, result, "", now)];
      items := items[k := Item(Committed, result, "", now, "", None)];
      return Done;
    }

    method ConsumeFailIfOwner(k: Key, worker: string, cause: string, now: int, logOk: bool) returns (reply: Reply)
      requires k.scope == Consume
      modifies this
      ensures Did(OpFailIfOwner(k, worker, cause, now, logOk), reply)
    {
      if k.key == "" {
        return Done;
      }
      var owner := if worker == "" then "unknown" else worker;
      CleanupLocked(now);
      if k !in items {
        return NotFound;
      }
      var st := items[k];
      if st.status != Pending {
        return LeaseLost;
      }
      if st.owner != owner {
        return LeaseHeld;
      }
      if st.leaseUntil.None? || !(now < st.leaseUntil.value) {
        return LeaseLost;
      }
      if !logOk {
        return LogError;
      }
      log := log + [Record(k, Failed, owner, None, "", cause, now)];
      items := items[k := Item(Failed, "", cause, now, "", None)];
      return Done;
    }

    method ConsumeCheck(k: Key, now: int) returns (st: Option<Item>)
      modifies this
      ensures Did(OpCheck(k, now), Done)
      ensures st == if k.key != "" && k in items then Some(items[k]) else None
    {
      if k.key == "" {
        return None;
      }
      CleanupLocked(now);
      return if k in items then Some(items[k]) else None;
    }

    /** The restart of the consume scope: the replay loop over the log. */
    method Restart()
      modifies this
      ensures items == Restored(log) && log == old(log)
      ensures LogAgrees(old(items), log) ==> LogAgrees(items, log)
    {
      ghost var before := items;
      items := map[];
      for i := 0 to |log|
        invariant log == old(log) && items == Restored(log[..i])
      {
        assert log[..i + 1][..i] == log[..i];
        var r := log[i];
        match r.status
        case Committed => items := items[r.key := Item(Committed, r.result, "", r.updatedAt, "", None)];
        case Failed => items := items[r.key := Item(Failed, "", r.lastError, r.updatedAt, "", None)];
        case Pending =>
      }
      assert log[..|log|] == log;
      if LogAgrees(before, log) {
        RestartKeepsLog(before, log);
      }
    }
  }
}
