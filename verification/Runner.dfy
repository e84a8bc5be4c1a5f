/** The fan-out/fan-in scheduler (runDAGWithCache in internal/engine/runner_dag.go), replay from
    a step (internal/engine/replay.go, replay_helpers.go) and the replay caches
    (replay_cache.go, replay_branches.go).

    A `WorkflowRun` holds what the store keeps about one run; a `Call` holds the local variables
    of the scheduling call that is working on it.  Everything the environment decides -
    throttling, which result arrives when, errors, budget alarms, a crash at any point - is a
    nondeterministic choice, so a contract here speaks about every schedule.  Whether the run is
    canceled or its context has ended, at any moment, is an input (`Surroundings`). */
module Runner {
  import opened Common
  import opened Graph
  import opened Dag
  import opened Semantics

  datatype NodeStatus = NodeRunning | NodeWaiting | NodeSucceeded | NodeFailed | NodeCanceled
  datatype RunStatus = RunQueued | RunRunning | RunWaiting | RunSucceeded | RunFailed | RunCanceled

  datatype Attempt = Attempt(node: NodeId, number: nat)
  datatype Execution = Execution(status: NodeStatus, input: Input, output: Json)
  type Records = map<Attempt, Execution>

  datatype CacheEntry = CacheEntry(attempt: nat, output: Json)
  type Cache = map<NodeId, CacheEntry>

  datatype Flight = Flight(attempt: nat, input: Input)

  /** What a handler, or a human, answers to an attempt. */
  datatype Reply = Output(output: Json) | Delayed | Error

  /** How a scheduling call ends. */
  datatype Outcome =
    | Finished            // the run was marked succeeded
    | AlreadySucceeded
    | Failed
    | Canceled
    | Waiting
    | OverBudget
    | Invalid             // the graph does not validate
    | Interrupted         // a storage error or a crash

  predicate Succeeded(records: Records, k: Attempt) {
    k in records && records[k].status == NodeSucceeded
  }

  /** nodeHasSucceededAttempt. */
  predicate HasSucceeded(records: Records, n: NodeId) {
    exists k :: k in records && k.node == n && Succeeded(records, k)
  }

  /** Every record of `before` is still there, unchanged. */
  ghost predicate Keeps(before: Records, after: Records) {
    forall k :: k in before ==> k in after && after[k] == before[k]
  }

  function LastAttempt(maxAttempt: map<NodeId, nat>, n: NodeId): nat {
    if n in maxAttempt then maxAttempt[n] else 0
  }

  /** The number exceeds every recorded attempt of the node. */
  ghost predicate Above(records: Records, n: NodeId, number: nat) {
    forall k :: k in records && k.node == n ==> k.number < number
  }

  /** The highest number on record for the node, 0 without any. */
  ghost predicate IsHighest(records: Records, n: NodeId, h: nat) {
    (forall k :: k in records && k.node == n ==> k.number <= h) && (h > 0 ==> Attempt(n, h) in records)
  }

  /** The attempt a call makes of a node: one above the highest on record. */
  ghost predicate IsNext(records: Records, k: Attempt) {
    k.number > 0 && IsHighest(records, k.node, k.number - 1)
  }

  /** Among `keys`, the latest succeeded attempt of n with an output has this output. */
  ghost predicate IsLatest(records: Records, keys: set<Attempt>, n: NodeId, attempt: nat, output: Json) {
    && Attempt(n, attempt) in keys && Carries(records, Attempt(n, attempt))
    && records[Attempt(n, attempt)].output == output
    && forall k :: k in keys && k.node == n && Carries(records, k) ==> k.number <= attempt
  }

  predicate Carries(records: Records, k: Attempt) {
    Succeeded(records, k) && records[k].output != ""
  }

  /** A non-empty set of attempts has one with the least number of its node. */
  lemma FirstAttempt(keys: set<Attempt>) returns (first: Attempt)
    requires keys != {}
    ensures first in keys && forall k :: k in keys && k.node == first.node ==> first.number <= k.number
  {
    first :| first in keys;
    var rest := keys - {first};
    while rest != {}
      invariant first in keys && rest <= keys
      invariant forall k :: k in keys - rest && k.node == first.node ==> first.number <= k.number
      decreases |rest|
    {
      var k :| k in rest;
      rest := rest - {k};
      if k.node == first.node && k.number < first.number {
        first := k;
      }
    }
  }

  /** buildReplayCacheFromRun: the latest succeeded attempt with an output, per node. */
  method BuildReplayCache(records: Records) returns (cache: Cache)
    ensures forall n :: n in cache ==> IsLatest(records, records.Keys, n, cache[n].attempt, cache[n].output)
    ensures forall k :: k in records && Carries(records, k) ==> k.node in cache
  {
    cache := map[];
    var rest := records.Keys;
    while rest != {}
      invariant rest <= records.Keys
      invariant forall n :: n in cache ==> IsLatest(records, records.Keys - rest, n, cache[n].attempt, cache[n].output)
      invariant forall k :: k in records.Keys - rest && Carries(records, k) ==> k.node in cache
      decreases |rest|
    {
      var k :| k in rest;
      rest := rest - {k};
      var ne := records[k];
      if ne.status != NodeSucceeded {
        continue;
      }
      if |ne.output| == 0 {
        continue;
      }
      if k.node !in cache || k.number > cache[k.node].attempt {
        cache := cache[k.node := CacheEntry(k.number, ne.output)];
      }
    }
  }

  /** replayBranchCache: the entries outside the suffix, and the step itself when asked for. */
  function ReplayBranchCache(entries: Cache, suffix: set<NodeId>, includeFromStep: bool,
                             fromStep: NodeId): (out: Option<Cache>)
    ensures out.Some? ==> forall n :: n in out.value ==> n in entries && out.value[n] == entries[n]
    ensures out.Some? ==> forall n :: n in out.value <==>
                          n in entries && (n !in suffix || (includeFromStep && n == fromStep && fromStep != ""))
    ensures out.None? ==> forall n :: n in entries ==>
              n in suffix && !(includeFromStep && n == fromStep && fromStep != "")
  {
    if |entries| == 0 then
      EmptyCache(entries);
      None
    else if |suffix| == 0 then Some(entries)
    else
      var outside := map n | n in entries && n !in suffix :: entries[n];
      var out := if includeFromStep && fromStep != "" && fromStep in entries
                 then outside[fromStep := entries[fromStep]] else outside;
      if |out| == 0 then
        EmptyCache(out);
        assert forall n :: n in entries && n !in suffix ==> n in out;
        None
      else Some(out)
  }

  lemma EmptyCache(c: Cache)
    requires |c| == 0
    ensures forall n :: n !in c
  {
    assert c.Keys == {};
  }

  // What the resume loop has gathered from the attempts seen so far

  ghost predicate ReadDone(records: Records, seen: set<Attempt>, done: set<NodeId>) {
    && (forall k :: k in seen && Succeeded(records, k) ==> k.node in done)
    && (forall n :: n in done ==> HasSucceeded(records, n))
  }

  ghost predicate ReadOutputs(records: Records, seen: set<Attempt>, outputs: map<NodeId, Json>,
                              latest: map<NodeId, nat>)
  {
    && outputs.Keys == latest.Keys
    && (forall n :: n in outputs ==> IsLatest(records, seen, n, latest[n], outputs[n]))
    && (forall k :: k in seen && Carries(records, k) ==> k.node in outputs)
  }

  ghost predicate ReadAttempts(seen: set<Attempt>, maxAttempt: map<NodeId, nat>) {
    forall k :: k in seen ==> k.number <= LastAttempt(maxAttempt, k.node)
  }

  ghost predicate ReadNumbers(seen: set<Attempt>, maxAttempt: map<NodeId, nat>) {
    forall n :: LastAttempt(maxAttempt, n) > 0 ==> Attempt(n, LastAttempt(maxAttempt, n)) in seen
  }

  lemma NothingRead(records: Records)
    ensures ReadOutputs(records, {}, map[], map[])
  {
  }

  lemma NoneSeen(records: Records)
    ensures ReadDone(records, {}, {}) && ReadAttempts({}, map[]) && ReadNumbers({}, map[])
  {
  }

  lemma ReadOneOutput(records: Records, seen: set<Attempt>, outputs: map<NodeId, Json>, latest: map<NodeId, nat>,
                      k: Attempt)
    requires ReadOutputs(records, seen, outputs, latest) && k in records
    requires forall j :: j in seen && j.node == k.node ==> j.number <= k.number
    ensures if Carries(records, k)
            then ReadOutputs(records, seen + {k}, outputs[k.node := records[k].output], latest[k.node := k.number])
            else ReadOutputs(records, seen + {k}, outputs, latest)
    ensures Carries(records, k) <==> records[k].status == NodeSucceeded && |records[k].output| > 0
  {
    var seen' := seen + {k};
    if Carries(records, k) {
      var outputs', latest' := outputs[k.node := records[k].output], latest[k.node := k.number];
      forall n | n in outputs'
        ensures IsLatest(records, seen', n, latest'[n], outputs'[n])
      {
        if n == k.node {
          assert k == Attempt(n, k.number);
        }
      }
    }
  }

  lemma ReadOneDone(records: Records, seen: set<Attempt>, done: set<NodeId>, k: Attempt)
    requires ReadDone(records, seen, done) && k in records
    ensures ReadDone(records, seen + {k}, if records[k].status == NodeSucceeded then done + {k.node} else done)
  {
  }

  lemma ReadOneAttempt(seen: set<Attempt>, maxAttempt: map<NodeId, nat>, k: Attempt)
    requires ReadAttempts(seen, maxAttempt) && ReadNumbers(seen, maxAttempt)
    ensures var newer := k.number > LastAttempt(maxAttempt, k.node);
            var maxAttempt' := if newer then maxAttempt[k.node := k.number] else maxAttempt;
            ReadAttempts(seen + {k}, maxAttempt') && ReadNumbers(seen + {k}, maxAttempt')
  {
    var newer := k.number > LastAttempt(maxAttempt, k.node);
    var maxAttempt' := if newer then maxAttempt[k.node := k.number] else maxAttempt;
    forall n | LastAttempt(maxAttempt', n) > 0
      ensures Attempt(n, LastAttempt(maxAttempt', n)) in seen + {k}
    {
      assert newer && n == k.node ==> k == Attempt(n, LastAttempt(maxAttempt', n));
      assert !newer || n != k.node ==> LastAttempt(maxAttempt', n) == LastAttempt(maxAttempt, n);
    }
  }

  /** The loop over ListNodeExecutions.  Attempts of one node come in ascending order. */
  method ReadRecords(records: Records)
    returns (done: set<NodeId>, outputs: map<NodeId, Json>, maxAttempt: map<NodeId, nat>,
             ghost latest: map<NodeId, nat>)
    ensures ReadDone(records, records.Keys, done)
    ensures ReadOutputs(records, records.Keys, outputs, latest)
    ensures ReadAttempts(records.Keys, maxAttempt) && ReadNumbers(records.Keys, maxAttempt)
  {
    hide ReadOutputs, ReadDone, ReadAttempts, ReadNumbers, Carries;
    done, outputs, maxAttempt, latest := {}, map[], map[], map[];
    NothingRead(records);
    NoneSeen(records);
    var rest := records.Keys;
    ghost var seen: set<Attempt> := {};
    while rest != {}
      invariant rest <= records.Keys && seen == records.Keys - rest
      invariant ReadDone(records, seen, done)
      invariant ReadOutputs(records, seen, outputs, latest)
      invariant ReadAttempts(seen, maxAttempt) && ReadNumbers(seen, maxAttempt)
      invariant forall j, k :: j in seen && k in rest && j.node == k.node ==> j.number <= k.number
      decreases |rest|
    {
      ghost var _ := FirstAttempt(rest);
      var k :| k in rest && forall j :: j in rest && j.node == k.node ==> k.number <= j.number;
      var ne := records[k];
      ReadOneOutput(records, seen, outputs, latest, k);
      ReadOneDone(records, seen, done, k);
      ReadOneAttempt(seen, maxAttempt, k);
      if k.number > LastAttempt(maxAttempt, k.node) {
        maxAttempt := maxAttempt[k.node := k.number];
      }
      if ne.status == NodeSucceeded {
        done := done + {k.node};
        if |ne.output| > 0 {
          outputs := outputs[k.node := ne.output];
          latest := latest[k.node := k.number];
        }
      }
      rest := rest - {k};
      seen := seen + {k};
    }
    assert seen == records.Keys;
  }

  // What a scheduling call keeps

  /** The in-degree of an unfinished node is its number of edges from unfinished parents. */
  ghost predicate Counts(g: Workflow, done: set<NodeId>, inDegree: map<NodeId, int>) {
    && inDegree.Keys == Elements(g.nodes)
    && forall n :: n in g.nodes && n !in done ==> inDegree[n] == Open(g.edges, done, n)
  }

  /** An unfinished node is in the queue or was started exactly when it has no open edges, never
      both, and a started node has all its parents done.  Only an exceeded budget drops a queued
      node. */
  ghost predicate Queue(g: Workflow, done: set<NodeId>, started: set<NodeId>, inDegree: map<NodeId, int>,
                        ready: seq<NodeId>, overBudget: bool)
  {
    && inDegree.Keys == Elements(g.nodes)
    && UniqueIds(ready) && Elements(ready) <= Elements(g.nodes) && started <= Elements(g.nodes)
    && Elements(ready) !! done + started
    && (forall n :: n in g.nodes && n !in done && (n in ready || n in started) ==> inDegree[n] == 0)
    && (forall n :: n in g.nodes && n !in done && inDegree[n] == 0 ==> n in ready || n in started || overBudget)
    && (forall n :: n in started ==> Parents(g, n) <= done)
  }

  /** Only a halt loses a started node, and only nodes that had not succeeded are started. */
  ghost predicate Progress(base: Records, done: set<NodeId>, started: set<NodeId>, running: set<NodeId>, halted: bool) {
    && running <= started && running !! done
    && (forall n :: n in started ==> n in done || n in running || halted)
    && (forall n :: n in started ==> !HasSucceeded(base, n))
  }

  /** Starts are counted, and stay within the attempt budget. */
  ghost predicate Budget(base: Records, started: set<NodeId>, attemptsUsed: nat, limit: nat) {
    && attemptsUsed == |base| + |started|
    && (limit > 0 && started != {} ==> attemptsUsed <= limit)
  }

  /** Old records stay, and new ones belong to started nodes and carry higher numbers. */
  ghost predicate Kept(base: Records, records: Records, maxAttempt: map<NodeId, nat>, started: set<NodeId>) {
    && Keeps(base, records) && ReadAttempts(records.Keys, maxAttempt)
    && (forall k :: k in records && k !in base ==> Above(base, k.node, k.number) && k.node in started)
  }

  ghost predicate Landed(base: Records, records: Records, maxAttempt: map<NodeId, nat>, done: set<NodeId>,
                         running: map<NodeId, Flight>) {
    && (forall n :: n in done <==> HasSucceeded(records, n))
    && (forall n :: HasSucceeded(base, n) ==> n in done)
    && (forall n :: n in running ==> Above(base, n, running[n].attempt)
                                     && running[n].attempt <= LastAttempt(maxAttempt, n))
  }

  /** With pure handlers, what is known so far is what it should be. */
  ghost predicate Values(g: Workflow, h: Handlers, initial: Json, done: set<NodeId>, outputs: map<NodeId, Json>,
                         running: map<NodeId, Flight>)
    requires Sound(g)
  {
    && (forall n :: n in done ==> n in outputs && outputs[n] == Meaning(g, h, initial, n))
    && (forall n :: n in running ==> running[n].input == MeaningInput(g, h, initial, n))
  }

  lemma FreshCall(records: Records, done: set<NodeId>, maxAttempt: map<NodeId, nat>)
    requires ReadDone(records, records.Keys, done) && ReadAttempts(records.Keys, maxAttempt)
    ensures Kept(records, records, maxAttempt, {})
    ensures Landed(records, records, maxAttempt, done, map[])
  {
  }

  /** The queue has its nodes in the order of the node list. */
  ghost predicate InOrder(g: Workflow, ready: seq<NodeId>) {
    ready == Selected(g.nodes, Elements(ready))
  }

  /** In-degrees and ready queue for the nodes that are still to be done. */
  method OpenQueue(g: Workflow, done: set<NodeId>) returns (inDegree: map<NodeId, int>, ready: seq<NodeId>)
    requires WellFormed(g)
    ensures Counts(g, done, inDegree) && Queue(g, done, {}, inDegree, ready, false)
    ensures InOrder(g, ready)
  {
    inDegree := CountInDegrees(g, done);
    var unsorted := InitialQueue(inDegree, done);
    ready := SortByIndex(g.nodes, unsorted);
    forall n
      ensures n in ready <==> n in unsorted
    {
      assert n in Elements(ready) <==> n in Elements(unsorted);
    }
  }

  lemma FreshValues(g: Workflow, h: Handlers, initial: Json, records: Records, done: set<NodeId>,
                    outputs: map<NodeId, Json>, latest: map<NodeId, nat>)
    requires Sound(g) && forall n, i :: h(n, i) != ""
    requires forall k :: Succeeded(records, k) ==> records[k].output == Meaning(g, h, initial, k.node)
    requires ReadDone(records, records.Keys, done) && ReadOutputs(records, records.Keys, outputs, latest)
    ensures Values(g, h, initial, done, outputs, map[])
  {
    forall n | n in done
      ensures n in outputs && outputs[n] == Meaning(g, h, initial, n)
    {
      var k :| k in records && k.node == n && Succeeded(records, k);
      MeaningUnfolds(g, h, initial, n);
      assert Carries(records, k);
      assert Succeeded(records, Attempt(n, latest[n]));
    }
  }

  /** What is fixed for a run: its graph, its input, and its handlers when they are pure
      functions (None when nothing is known about them). */
  datatype Spec = Spec(g: Workflow, initial: Json, handlers: Option<Handlers>)

  /** The local variables of a scheduling call, with three of its history: the records it
      found, the nodes it started, and whether it saw the run or its context canceled.  `status`
      is the run's, as the call last wrote it. */
  datatype Call = Call(
    done: set<NodeId>, outputs: map<NodeId, Json>, maxAttempt: map<NodeId, nat>,
    attemptsUsed: nat, limit: nat,
    inDegree: map<NodeId, int>, ready: seq<NodeId>, running: map<NodeId, Flight>,
    stopScheduling: bool, externalCanceled: bool, failed: bool, waiting: bool, budgetExceeded: bool,
    status: RunStatus, base: Records, started: set<NodeId>, disturbed: bool)
  {
    /** Something has decided how the call will end, or was seen to. */
    predicate Halted() {
      failed || waiting || budgetExceeded || externalCanceled || disturbed
    }
  }

  /** What wakes the waiting loop. */
  datatype Wake = Tick | ContextDone | Usage | Result

  /** What goes on around a call.  At each moment: whether the run is marked canceled in the store,
      whether the calling context has ended or the run was canceled through its context, whether
      the store fails, whether a concurrency cap holds a node back, whether time or usage exceeds
      the budget.  For each attempt: what is answered to it, and whether its human task is still
      open.  And what wakes the loop, round after round, until the process dies. */
  datatype Surroundings = Surroundings(
    canceled: int -> bool, ended: int -> bool, failing: int -> bool, capped: int -> bool, spent: int -> bool,
    human: NodeId -> bool, pending: Attempt -> bool, reply: Attempt -> Reply, events: seq<Wake>)

  /** Nobody cancels the run, and the calling context lasts. */
  ghost predicate Calm(w: Surroundings) {
    forall t :: !w.canceled(t) && !w.ended(t)
  }

  /** The store works. */
  ghost predicate Reliable(w: Surroundings) {
    forall t :: !w.failing(t)
  }

  function Results(events: seq<Wake>): nat {
    if events == [] then 0 else (if events[0] == Result then 1 else 0) + Results(events[1..])
  }

  /** The process lives long enough to take in every answer, and nobody else uses up the caps. */
  ghost predicate Uninterrupted(spec: Spec, cache: Option<Cache>, w: Surroundings) {
    && Reliable(w) && Results(w.events) > |spec.g.nodes|
    && (cache.Some? || forall t :: !w.capped(t))
  }

  /** The node waits for a human: nothing is known of such nodes, so none has a pure handler. */
  predicate Human(spec: Spec, w: Surroundings, n: NodeId) {
    spec.handlers.None? && w.human(n)
  }

  /** The node's output comes from the cache. */
  predicate Cached(spec: Spec, cache: Option<Cache>, w: Surroundings, n: NodeId) {
    cache.Some? && n in cache.value && !Human(spec, w, n)
  }

  /** The attempt that a call makes of a node, put to its handler or to a human. */
  ghost predicate Asked(spec: Spec, cache: Option<Cache>, w: Surroundings, base: Records, started: set<NodeId>,
                        k: Attempt)
  {
    k.node in started && IsNext(base, k) && !Cached(spec, cache, w, k.node)
  }

  ghost predicate AskedForError(spec: Spec, cache: Option<Cache>, w: Surroundings, base: Records,
                                started: set<NodeId>)
  {
    exists k :: Asked(spec, cache, w, base, started, k) && w.reply(k).Error?
  }

  ghost predicate AskedForDelay(spec: Spec, cache: Option<Cache>, w: Surroundings, base: Records,
                                started: set<NodeId>)
  {
    exists k :: Asked(spec, cache, w, base, started, k) && (w.reply(k).Delayed? || Parks(spec, w, k))
  }

  /** The human task of this attempt is still open. */
  predicate Parks(spec: Spec, w: Surroundings, k: Attempt) {
    Human(spec, w, k.node) && w.pending(k)
  }

  ghost predicate Overdrawn(w: Surroundings, base: Records, started: set<NodeId>, limit: nat) {
    (limit > 0 && |base| + |started| >= limit) || exists t :: w.spent(t)
  }

  /** With pure handlers, the attempt was given what its node means to get. */
  ghost predicate Given(spec: Spec, n: NodeId, input: Input) {
    Sound(spec.g) && spec.handlers.Some? ==> input == MeaningInput(spec.g, spec.handlers.value, spec.initial, n)
  }

  /** What a new record says is what happened to its attempt. */
  ghost predicate Told(spec: Spec, cache: Option<Cache>, w: Surroundings, limit: nat, k: Attempt, e: Execution) {
    && Given(spec, k.node, e.input)
    && match e.status
       case NodeSucceeded =>
         if Cached(spec, cache, w, k.node) then e.output == cache.value[k.node].output
         else if spec.handlers.None? then w.reply(k) == Output(e.output)
         else w.reply(k).Output?
       case NodeFailed => w.reply(k).Error? && !Cached(spec, cache, w, k.node)
       case NodeWaiting => (w.reply(k).Delayed? || Parks(spec, w, k)) && !Cached(spec, cache, w, k.node)
       case NodeCanceled => limit > 0 || exists t :: w.canceled(t) || w.spent(t)
       case NodeRunning => true
  }

  /** The new records are of the next attempts, and tell what happened to them. */
  ghost predicate RecordsTell(spec: Spec, cache: Option<Cache>, w: Surroundings, limit: nat, base: Records,
                              records: Records)
  {
    forall k :: k in records && k !in base ==> IsNext(base, k) && Told(spec, cache, w, limit, k, records[k])
  }

  /** Some new record has this status. */
  ghost predicate NewlySo(base: Records, records: Records, status: NodeStatus) {
    exists k :: k in records && k !in base && records[k].status == status
  }

  ghost predicate Numbered(c: Call) {
    && (forall n :: n !in c.started ==> IsHighest(c.base, n, LastAttempt(c.maxAttempt, n)))
    && (forall n :: n in c.running ==> n in c.started && IsNext(c.base, Attempt(n, c.running[n].attempt)))
  }

  /** Every flag of a call has its reason. */
  ghost predicate Caused(spec: Spec, cache: Option<Cache>, w: Surroundings, c: Call) {
    && (c.failed ==> AskedForError(spec, cache, w, c.base, c.started))
    && (c.waiting ==> AskedForDelay(spec, cache, w, c.base, c.started))
    && (c.budgetExceeded ==> Overdrawn(w, c.base, c.started, c.limit))
    && (c.externalCanceled ==> exists t :: w.canceled(t))
  }

  /** What is in flight is with its handler. */
  predicate Uncached(spec: Spec, cache: Option<Cache>, w: Surroundings, running: map<NodeId, Flight>) {
    forall n :: n in running ==> !Cached(spec, cache, w, n)
  }

  /** The flags say what the new records say. */
  ghost predicate Flagged(w: Surroundings, c: Call, records: Records) {
    && (NewlySo(c.base, records, NodeFailed) ==> c.failed)
    && (NewlySo(c.base, records, NodeWaiting) ==> c.waiting)
    && (Reliable(w) && c.failed ==> NewlySo(c.base, records, NodeFailed))
    && (forall n :: n in c.running && Attempt(n, c.running[n].attempt) in records ==>
          records[Attempt(n, c.running[n].attempt)].status == NodeRunning)
  }

  /** The run's status is what happened last. */
  ghost predicate Shown(c: Call) {
    match c.status
    case RunRunning => !c.failed && !c.waiting && !c.budgetExceeded
    case RunWaiting => c.waiting && !c.budgetExceeded
    case RunFailed => c.failed || c.budgetExceeded
    case _ => false
  }

  /** What a scheduling call makes known, and why. */
  ghost predicate Tells(spec: Spec, cache: Option<Cache>, w: Surroundings, c: Call, records: Records) {
    && Numbered(c) && RecordsTell(spec, cache, w, c.limit, c.base, records)
    && Caused(spec, cache, w, c) && Flagged(w, c, records) && Shown(c)
  }

  ghost predicate NonEmpty(spec: Spec) {
    spec.handlers.Some? ==> forall n, i :: spec.handlers.value(n, i) != ""
  }

  /** With pure handlers, every succeeded record holds what its node means. */
  ghost predicate Faithful(spec: Spec, records: Records) {
    Sound(spec.g) && spec.handlers.Some? ==>
      forall k :: Succeeded(records, k) ==>
        records[k].output == Meaning(spec.g, spec.handlers.value, spec.initial, k.node)
  }

  /** A cache taken from such records, here or from another run of the same workflow. */
  ghost predicate FaithfulCache(spec: Spec, cache: Option<Cache>) {
    Sound(spec.g) && spec.handlers.Some? && cache.Some? ==>
      forall n :: n in cache.value ==>
        cache.value[n].output == Meaning(spec.g, spec.handlers.value, spec.initial, n)
  }

  ghost predicate Scheduled(g: Workflow, c: Call) {
    && Counts(g, c.done, c.inDegree)
    && Queue(g, c.done, c.started, c.inDegree, c.ready, c.budgetExceeded)
    && Progress(c.base, c.done, c.started, c.running.Keys, c.Halted())
    && (c.stopScheduling <==> c.Halted())
    && Budget(c.base, c.started, c.attemptsUsed, c.limit)
  }

  ghost predicate Recorded(c: Call, records: Records) {
    && Kept(c.base, records, c.maxAttempt, c.started)
    && Landed(c.base, records, c.maxAttempt, c.done, c.running)
  }

  ghost predicate Meant(spec: Spec, c: Call, records: Records)
    requires Sound(spec.g)
  {
    && NonEmpty(spec) && Faithful(spec, records)
    && (spec.handlers.Some? ==> Values(spec.g, spec.handlers.value, spec.initial, c.done, c.outputs, c.running))
  }

  /** What every step of a scheduling call keeps. */
  ghost predicate CallInv(spec: Spec, c: Call, records: Records) {
    Sound(spec.g) && Scheduled(spec.g, c) && Recorded(c, records) && Meant(spec, c, records)
  }

  /** The start of a scheduling call, up to the filled ready queue. */
  method Begin(spec: Spec, records: Records, limit: nat) returns (c: Call)
    requires Sound(spec.g) && NonEmpty(spec) && Faithful(spec, records)
    ensures CallInv(spec, c, records)
    ensures c.base == records && c.started == {} && c.running == map[] && c.limit == limit && !c.Halted()
    ensures InOrder(spec.g, c.ready)
    ensures forall cache, w :: Tells(spec, cache, w, c, records)
  {
    var done, outputs, maxAttempt, latest := ReadRecords(records);
    var inDegree, ready := OpenQueue(spec.g, done);
    FreshCall(records, done, maxAttempt);
    if spec.handlers.Some? {
      FreshValues(spec.g, spec.handlers.value, spec.initial, records, done, outputs, latest);
    }
    c := Call(done, outputs, maxAttempt, |records|, limit, inDegree, ready, map[],
              false, false, false, false, false, RunRunning, records, {}, false);
    forall cache, w
      ensures Tells(spec, cache, w, c, records)
    {
      FreshTells(spec, cache, w, c, records);
    }
  }

  lemma FreshTells(spec: Spec, cache: Option<Cache>, w: Surroundings, c: Call, records: Records)
    requires ReadAttempts(records.Keys, c.maxAttempt) && ReadNumbers(records.Keys, c.maxAttempt)
    requires c.base == records && c.running == map[] && !c.Halted() && c.status == RunRunning
    ensures Tells(spec, cache, w, c, records)
  {
  }

  // Scheduling

  /** The aggregated input of a node: the recorded outputs of its parents. */
  method BuildInput(g: Workflow, initial: Json, outputs: map<NodeId, Json>, n: NodeId) returns (input: Input)
    ensures input == InputFrom(g, outputs, initial, n)
  {
    var deps := ParentList(g.edges, n);
    ParentListIsParents(g, n);
    if |deps| == 0 {
      assert Parents(g, n) == {};
      return Initial(initial);
    }
    assert deps[0] in Parents(g, n);
    var agg: map<NodeId, Json> := map[];
    for i := 0 to |deps|
      invariant agg.Keys == Elements(deps[..i])
      invariant forall p :: p in agg ==> agg[p] == if p in outputs then outputs[p] else ""
    {
      assert deps[..i + 1] == deps[..i] + [deps[i]];
      agg := agg[deps[i] := if deps[i] in outputs then outputs[deps[i]] else ""];
    }
    assert deps[..|deps|] == deps;
    assert agg == map p | p in Parents(g, n) :: if p in outputs then outputs[p] else "";
    return Gathered(agg);
  }

  /** Taking the head of the ready queue. */
  lemma TakeHead(g: Workflow, done: set<NodeId>, started: set<NodeId>, inDegree: map<NodeId, int>,
                 ready: seq<NodeId>, overBudget: bool)
    requires ready != [] && Counts(g, done, inDegree) && Queue(g, done, started, inDegree, ready, overBudget)
    ensures var n := ready[0];
            && n in g.nodes && n !in done && n !in started
            && Parents(g, n) <= done
            && Queue(g, done, started + {n}, inDegree, ready[1..], overBudget)
            && |started + {n}| == |started| + 1
  {
    var n := ready[0];
    assert ready == [n] + ready[1..];
    UniqueConcat([n], ready[1..]);
    assert n in Elements(ready) && Elements([n]) == {n};
    OpenZero(g.edges, done, n);
  }

  /** The inputs gathered from faithful outputs are the ones the node means to get. */
  lemma GatheredIsMeant(g: Workflow, h: Handlers, initial: Json, done: set<NodeId>, outputs: map<NodeId, Json>,
                        running: map<NodeId, Flight>, n: NodeId)
    requires Sound(g) && Values(g, h, initial, done, outputs, running) && Parents(g, n) <= done
    ensures InputFrom(g, outputs, initial, n) == MeaningInput(g, h, initial, n)
  {
    if Parents(g, n) != {} {
      assert (map p | p in Parents(g, n) :: if p in outputs then outputs[p] else "")
          == (map p | p in Parents(g, n) :: Meaning(g, h, initial, p));
    }
  }

  /** Writing the record of an attempt that no older record shares. */
  lemma WriteRecord(base: Records, records: Records, maxAttempt: map<NodeId, nat>, started: set<NodeId>,
                    k: Attempt, e: Execution)
    requires Kept(base, records, maxAttempt, started)
    requires Above(base, k.node, k.number) && k.number <= LastAttempt(maxAttempt, k.node) && k.node in started
    ensures Kept(base, records[k := e], maxAttempt, started)
  {
    assert k !in base;
  }

  /** A new attempt number exceeds every recorded one. */
  lemma NextAttempt(base: Records, records: Records, maxAttempt: map<NodeId, nat>, started: set<NodeId>, n: NodeId,
                    attempt: nat)
    requires Kept(base, records, maxAttempt, started) && attempt == LastAttempt(maxAttempt, n) + 1
    ensures Above(records, n, attempt) && Above(base, n, attempt)
    ensures Kept(base, records, maxAttempt[n := attempt], started + {n})
  {
  }

  /** The call after the attempt was counted and numbered. */
  function Counted(c: Call, n: NodeId, attempt: nat): Call
    requires c.ready != []
  {
    c.(ready := c.ready[1..], attemptsUsed := c.attemptsUsed + 1,
       maxAttempt := c.maxAttempt[n := attempt], started := c.started + {n})
  }

  /** The node may run: it is new to this call, its parents are done, its number is fresh, and
      counting it keeps the bookkeeping. */
  ghost predicate Startable(spec: Spec, c: Call, records: Records, n: NodeId, attempt: nat) {
    && n in spec.g.nodes && n !in c.done && n !in c.started && n !in c.running
    && Parents(spec.g, n) <= c.done && !HasSucceeded(c.base, n)
    && Above(records, n, attempt) && Above(c.base, n, attempt)
    && attempt == LastAttempt(c.maxAttempt, n) + 1
  }

  /** Giving the head of the queue its attempt number and its input. */
  method StartAttempt(spec: Spec, c: Call, records: Records) returns (n: NodeId, attempt: nat, input: Input)
    requires CallInv(spec, c, records) && c.ready != []
    ensures Sound(spec.g) && n == c.ready[0] && Startable(spec, c, records, n, attempt)
    ensures spec.handlers.Some? ==> input == MeaningInput(spec.g, spec.handlers.value, spec.initial, n)
  {
    hide Queue, Counts, Faithful, Values, Sound, NonEmpty, MeaningInput;
    n := c.ready[0];
    TakeHead(spec.g, c.done, c.started, c.inDegree, c.ready, c.budgetExceeded);
    input := BuildInput(spec.g, spec.initial, c.outputs, n);
    if spec.handlers.Some? {
      GatheredIsMeant(spec.g, spec.handlers.value, spec.initial, c.done, c.outputs, c.running, n);
    }
    attempt := 1;
    var prev := LastAttempt(c.maxAttempt, n);
    if prev > 0 {
      attempt := prev + 1;
    }
    NextAttempt(c.base, records, c.maxAttempt, c.started, n, attempt);
  }

  // Finishing a node

  /** The queue and the counts after n succeeded and released its children. */
  lemma AfterRelease(g: Workflow, done: set<NodeId>, started: set<NodeId>, inDegree: map<NodeId, int>,
                     ready: seq<NodeId>, overBudget: bool, n: NodeId, inDegree': map<NodeId, int>, ready': seq<NodeId>)
    requires KnownEndpoints(g) && Counts(g, done, inDegree) && Queue(g, done, started, inDegree, ready, overBudget)
    requires n in started && n !in done
    requires Released(Children(g.edges, n), done + {n}, inDegree, ready, inDegree', ready')
    ensures Counts(g, done + {n}, inDegree')
    ensures Queue(g, done + {n}, started, inDegree', ready', overBudget)
  {
    var cs, done', added := Children(g.edges, n), done + {n}, ready'[|ready|..];
    forall m | m in g.nodes && m !in done'
      ensures inDegree'[m] == Open(g.edges, done', m)
    {
      OpenAfter(g.edges, done, n, m);
    }
    assert ready' == ready + added;
    UniqueConcat(ready, added);
    forall m | m in added
      ensures m !in ready && m !in started && m in g.nodes && m !in done'
    {
      assert m in Elements(g.nodes);
    }
  }

  /** The precondition of releasing: no child loses more edges than it has open. */
  lemma MayRelease(g: Workflow, done: set<NodeId>, inDegree: map<NodeId, int>, n: NodeId, cs: seq<NodeId>)
    requires KnownEndpoints(g) && Counts(g, done, inDegree) && n !in done && cs == Children(g.edges, n)
    ensures forall i :: 0 <= i < |cs| ==> cs[i] in inDegree
    ensures forall m :: m in inDegree && m !in done + {n} ==> Occurrences(cs, m) <= inDegree[m]
  {
    forall i | 0 <= i < |cs|
      ensures cs[i] in inDegree
    {
      ChildrenAreTargets(g.edges, n, cs[i]);
      assert Edge(n, cs[i]) in g.edges;
      assert cs[i] in Elements(g.nodes);
    }
    forall m | m in inDegree && m !in done + {n}
      ensures Occurrences(cs, m) <= inDegree[m]
    {
      assert m in Elements(g.nodes);
      OpenAfter(g.edges, done, n, m);
    }
  }

  /** Releasing the children of a node that has just succeeded, and sorting the queue. */
  method Release(g: Workflow, done: set<NodeId>, ghost started: set<NodeId>, inDegree: map<NodeId, int>,
                 ready: seq<NodeId>, ghost overBudget: bool, n: NodeId)
    returns (inDegree': map<NodeId, int>, ready': seq<NodeId>)
    requires WellFormed(g) && Counts(g, done, inDegree) && Queue(g, done, started, inDegree, ready, overBudget)
    requires n in started && n !in done
    ensures Counts(g, done + {n}, inDegree')
    ensures Queue(g, done + {n}, started, inDegree', ready', overBudget)
    ensures Elements(ready) <= Elements(ready') && InOrder(g, ready')
  {
    hide Counts, Queue, Released;
    var children := BuildChildren(g);
    var cs := ChildrenIn(children, n);
    MayRelease(g, done, inDegree, n, cs);
    var unsorted;
    inDegree', unsorted := ReleaseChildren(cs, done + {n}, inDegree, ready);
    AfterRelease(g, done, started, inDegree, ready, overBudget, n, inDegree', unsorted);
    QueueMembers(g, done + {n}, started, inDegree', unsorted, overBudget);
    ready' := SortByIndex(g.nodes, unsorted);
    SameQueue(g, done + {n}, started, inDegree', unsorted, ready', overBudget);
  }

  lemma QueueMembers(g: Workflow, done: set<NodeId>, started: set<NodeId>, inDegree: map<NodeId, int>,
                     ready: seq<NodeId>, overBudget: bool)
    requires Queue(g, done, started, inDegree, ready, overBudget)
    ensures Elements(ready) <= Elements(g.nodes) && UniqueIds(ready)
  {
  }

  lemma SameQueue(g: Workflow, done: set<NodeId>, started: set<NodeId>, inDegree: map<NodeId, int>,
                  ready: seq<NodeId>, ready': seq<NodeId>, overBudget: bool)
    requires Queue(g, done, started, inDegree, ready, overBudget)
    requires UniqueIds(ready') && Elements(ready') == Elements(ready)
    ensures Queue(g, done, started, inDegree, ready', overBudget)
  {
    forall n
      ensures n in ready' <==> n in ready
    {
      assert n in Elements(ready') <==> n in Elements(ready);
    }
  }

  // The moves of a scheduling call, each keeping the invariant

  function Forget(running: map<NodeId, Flight>, n: NodeId): (r: map<NodeId, Flight>)
    ensures r.Keys == running.Keys - {n}
    ensures forall m :: m in r ==> r[m] == running[m]
  {
    running - {n}
  }

  /** Halting only raises flags. */
  lemma Halts(spec: Spec, c: Call, records: Records, c': Call)
    requires CallInv(spec, c, records)
    requires c' == c.(stopScheduling := c'.stopScheduling, externalCanceled := c'.externalCanceled, failed := c'.failed,
                      waiting := c'.waiting, budgetExceeded := c'.budgetExceeded, disturbed := c'.disturbed,
                      status := c'.status)
    requires (c.Halted() ==> c'.Halted()) && (c'.stopScheduling <==> c'.Halted())
    requires c.budgetExceeded ==> c'.budgetExceeded
    ensures CallInv(spec, c', records)
  {
    hide Counts, Faithful, Values, Sound, NonEmpty, Budget, Kept, Landed;
  }

  /** The call after its budget was found to be exceeded. */
  function Overspent(c: Call): Call {
    c.(budgetExceeded := true, stopScheduling := true, status := RunFailed)
  }

  function Dropped(c: Call): Call
    requires c.ready != []
  {
    Overspent(c).(ready := c.ready[1..])
  }

  /** The attempt budget is spent: the node taken from the queue is dropped. */
  lemma Drops(spec: Spec, c: Call, records: Records)
    requires CallInv(spec, c, records) && c.ready != []
    ensures CallInv(spec, Dropped(c), records)
  {
    hide Counts, Faithful, Values, Sound, NonEmpty, Budget, Kept, Landed;
    assert c.ready == [c.ready[0]] + c.ready[1..];
    UniqueConcat([c.ready[0]], c.ready[1..]);
  }

  /** A throttled node goes back to the end of the queue. */
  lemma Requeues(spec: Spec, c: Call, records: Records)
    requires CallInv(spec, c, records) && c.ready != []
    ensures CallInv(spec, c.(ready := c.ready[1..] + [c.ready[0]]), records)
  {
    hide Queue, Progress, Counts, Faithful, Values, Sound, NonEmpty, Budget, Kept, Landed;
    var n, rest := c.ready[0], c.ready[1..];
    QueueMembers(spec.g, c.done, c.started, c.inDegree, c.ready, c.budgetExceeded);
    assert c.ready == [n] + rest;
    UniqueConcat([n], rest);
    UniqueConcat(rest, [n]);
    SameQueue(spec.g, c.done, c.started, c.inDegree, c.ready, rest + [n], c.budgetExceeded);
  }

  /** An attempt begins: it is counted, and its node is in flight, parked for a human, or lost
      with the call.  Its record, if one is written, is not yet a success. */
  ghost predicate Starting(c: Call, n: NodeId, attempt: nat, input: Input, c': Call) {
    && c.ready != [] && n == c.ready[0]
    && c' == Counted(c, n, attempt).(running := c'.running, waiting := c'.waiting, status := c'.status,
                                     stopScheduling := c'.stopScheduling, disturbed := c'.disturbed)
    && (c.Halted() ==> c'.Halted()) && (c'.stopScheduling <==> c'.Halted())
    && (c'.running == c.running[n := Flight(attempt, input)] || (c'.running == c.running && c'.Halted()))
  }

  function Write(records: Records, k: Attempt, e: Option<Execution>): Records {
    if e.Some? then records[k := e.value] else records
  }

  lemma Starts(spec: Spec, c: Call, records: Records, n: NodeId, attempt: nat, input: Input,
               c': Call, e: Option<Execution>)
    requires CallInv(spec, c, records) && Starting(c, n, attempt, input, c')
    requires !(c.limit > 0 && c.attemptsUsed + 1 > c.limit)
    requires Startable(spec, c, records, n, attempt)
    requires spec.handlers.Some? ==> input == MeaningInput(spec.g, spec.handlers.value, spec.initial, n)
    requires e.Some? ==> e.value.status != NodeSucceeded
    ensures CallInv(spec, c', Write(records, Attempt(n, attempt), e))
  {
    hide Counts, Queue, Progress, Budget, Kept, Landed, NonEmpty, Faithful, Values, Sound, HasSucceeded, MeaningInput;
    StartsScheduled(spec.g, c, n, attempt, input, c');
    StartsRecording(c.base, records, c.maxAttempt, c.started, c.done, c.running, n, attempt, input, c'.running, e);
    StartsMeant(spec, c, records, n, attempt, input, c', e);
  }

  lemma StartsScheduled(g: Workflow, c: Call, n: NodeId, attempt: nat, input: Input, c': Call)
    requires Scheduled(g, c) && Starting(c, n, attempt, input, c') && !HasSucceeded(c.base, n)
    requires !(c.limit > 0 && c.attemptsUsed + 1 > c.limit)
    ensures Scheduled(g, c')
  {
    hide Counts, HasSucceeded;
    TakeHead(g, c.done, c.started, c.inDegree, c.ready, c.budgetExceeded);
  }

  lemma StartsMeant(spec: Spec, c: Call, records: Records, n: NodeId, attempt: nat, input: Input, c': Call,
                    e: Option<Execution>)
    requires Sound(spec.g) && Meant(spec, c, records) && Starting(c, n, attempt, input, c')
    requires spec.handlers.Some? ==> input == MeaningInput(spec.g, spec.handlers.value, spec.initial, n)
    requires e.Some? ==> e.value.status != NodeSucceeded
    ensures Meant(spec, c', Write(records, Attempt(n, attempt), e))
  {
    hide Sound, NonEmpty, MeaningInput;
    var records' := Write(records, Attempt(n, attempt), e);
    assert forall k :: Succeeded(records', k) ==> Succeeded(records, k) && records'[k] == records[k];
  }

  lemma StartsRecording(base: Records, records: Records, maxAttempt: map<NodeId, nat>, started: set<NodeId>,
                        done: set<NodeId>, running: map<NodeId, Flight>, n: NodeId, attempt: nat, input: Input,
                        running': map<NodeId, Flight>, e: Option<Execution>)
    requires Kept(base, records, maxAttempt, started) && Landed(base, records, maxAttempt, done, running)
    requires attempt == LastAttempt(maxAttempt, n) + 1
    requires running' == running || running' == running[n := Flight(attempt, input)]
    requires e.Some? ==> e.value.status != NodeSucceeded
    ensures Kept(base, Write(records, Attempt(n, attempt), e), maxAttempt[n := attempt], started + {n})
    ensures Landed(base, Write(records, Attempt(n, attempt), e), maxAttempt[n := attempt], done, running')
  {
    NextAttempt(base, records, maxAttempt, started, n, attempt);
    var records' := Write(records, Attempt(n, attempt), e);
    assert Attempt(n, attempt) !in records;
    forall m
      ensures HasSucceeded(records, m) <==> HasSucceeded(records', m)
    {
      if HasSucceeded(records, m) {
        var k :| k in records && k.node == m && Succeeded(records, k);
        assert Succeeded(records', k);
      }
      if HasSucceeded(records', m) {
        var k :| k in records' && k.node == m && Succeeded(records', k);
        assert Succeeded(records, k);
      }
    }
  }

  /** A node in flight comes back without having succeeded: the call is halted. */
  ghost predicate Losing(c: Call, n: NodeId, c': Call) {
    && n in c.running && c'.Halted() && c'.stopScheduling
    && c' == c.(running := Forget(c.running, n), stopScheduling := c'.stopScheduling, failed := c'.failed,
                waiting := c'.waiting, disturbed := c'.disturbed, status := c'.status)
  }

  lemma Loses(spec: Spec, c: Call, records: Records, n: NodeId, c': Call, e: Option<Execution>)
    requires CallInv(spec, c, records) && Losing(c, n, c') && (e.Some? ==> e.value.status != NodeSucceeded)
    ensures CallInv(spec, c', Write(records, Attempt(n, c.running[n].attempt), e))
  {
    hide Counts, Queue, Progress, Budget, Kept, Landed, NonEmpty, Faithful, Values, Sound, Scheduled, Meant;
    LosesScheduled(spec.g, c, n, c');
    InFlight(spec.g, c, n);
    if e.Some? {
      LandsRecording(c.base, records, c.maxAttempt, c.started, c.done, c.running, n, e.value);
    } else {
      ForgetsRecording(c.base, records, c.maxAttempt, c.done, c.running, n);
    }
    LosesMeant(spec, c, records, n, c', e);
  }

  lemma ForgetsRecording(base: Records, records: Records, maxAttempt: map<NodeId, nat>, done: set<NodeId>,
                         running: map<NodeId, Flight>, n: NodeId)
    requires Landed(base, records, maxAttempt, done, running)
    ensures Landed(base, records, maxAttempt, done, Forget(running, n))
  {
  }

  lemma LosesScheduled(g: Workflow, c: Call, n: NodeId, c': Call)
    requires Scheduled(g, c) && Losing(c, n, c')
    ensures Scheduled(g, c')
  {
    hide Counts, Budget, HasSucceeded;
  }

  lemma InFlight(g: Workflow, c: Call, n: NodeId)
    requires Scheduled(g, c) && n in c.running
    ensures n in c.started && n !in c.done
  {
    hide Counts, Queue, Budget, HasSucceeded;
  }

  lemma LosesMeant(spec: Spec, c: Call, records: Records, n: NodeId, c': Call, e: Option<Execution>)
    requires Sound(spec.g) && Meant(spec, c, records) && Losing(c, n, c')
             && (e.Some? ==> e.value.status != NodeSucceeded)
    ensures Meant(spec, c', Write(records, Attempt(n, c.running[n].attempt), e))
  {
    hide Sound, NonEmpty;
    var records' := Write(records, Attempt(n, c.running[n].attempt), e);
    assert forall j :: Succeeded(records', j) ==> Succeeded(records, j) && records'[j] == records[j];
  }

  lemma LandsRecording(base: Records, records: Records, maxAttempt: map<NodeId, nat>, started: set<NodeId>,
                       done: set<NodeId>, running: map<NodeId, Flight>, n: NodeId, e: Execution)
    requires Kept(base, records, maxAttempt, started) && Landed(base, records, maxAttempt, done, running)
    requires n in running && n in started && n !in done
    ensures var records' := records[Attempt(n, running[n].attempt) := e];
            && Kept(base, records', maxAttempt, started)
            && Landed(base, records', maxAttempt, if e.status == NodeSucceeded then done + {n} else done,
                      Forget(running, n))
  {
    var k := Attempt(n, running[n].attempt);
    var records' := records[k := e];
    WriteRecord(base, records, maxAttempt, started, k, e);
    forall m | HasSucceeded(records, m) && m != n
      ensures HasSucceeded(records', m)
    {
      var j :| j in records && j.node == m && Succeeded(records, j);
      assert Succeeded(records', j);
    }
    if e.status == NodeSucceeded {
      assert Succeeded(records', k);
    }
  }

  /** A node in flight succeeds: it is done, and its children have one parent less to wait for. */
  lemma Lands(spec: Spec, c: Call, records: Records, n: NodeId, output: Json,
              inDegree': map<NodeId, int>, ready': seq<NodeId>)
    requires CallInv(spec, c, records) && n in c.running
    requires Counts(spec.g, c.done + {n}, inDegree')
    requires Queue(spec.g, c.done + {n}, c.started, inDegree', ready', c.budgetExceeded)
    requires spec.handlers.Some? ==> output == Meaning(spec.g, spec.handlers.value, spec.initial, n)
    ensures CallInv(spec, Landing(c, n, output, inDegree', ready'),
                    records[Attempt(n, c.running[n].attempt) := Execution(NodeSucceeded, c.running[n].input, output)])
  {
    hide Counts, Queue, Progress, Budget, Kept, Landed, NonEmpty, Faithful, Values, Sound, Scheduled, Meant;
    var e := Execution(NodeSucceeded, c.running[n].input, output);
    LandsScheduled(spec.g, c, n, output, inDegree', ready');
    InFlight(spec.g, c, n);
    LandsRecording(c.base, records, c.maxAttempt, c.started, c.done, c.running, n, e);
    LandsMeant(spec, c, records, n, output, inDegree', ready');
  }

  lemma LandsScheduled(g: Workflow, c: Call, n: NodeId, output: Json, inDegree': map<NodeId, int>, ready': seq<NodeId>)
    requires Scheduled(g, c) && n in c.running
    requires Counts(g, c.done + {n}, inDegree')
    requires Queue(g, c.done + {n}, c.started, inDegree', ready', c.budgetExceeded)
    ensures Scheduled(g, Landing(c, n, output, inDegree', ready'))
  {
    hide Counts, Queue, Budget, HasSucceeded;
  }

  lemma LandsMeant(spec: Spec, c: Call, records: Records, n: NodeId, output: Json,
                   inDegree': map<NodeId, int>, ready': seq<NodeId>)
    requires Sound(spec.g) && Meant(spec, c, records) && n in c.running
    requires spec.handlers.Some? ==> output == Meaning(spec.g, spec.handlers.value, spec.initial, n)
    ensures Meant(spec, Landing(c, n, output, inDegree', ready'),
                  records[Attempt(n, c.running[n].attempt) := Execution(NodeSucceeded, c.running[n].input, output)])
  {
    hide Sound, NonEmpty;
    var k := Attempt(n, c.running[n].attempt);
    var records' := records[k := Execution(NodeSucceeded, c.running[n].input, output)];
    assert forall j :: Succeeded(records', j) ==> j == k || (Succeeded(records, j) && records'[j] == records[j]);
  }

  function Landing(c: Call, n: NodeId, output: Json, inDegree': map<NodeId, int>, ready': seq<NodeId>): Call {
    c.(running := Forget(c.running, n), done := c.done + {n}, outputs := c.outputs[n := output],
       inDegree := inDegree', ready := ready')
  }

  /** The success branch, for a result from a handler and for a hit in the replay cache. */
  method Complete(spec: Spec, ghost cache: Option<Cache>, ghost w: Surroundings, c: Call, records: Records, n: NodeId,
                  output: Json)
    returns (c': Call, records': Records)
    requires CallInv(spec, c, records) && n in c.running
    requires spec.handlers.Some? ==> output == Meaning(spec.g, spec.handlers.value, spec.initial, n)
    requires Tells(spec, cache, w, c, records)
    requires Told(spec, cache, w, c.limit, Attempt(n, c.running[n].attempt),
                  Execution(NodeSucceeded, c.running[n].input, output))
    ensures CallInv(spec, c', records') && SameCall(c, c') && Undisturbed(c') == Undisturbed(c)
    ensures Tells(spec, cache, w, c', records')
    ensures c'.running == Forget(c.running, n) && c'.started == c.started && n in c'.done
    ensures c'.stopScheduling == c.stopScheduling && Elements(c.ready) <= Elements(c'.ready)
    ensures InOrder(spec.g, c'.ready)
  {
    hide Counts, Queue, Progress, Budget, Recorded, Meant, WellFormed, Cyclic, Tells, Told, InOrder;
    InFlight(spec.g, c, n);
    var inDegree', ready' := Release(spec.g, c.done, c.started, c.inDegree, c.ready, c.budgetExceeded, n);
    Lands(spec, c, records, n, output, inDegree', ready');
    c' := Landing(c, n, output, inDegree', ready');
    var k := Attempt(n, c.running[n].attempt);
    records' := records[k := Execution(NodeSucceeded, c.running[n].input, output)];
    LandsTells(spec, cache, w, c, records, n, output, inDegree', ready');
  }

  // What the call tells, move by move

  lemma RequeuedTells(spec: Spec, cache: Option<Cache>, w: Surroundings, c: Call, records: Records, c': Call)
    requires Tells(spec, cache, w, c, records) && c' == c.(ready := c'.ready)
    ensures Tells(spec, cache, w, c', records)
  {
    hide AskedForError, AskedForDelay, Overdrawn, NewlySo, RecordsTell;
  }

  lemma StoppedTells(spec: Spec, cache: Option<Cache>, w: Surroundings, c: Call, records: Records, c': Call)
    requires Tells(spec, cache, w, c, records)
    requires c' == c.(stopScheduling := true, disturbed := c'.disturbed, externalCanceled := c'.externalCanceled)
    requires c'.externalCanceled ==> c.externalCanceled || exists t :: w.canceled(t)
    ensures Tells(spec, cache, w, c', records)
  {
    hide AskedForError, AskedForDelay, Overdrawn, NewlySo, RecordsTell;
  }

  lemma OverspentTells(spec: Spec, cache: Option<Cache>, w: Surroundings, c: Call, records: Records, c': Call)
    requires Tells(spec, cache, w, c, records) && c' == Overspent(c).(ready := c'.ready)
    requires Overdrawn(w, c.base, c.started, c.limit)
    ensures Tells(spec, cache, w, c', records)
  {
    hide AskedForError, AskedForDelay, Overdrawn, NewlySo, RecordsTell;
  }

  /** More nodes started: what was asked for and what was spent stays so. */
  lemma StartedMore(spec: Spec, cache: Option<Cache>, w: Surroundings, base: Records, started: set<NodeId>, n: NodeId,
                    limit: nat)
    requires n !in started
    ensures AskedForError(spec, cache, w, base, started) ==> AskedForError(spec, cache, w, base, started + {n})
    ensures AskedForDelay(spec, cache, w, base, started) ==> AskedForDelay(spec, cache, w, base, started + {n})
    ensures Overdrawn(w, base, started, limit) ==> Overdrawn(w, base, started + {n}, limit)
  {
    hide IsNext, Cached;
    if k :| Asked(spec, cache, w, base, started, k) && w.reply(k).Error? {
      assert Asked(spec, cache, w, base, started + {n}, k);
    }
    if k :| Asked(spec, cache, w, base, started, k) && (w.reply(k).Delayed? || Parks(spec, w, k)) {
      assert Asked(spec, cache, w, base, started + {n}, k);
    }
  }

  lemma StartsTells(spec: Spec, cache: Option<Cache>, w: Surroundings, c: Call, records: Records, n: NodeId,
                    attempt: nat, input: Input, c': Call, e: Option<Execution>)
    requires Tells(spec, cache, w, c, records) && Starting(c, n, attempt, input, c')
    requires Startable(spec, c, records, n, attempt) && !c.Halted()
    requires if c'.waiting
             then c'.status == RunWaiting && Parks(spec, w, Attempt(n, attempt)) && c'.running == c.running
             else c'.status == c.status
    requires e.Some? ==> e.value.status == if c'.waiting then NodeWaiting else NodeRunning
    requires e.Some? ==> Given(spec, n, e.value.input)
    ensures Tells(spec, cache, w, c', Write(records, Attempt(n, attempt), e))
  {
    var k := Attempt(n, attempt);
    StartsNumbered(spec, c, records, n, attempt, input, c');
    StartedMore(spec, cache, w, c.base, c.started, n, c.limit);
    assert c'.waiting ==> Asked(spec, cache, w, c.base, c'.started, k);
    StartsFlagged(w, c, records, n, attempt, input, c', e);
    hide IsNext, Parks, AskedForError, Overdrawn, NewlySo, Asked, Numbered, Flagged, Startable, Given;
    WritesTold(spec, cache, w, c.limit, c.base, records, k, e);
    hide RecordsTell, Told;
  }

  lemma StartsNumbered(spec: Spec, c: Call, records: Records, n: NodeId, attempt: nat, input: Input, c': Call)
    requires Numbered(c) && Starting(c, n, attempt, input, c') && Startable(spec, c, records, n, attempt)
    ensures Numbered(c') && IsNext(c.base, Attempt(n, attempt))
  {
    hide IsHighest;
  }

  lemma StartsFlagged(w: Surroundings, c: Call, records: Records, n: NodeId, attempt: nat, input: Input, c': Call,
                      e: Option<Execution>)
    requires Flagged(w, c, records) && Starting(c, n, attempt, input, c')
    requires forall k :: k in records && k.node == n ==> k.number < attempt
    requires forall k :: k in c.base && k.node == n ==> k.number < attempt
    requires n !in c.running && c'.failed == c.failed && (c.waiting ==> c'.waiting)
    requires c'.waiting ==> c'.running == c.running
    requires e.Some? ==> e.value.status == if c'.waiting then NodeWaiting else NodeRunning
    ensures Flagged(w, c', Write(records, Attempt(n, attempt), e))
  {
    WroteOne(c.base, records, Attempt(n, attempt), e, NodeFailed);
    WroteOne(c.base, records, Attempt(n, attempt), e, NodeWaiting);
    hide NewlySo, Reliable;
  }

  lemma WritesTold(spec: Spec, cache: Option<Cache>, w: Surroundings, limit: nat, base: Records, records: Records,
                   k: Attempt, e: Option<Execution>)
    requires RecordsTell(spec, cache, w, limit, base, records) && IsNext(base, k)
    requires e.Some? ==> Told(spec, cache, w, limit, k, e.value)
    ensures RecordsTell(spec, cache, w, limit, base, Write(records, k, e))
  {
    hide Told, IsNext;
  }

  lemma LosesTells(spec: Spec, cache: Option<Cache>, w: Surroundings, c: Call, records: Records, n: NodeId,
                   why: Setback, c': Call, e: Option<Execution>)
    requires Tells(spec, cache, w, c, records) && Losing(c, n, c') && SetBack(w, c, n, why)
    requires !Cached(spec, cache, w, n)
    requires c' == SetDown(c, why).(running := c'.running, disturbed := c'.disturbed)
             && (why != Stopped ==> c'.disturbed == c.disturbed)
    requires e.Some? ==> e.value.status == Left(why)
    requires e.None? ==> !Reliable(w)
    requires e.Some? ==> Given(spec, n, e.value.input)
    ensures Tells(spec, cache, w, c', Write(records, Attempt(n, c.running[n].attempt), e))
  {
    hide Flagged, Asked, Given, Caused, RecordsTell, Told, IsNext, SetBack, Cached, Reliable;
    var k := Attempt(n, c.running[n].attempt);
    LosesFlagged(w, c, records, n, why, c', e);
    LosesCaused(spec, cache, w, c, n, why, c');
    if e.Some? {
      LosesTold(spec, cache, w, c, n, why, e.value);
    }
    WritesTold(spec, cache, w, c.limit, c.base, records, k, e);
    LosesShown(w, c, n, why, c');
    hide Shown;
  }

  lemma LosesTold(spec: Spec, cache: Option<Cache>, w: Surroundings, c: Call, n: NodeId, why: Setback, e: Execution)
    requires Caused(spec, cache, w, c) && n in c.running && SetBack(w, c, n, why)
    requires !Cached(spec, cache, w, n) && Given(spec, n, e.input) && e.status == Left(why)
    ensures Told(spec, cache, w, c.limit, Attempt(n, c.running[n].attempt), e)
  {
    hide Given, Cached, Parks, AskedForError, AskedForDelay;
  }

  lemma LosesShown(w: Surroundings, c: Call, n: NodeId, why: Setback, c': Call)
    requires Shown(c) && n in c.running && SetBack(w, c, n, why)
    requires c' == SetDown(c, why).(running := c'.running, disturbed := c'.disturbed)
             && (why != Stopped ==> c'.disturbed == c.disturbed)
    ensures Shown(c')
  {
  }

  lemma LosesCaused(spec: Spec, cache: Option<Cache>, w: Surroundings, c: Call, n: NodeId, why: Setback, c': Call)
    requires Caused(spec, cache, w, c) && Numbered(c) && n in c.running && SetBack(w, c, n, why)
    requires !Cached(spec, cache, w, n)
    requires c' == c.(running := c'.running, stopScheduling := true, disturbed := c'.disturbed, status := c'.status,
                      waiting := c.waiting || why == Parked, failed := c.failed || why == Broken)
    ensures Caused(spec, cache, w, c')
  {
    var k := Attempt(n, c.running[n].attempt);
    assert IsNext(c.base, k) && Asked(spec, cache, w, c.base, c.started, k);
    hide IsNext, Cached, Parks;
  }

  /** The flags of the call after it. */
  function SetDown(c: Call, why: Setback): Call {
    match why
    case Stopped => c.(stopScheduling := true)
    case Parked => c.(stopScheduling := true, waiting := true, status := RunWaiting)
    case Broken => c.(stopScheduling := true, failed := true, status := RunFailed)
  }

  /** The status of an attempt that came back without success. */
  function Left(why: Setback): NodeStatus {
    match why
    case Stopped => NodeCanceled
    case Parked => NodeWaiting
    case Broken => NodeFailed
  }

  lemma LosesFlagged(w: Surroundings, c: Call, records: Records, n: NodeId, why: Setback, c': Call,
                     e: Option<Execution>)
    requires Flagged(w, c, records) && n in c.running && Numbered(c)
    requires c'.base == c.base && c'.running == Forget(c.running, n)
    requires c'.failed == (c.failed || why == Broken) && c'.waiting == (c.waiting || why == Parked)
    requires e.Some? ==> e.value.status == Left(why)
    requires e.None? ==> !Reliable(w)
    ensures Flagged(w, c', Write(records, Attempt(n, c.running[n].attempt), e))
  {
    var k := Attempt(n, c.running[n].attempt);
    assert IsNext(c.base, k);
    WroteOne(c.base, records, k, e, NodeFailed);
    WroteOne(c.base, records, k, e, NodeWaiting);
    hide NewlySo, Reliable, IsNext, Numbered;
  }

  lemma LandsTells(spec: Spec, cache: Option<Cache>, w: Surroundings, c: Call, records: Records, n: NodeId,
                   output: Json, inDegree': map<NodeId, int>, ready': seq<NodeId>)
    requires Tells(spec, cache, w, c, records) && n in c.running
    requires Told(spec, cache, w, c.limit, Attempt(n, c.running[n].attempt),
                  Execution(NodeSucceeded, c.running[n].input, output))
    ensures Tells(spec, cache, w, Landing(c, n, output, inDegree', ready'),
                  records[Attempt(n, c.running[n].attempt) := Execution(NodeSucceeded, c.running[n].input, output)])
  {
    var k, e := Attempt(n, c.running[n].attempt), Execution(NodeSucceeded, c.running[n].input, output);
    var c' := Landing(c, n, output, inDegree', ready');
    assert IsNext(c.base, k);
    LandsFlagged(w, c, records, n, c', e);
    hide IsHighest, IsNext, NewlySo, Cached, AskedForError, AskedForDelay, Overdrawn, Flagged;
    WritesTold(spec, cache, w, c.limit, c.base, records, k, Some(e));
    hide RecordsTell, Told;
  }

  lemma LandsFlagged(w: Surroundings, c: Call, records: Records, n: NodeId, c': Call, e: Execution)
    requires Flagged(w, c, records) && n in c.running && Numbered(c)
    requires c'.base == c.base && c'.running == Forget(c.running, n)
    requires c'.failed == c.failed && c'.waiting == c.waiting && e.status == NodeSucceeded
    ensures Flagged(w, c', records[Attempt(n, c.running[n].attempt) := e])
  {
    var k := Attempt(n, c.running[n].attempt);
    assert IsNext(c.base, k);
    WroteOne(c.base, records, k, Some(e), NodeFailed);
    WroteOne(c.base, records, k, Some(e), NodeWaiting);
    hide NewlySo, Reliable, IsNext, Numbered;
  }

  /** A new record brings its own status and no other. */
  lemma WroteOne(base: Records, records: Records, k: Attempt, e: Option<Execution>, status: NodeStatus)
    requires k !in base && (k in records ==> records[k].status != status)
    ensures NewlySo(base, Write(records, k, e), status) <==>
              NewlySo(base, records, status) || (e.Some? && e.value.status == status)
  {
    var records' := Write(records, k, e);
    if j :| j in records && j !in base && records[j].status == status {
      assert j in records' && records'[j].status == status;
    }
    if e.Some? && e.value.status == status {
      assert k in records';
    }
  }

  /** The call has not seen its run canceled or its context end. */
  predicate Undisturbed(c: Call) {
    !c.disturbed && !c.externalCanceled
  }

  /** The parts of a call that no step changes. */
  ghost predicate SameCall(c: Call, c': Call) {
    c'.base == c.base && c'.limit == c.limit && c.started <= c'.started && (c.Halted() ==> c'.Halted())
  }

  // One round of the loop

  /** Taking one node from the ready queue: drop it for lack of budget, throttle it, park it for
      a human, serve it from the cache, or launch its handler.  A storage error ends the call. */
  method ScheduleNext(spec: Spec, c: Call, records: Records, cache: Option<Cache>, w: Surroundings)
    returns (c': Call, records': Records, throttled: bool, ok: bool)
    requires CallInv(spec, c, records) && FaithfulCache(spec, cache) && Tells(spec, cache, w, c, records)
    requires c.ready != [] && !c.stopScheduling && Uncached(spec, cache, w, c.running)
    ensures CallInv(spec, c', records') && SameCall(c, c') && Undisturbed(c') == Undisturbed(c)
    ensures Tells(spec, cache, w, c', records') && (ok ==> Uncached(spec, cache, w, c'.running))
    ensures throttled ==> ok && c' == c.(ready := c'.ready) && cache.None? && exists t :: w.capped(t)
    ensures ok && !throttled && !c'.stopScheduling ==>
              c'.started == c.started + {c.ready[0]} && c.ready[0] !in c.started
    ensures Work(spec.g, c') <= Work(spec.g, c) && (!ok ==> exists t :: w.failing(t))
    ensures |c'.running| <= |c.running| + 1
  {
    hide Counts, Queue, Progress, Recorded, Meant, Sound, MeaningInput, Tells, Uncached;
    records', throttled, ok := records, false, true;
    if !c.budgetExceeded && c.limit > 0 && c.attemptsUsed + 1 > c.limit {
      Drops(spec, c, records);
      c' := Dropped(c);
      OverspentTells(spec, cache, w, c, records, c');
      return;
    }
    var moment: int := *;
    if cache.None? && w.capped(moment) {
      Requeues(spec, c, records);
      c' := c.(ready := c.ready[1..] + [c.ready[0]]);
      RequeuedTells(spec, cache, w, c, records, c');
      throttled := true;
      return;
    }
    c', records', ok := RunNode(spec, c, records, cache, w);
  }

  /** Running the head of the queue: park it for a human, serve it from the cache, or launch its
      handler. */
  method RunNode(spec: Spec, c: Call, records: Records, cache: Option<Cache>, w: Surroundings)
    returns (c': Call, records': Records, ok: bool)
    requires CallInv(spec, c, records) && FaithfulCache(spec, cache) && Tells(spec, cache, w, c, records)
    requires c.ready != [] && !c.stopScheduling && !(c.limit > 0 && c.attemptsUsed + 1 > c.limit)
    requires Uncached(spec, cache, w, c.running)
    ensures CallInv(spec, c', records') && SameCall(c, c') && Undisturbed(c') == Undisturbed(c)
    ensures Tells(spec, cache, w, c', records') && (ok ==> Uncached(spec, cache, w, c'.running))
    ensures c'.started == c.started + {c.ready[0]} && c.ready[0] !in c.started
    ensures Work(spec.g, c') <= Work(spec.g, c) && (!ok ==> exists t :: w.failing(t))
    ensures |c'.running| <= |c.running| + 1
  {
    hide CallInv, Tells, MeaningInput, FaithfulCache, Sound, Work;
    records', ok := records, true;
    var n, attempt, input := StartAttempt(spec, c, records);
    var moment: int := *;
    if spec.handlers.None? && w.human(n) {
      if w.pending(Attempt(n, attempt)) {
        var anew: bool := *;  // an open task that is found again leaves no new record
        var waiting := if anew then Some(Execution(NodeWaiting, input, "")) else None;
        c', records' := Launch(spec, cache, w, c, records, attempt, input, true, waiting);
      } else {
        c', records' := Launch(spec, cache, w, c, records, attempt, input, false, None);
      }
      ok := !w.failing(moment);
    } else if cache.Some? && n in cache.value {
      c', records', ok := Reuse(spec, c, records, cache, w, attempt, input);
    } else {
      var written := if w.failing(moment) then None else Some(Execution(NodeRunning, input, ""));
      c', records' := Launch(spec, cache, w, c, records, attempt, input, false, written);
      ok := !w.failing(moment);
    }
  }

  /** A hit in the replay cache: the record is written at once. */
  method Reuse(spec: Spec, c: Call, records: Records, cache: Option<Cache>, w: Surroundings, attempt: nat, input: Input)
    returns (c': Call, records': Records, ok: bool)
    requires CallInv(spec, c, records) && FaithfulCache(spec, cache) && Tells(spec, cache, w, c, records)
    requires c.ready != [] && !c.stopScheduling && !(c.limit > 0 && c.attemptsUsed + 1 > c.limit)
    requires Sound(spec.g) && Startable(spec, c, records, c.ready[0], attempt) && Cached(spec, cache, w, c.ready[0])
    requires spec.handlers.Some? ==> input == MeaningInput(spec.g, spec.handlers.value, spec.initial, c.ready[0])
    ensures CallInv(spec, c', records') && SameCall(c, c') && Undisturbed(c') == Undisturbed(c)
    ensures Tells(spec, cache, w, c', records') && (ok ==> c'.running == c.running)
    ensures c'.started == c.started + {c.ready[0]} && c.ready[0] !in c.started
    ensures Work(spec.g, c') <= Work(spec.g, c) && (!ok ==> exists t :: w.failing(t))
    ensures |c'.running| <= |c.running| + 1
  {
    hide CallInv, Tells, MeaningInput, FaithfulCache, Sound, Given;
    var moment: int, later: int := *, *;
    var n := c.ready[0];
    c', records' := Launch(spec, cache, w, c, records, attempt, input, false, None);
    ok := !w.failing(moment);
    if ok {
      ghost var launched := c';
      CachedIsMeant(spec, c', records', cache, n);
      FlightIsGiven(spec, c', records', n);
      c', records' := Complete(spec, cache, w, c', records', n, cache.value[n].output);
      LandsWork(spec.g, launched, c', n);
      assert c'.running == c.running;
      ok := !w.failing(later);  // the event's payload may fail to build after the record is written
    }
  }

  lemma CachedIsMeant(spec: Spec, c: Call, records: Records, cache: Option<Cache>, n: NodeId)
    requires CallInv(spec, c, records) && FaithfulCache(spec, cache) && cache.Some? && n in cache.value
    ensures Sound(spec.g)
    ensures spec.handlers.Some? ==> cache.value[n].output == Meaning(spec.g, spec.handlers.value, spec.initial, n)
  {
    hide Scheduled, Recorded, Meant, Sound;
  }

  /** The head of the queue goes in flight, or is parked for a human, and its record is written. */
  method Launch(spec: Spec, ghost cache: Option<Cache>, ghost w: Surroundings, c: Call, records: Records, attempt: nat,
                input: Input, parked: bool, e: Option<Execution>)
    returns (c': Call, records': Records)
    requires CallInv(spec, c, records) && c.ready != [] && !c.stopScheduling && Tells(spec, cache, w, c, records)
    requires !(c.limit > 0 && c.attemptsUsed + 1 > c.limit)
    requires Startable(spec, c, records, c.ready[0], attempt)
    requires e.Some? ==> e.value.status == if parked then NodeWaiting else NodeRunning
    requires e.Some? ==> e.value.input == input
    requires parked ==> Parks(spec, w, Attempt(c.ready[0], attempt))
    requires Sound(spec.g)
    requires spec.handlers.Some? ==> input == MeaningInput(spec.g, spec.handlers.value, spec.initial, c.ready[0])
    ensures CallInv(spec, c', records') && SameCall(c, c') && Undisturbed(c') == Undisturbed(c)
    ensures Tells(spec, cache, w, c', records')
    ensures c'.started == c.started + {c.ready[0]} && c.ready[0] !in c.started && Work(spec.g, c') <= Work(spec.g, c)
    ensures c'.running == if parked then c.running else c.running[c.ready[0] := Flight(attempt, input)]
    ensures c'.limit == c.limit && |c'.running| <= |c.running| + 1
  {
    hide Scheduled, Recorded, Meant, Sound, MeaningInput, Tells, Parks;
    StoppedExactly(spec, c, records);
    hide CallInv;
    var n := c.ready[0];
    c' := if parked then Counted(c, n, attempt).(waiting := true, stopScheduling := true, status := RunWaiting)
          else Counted(c, n, attempt).(running := c.running[n := Flight(attempt, input)]);
    Starts(spec, c, records, n, attempt, input, c', e);
    StartsTells(spec, cache, w, c, records, n, attempt, input, c', e);
    StartsWork(spec.g, c.started, c.running, n, Flight(attempt, input));
    records' := Write(records, Attempt(n, attempt), e);
  }

  /** The nodes not started yet, and those in flight. */
  ghost function Work(g: Workflow, c: Call): nat {
    |Elements(g.nodes) - c.started| + |c.running|
  }

  lemma StartsWork(g: Workflow, started: set<NodeId>, running: map<NodeId, Flight>, n: NodeId, f: Flight)
    requires n in g.nodes && n !in started && n !in running
    ensures |Elements(g.nodes) - (started + {n})| + 1 == |Elements(g.nodes) - started|
    ensures |running[n := f]| == |running| + 1
  {
    assert Elements(g.nodes) - started == Elements(g.nodes) - (started + {n}) + {n};
    assert running[n := f].Keys == running.Keys + {n};
  }

  lemma FlightIsGiven(spec: Spec, c: Call, records: Records, n: NodeId)
    requires CallInv(spec, c, records) && n in c.running
    ensures Given(spec, n, c.running[n].input)
  {
    hide Counts, Queue, Progress, Budget, Recorded, Sound, MeaningInput;
  }

  lemma CallIsSound(spec: Spec, c: Call, records: Records)
    requires CallInv(spec, c, records)
    ensures Sound(spec.g)
  {
    hide Scheduled, Recorded, Meant, Sound;
  }

  lemma StoppedExactly(spec: Spec, c: Call, records: Records)
    requires CallInv(spec, c, records)
    ensures c.stopScheduling <==> c.Halted()
  {
    hide Counts, Queue, Progress, Budget, Recorded, Meant, Sound;
  }

  /** A pure handler given what the node means to get returns what the node means. */
  lemma HandlerMeans(spec: Spec, c: Call, records: Records, n: NodeId)
    requires Sound(spec.g) && spec.handlers.Some? && n in c.running && CallInv(spec, c, records)
    ensures spec.handlers.value(n, c.running[n].input) == Meaning(spec.g, spec.handlers.value, spec.initial, n)
  {
    hide Counts, Queue, Progress, Budget, Recorded, Sound, MeaningInput;
    MeaningUnfolds(spec.g, spec.handlers.value, spec.initial, n);
  }

  /** One result from the channel.  The source ignores a failure to write the record of an attempt
      that did not succeed. */
  method HandleResult(spec: Spec, ghost cache: Option<Cache>, c: Call, records: Records, n: NodeId, w: Surroundings)
    returns (c': Call, records': Records, ok: bool)
    requires CallInv(spec, c, records) && Tells(spec, cache, w, c, records)
    requires n in c.running && Uncached(spec, cache, w, c.running)
    ensures CallInv(spec, c', records') && SameCall(c, c') && c'.started == c.started
    ensures Tells(spec, cache, w, c', records')
    ensures ok ==> c'.running == Forget(c.running, n)
    ensures Calm(w) && Undisturbed(c) ==> Undisturbed(c')
    ensures Elements(c.ready) <= Elements(c'.ready) && (c.stopScheduling ==> c'.stopScheduling)
    ensures !ok ==> exists t :: w.failing(t)
  {
    hide CallInv, Tells;
    var moment: int, later: int := *, *;
    var unsaved := w.failing(later);
    ok := true;
    if c.budgetExceeded || c.externalCanceled || w.canceled(moment) {
      c', records' := Land(spec, cache, w, c, records, n, Stopped, unsaved);
      return;
    }
    match w.reply(Attempt(n, c.running[n].attempt))
    case Delayed => c', records' := Land(spec, cache, w, c, records, n, Parked, unsaved);
    case Error => c', records' := Land(spec, cache, w, c, records, n, Broken, unsaved);
    case Output(answer) =>
      if unsaved {
        return c, records, false;
      }
      c', records', ok := Succeed(spec, cache, w, c, records, n, answer);
  }

  /** How an attempt comes back without success. */
  datatype Setback = Stopped | Parked | Broken

  /** That is how it comes back: its handler said so, or the call is over budget or canceled. */
  ghost predicate SetBack(w: Surroundings, c: Call, n: NodeId, why: Setback)
    requires n in c.running
  {
    match why
    case Stopped => c.budgetExceeded || c.externalCanceled || exists t :: w.canceled(t)
    case Parked => w.reply(Attempt(n, c.running[n].attempt)).Delayed? && !c.budgetExceeded
    case Broken => w.reply(Attempt(n, c.running[n].attempt)).Error?
  }

  /** An attempt came back without success: the call is halted, and the attempt's record is
      written, unless the store fails. */
  method Land(spec: Spec, ghost cache: Option<Cache>, ghost w: Surroundings, c: Call, records: Records, n: NodeId,
              why: Setback, unsaved: bool)
    returns (c': Call, records': Records)
    requires CallInv(spec, c, records) && n in c.running && Tells(spec, cache, w, c, records)
    requires SetBack(w, c, n, why) && Uncached(spec, cache, w, c.running) && (unsaved ==> !Reliable(w))
    ensures CallInv(spec, c', records') && SameCall(c, c') && c'.started == c.started && c'.ready == c.ready
    ensures Tells(spec, cache, w, c', records')
    ensures c'.running == Forget(c.running, n) && (c.stopScheduling ==> c'.stopScheduling)
    ensures why != Stopped || c.budgetExceeded ==> Undisturbed(c') == Undisturbed(c)
  {
    hide CallInv, Tells, SetBack, Given;
    StoppedExactly(spec, c, records);
    var flight := c.running[n];
    var status;
    match why {
      case Stopped =>
        status := NodeCanceled;
        c' := c.(running := Forget(c.running, n));
        if !c.budgetExceeded {
          c' := c'.(stopScheduling := true, disturbed := true);
        }
      case Parked =>
        status := NodeWaiting;
        c' := c.(running := Forget(c.running, n), waiting := true, stopScheduling := true, status := RunWaiting);
      case Broken =>
        status := NodeFailed;
        c' := c.(running := Forget(c.running, n), failed := true, stopScheduling := true, status := RunFailed);
    }
    var e := if unsaved then None else Some(Execution(status, flight.input, ""));
    FlightIsGiven(spec, c, records, n);
    Loses(spec, c, records, n, c', e);
    LosesTells(spec, cache, w, c, records, n, why, c', e);
    records' := Write(records, Attempt(n, flight.attempt), e);
  }

  /** A handler has answered.  Building the finish event may fail after the record is written. */
  method Succeed(spec: Spec, ghost cache: Option<Cache>, w: Surroundings, c: Call, records: Records, n: NodeId,
                 answer: Json)
    returns (c': Call, records': Records, ok: bool)
    requires CallInv(spec, c, records) && n in c.running && Tells(spec, cache, w, c, records)
    requires Uncached(spec, cache, w, c.running)
    requires w.reply(Attempt(n, c.running[n].attempt)) == Output(answer)
    ensures CallInv(spec, c', records') && SameCall(c, c') && Undisturbed(c') == Undisturbed(c)
    ensures Tells(spec, cache, w, c', records')
    ensures c'.running == Forget(c.running, n) && c'.started == c.started
    ensures c'.stopScheduling == c.stopScheduling && Elements(c.ready) <= Elements(c'.ready)
    ensures !ok ==> exists t :: w.failing(t)
  {
    hide CallInv, Tells, Given;
    var moment: int := *;
    var output := answer;
    if spec.handlers.Some? {
      output := spec.handlers.value(n, c.running[n].input);
      CallIsSound(spec, c, records);
      HandlerMeans(spec, c, records, n);
    }
    FlightIsGiven(spec, c, records, n);
    c', records' := Complete(spec, cache, w, c, records, n, output);
    ok := !w.failing(moment);
  }

  /** How a call with nothing in flight ends, given its last look at the run. */
  function Ending(c: Call, canceled: bool): Outcome {
    if c.failed then Failed
    else if c.externalCanceled || canceled then Canceled
    else if c.waiting then Waiting
    else if c.budgetExceeded then OverBudget
    else Finished
  }

  /** A call that marks its run succeeded has done every node if and only if nothing is left in
      the queue and every node it started is done. */
  lemma FinishedExactly(spec: Spec, c: Call, records: Records)
    requires CallInv(spec, c, records) && c.running == map[] && Ending(c, false) == Finished
    ensures (forall n :: n in spec.g.nodes ==> HasSucceeded(records, n)) <==> c.ready == [] && c.started <= c.done
  {
    hide Meant, Budget, Kept, HasSucceeded;
    if c.ready == [] && c.started <= c.done {
      NothingLeft(spec, c, records);
    } else if c.ready != [] {
      assert c.ready[0] in Elements(c.ready);
      assert c.ready[0] in spec.g.nodes && !HasSucceeded(records, c.ready[0]);
    } else {
      var n :| n in c.started && n !in c.done;
      assert n in spec.g.nodes && !HasSucceeded(records, n);
    }
  }

  /** With nothing queued, lost or dropped, a node that is not done would wait for ever for
      another: there is none. */
  lemma NothingLeft(spec: Spec, c: Call, records: Records)
    requires CallInv(spec, c, records) && c.ready == [] && c.started <= c.done && !c.budgetExceeded
    ensures forall n :: n in spec.g.nodes ==> HasSucceeded(records, n)
  {
    hide Meant, Budget, Kept, HasSucceeded;
    var u := Elements(spec.g.nodes) - c.done;
    if u != {} {
      forall n | n in u
        ensures HasPredecessor(spec.g, u, n)
      {
        assert c.inDegree[n] != 0;
        OpenZero(spec.g.edges, c.done, n);
        var e :| e in spec.g.edges && e.to == n && e.from !in c.done;
        assert e.from in u && e == Edge(e.from, n);
      }
      StuckIsCyclic(spec.g, u);
    }
    forall n | n in spec.g.nodes
      ensures HasSucceeded(records, n)
    {
      assert n in Elements(spec.g.nodes) && n !in u;
    }
  }

  /** A call that was not halted has lost nothing. */
  lemma UnhaltedIsComplete(spec: Spec, c: Call, records: Records)
    requires CallInv(spec, c, records) && c.running == map[] && !c.Halted()
    ensures c.started <= c.done
  {
    hide Meant, Budget, Recorded, Counts, Queue, HasSucceeded, Sound;
  }

  /** The inner loop: schedule until the queue is empty, the slots are full, everything left is
      throttled, or something halts. */
  method ScheduleReady(spec: Spec, c0: Call, records0: Records, cache: Option<Cache>, maxParallel: int,
                       w: Surroundings)
    returns (c: Call, records: Records, ok: bool)
    requires CallInv(spec, c0, records0) && FaithfulCache(spec, cache) && Tells(spec, cache, w, c0, records0)
    requires Uncached(spec, cache, w, c0.running)
    ensures CallInv(spec, c, records) && SameCall(c0, c) && Undisturbed(c) == Undisturbed(c0)
    ensures Tells(spec, cache, w, c, records) && (ok ==> Uncached(spec, cache, w, c.running))
    ensures c0.stopScheduling ==> c == c0 && records == records0
    ensures Work(spec.g, c) <= Work(spec.g, c0) && (!ok ==> exists t :: w.failing(t))
    ensures |c.running| <= Max(|c0.running|, maxParallel)
    ensures ok ==> c.ready == [] || |c.running| >= maxParallel || c.stopScheduling
                   || (cache.None? && exists t :: w.capped(t))
  {
    hide Counts, Queue, Progress, Budget, Recorded, Meant, Sound, FaithfulCache, Tells, Uncached, Work;
    c, records, ok := c0, records0, true;
    var maxSkips, skips := |c.ready|, 0;
    while !c.stopScheduling && |c.running| < maxParallel && |c.ready| > 0
      invariant CallInv(spec, c, records) && SameCall(c0, c) && ok && Undisturbed(c) == Undisturbed(c0)
      invariant Tells(spec, cache, w, c, records) && Uncached(spec, cache, w, c.running)
      invariant c0.stopScheduling ==> c == c0 && records == records0
      invariant Work(spec.g, c) <= Work(spec.g, c0)
      invariant |c.running| <= Max(|c0.running|, maxParallel)
      invariant skips > 0 ==> cache.None? && exists t :: w.capped(t)
      invariant maxSkips == 0 ==> c0.ready == [] && c == c0
      decreases Elements(spec.g.nodes) - c.started, maxSkips - skips, !c.stopScheduling
    {
      if skips >= maxSkips {
        break;
      }
      ghost var before := c;
      ReadyIsKnown(spec.g, c);
      var throttled;
      c, records, throttled, ok := ScheduleNext(spec, c, records, cache, w);
      if !ok {
        return;
      }
      if throttled {
        skips := skips + 1;
      } else {
        skips := 0;
        assert before.started <= c.started;
      }
      if c.stopScheduling {
        break;
      }
    }
  }

  lemma ReadyIsKnown(g: Workflow, c: Call)
    requires Scheduled(g, c) && c.ready != []
    ensures c.ready[0] in Elements(g.nodes)
  {
    hide Counts, Progress, Budget;
    assert c.ready[0] in Elements(c.ready);
  }

  datatype HaltReason = BudgetSpent | SeenCanceled | ContextCanceled

  /** triggerBudgetExceeded, an external cancel, or the end of the run's context. */
  method Halt(spec: Spec, ghost cache: Option<Cache>, ghost w: Surroundings, c: Call, ghost records: Records,
              why: HaltReason)
    returns (c': Call)
    requires CallInv(spec, c, records) && Tells(spec, cache, w, c, records)
    requires match why
             case BudgetSpent => exists t :: w.spent(t)
             case SeenCanceled => exists t :: w.canceled(t)
             case ContextCanceled => true
    ensures Tells(spec, cache, w, c', records)
    ensures CallInv(spec, c', records) && SameCall(c, c') && c'.Halted() && c'.stopScheduling
    ensures c'.running == c.running && c'.ready == c.ready && c'.started == c.started
    ensures why == SeenCanceled ==> c'.externalCanceled
    ensures Work(spec.g, c') == Work(spec.g, c)
    ensures why == BudgetSpent ==> Undisturbed(c') == Undisturbed(c)
  {
    hide CallInv, Scheduled, Tells;
    c' := match why
          case BudgetSpent => Overspent(c)
          case SeenCanceled => c.(externalCanceled := true, stopScheduling := true)
          case ContextCanceled => c.(disturbed := true, stopScheduling := true);
    Halts(spec, c, records, c');
    if why == BudgetSpent {
      OverspentTells(spec, cache, w, c, records, c');
    } else {
      StoppedTells(spec, cache, w, c, records, c');
    }
  }

  lemma StoppedIsHalted(spec: Spec, c: Call, records: Records)
    requires CallInv(spec, c, records) && c.stopScheduling
    ensures c.Halted()
  {
    hide Counts, Queue, Progress, Budget, Recorded, Meant, Sound;
  }

  /** Why completeness needs calm: when the calling context ends while a node is queued, the call
      is stopped, the node has no success, and none of the tests before the run is marked
      succeeded notices, so that the call can go on to mark it, and does if nothing is in flight.
      Nothing starts from then on, so the node stays queued (ScheduleAll). */
  lemma ContextEndLeavesNodes(spec: Spec, c: Call, records: Records)
    requires CallInv(spec, c, records) && !c.Halted() && c.ready != []
    ensures var c' := c.(disturbed := true, stopScheduling := true);
            CallInv(spec, c', records) && Ending(c', false) == Finished
    ensures c.ready[0] in spec.g.nodes && !HasSucceeded(records, c.ready[0])
  {
    Halts(spec, c, records, c.(disturbed := true, stopScheduling := true));
    hide Counts, Meant, Sound, Budget, Kept, Progress, HasSucceeded;
    assert c.ready[0] in Elements(c.ready);
  }

  /** A look at the run and at its context: runCtx.Done. */
  method LookAround(spec: Spec, ghost cache: Option<Cache>, c0: Call, ghost records: Records, w: Surroundings)
    returns (c: Call)
    requires CallInv(spec, c0, records) && Tells(spec, cache, w, c0, records)
    ensures CallInv(spec, c, records) && SameCall(c0, c) && Tells(spec, cache, w, c, records)
    ensures c.running == c0.running && c.ready == c0.ready && c.started == c0.started
    ensures Work(spec.g, c) == Work(spec.g, c0)
    ensures Calm(w) && Undisturbed(c0) ==> Undisturbed(c)
    ensures c0.stopScheduling ==> c.stopScheduling
    ensures (forall t :: w.ended(t)) ==> c.stopScheduling && ((forall t :: w.canceled(t)) ==> c.externalCanceled)
  {
    hide CallInv, Tells;
    c := c0;
    var moment: int, later: int := *, *;
    if w.ended(moment) {
      c := Halt(spec, cache, w, c, records, ContextCanceled);
      if w.canceled(later) {
        c := Halt(spec, cache, w, c, records, SeenCanceled);
      }
    }
  }

  /** The scheduling loop.  The process may die in any round: when the events run out. */
  method ScheduleAll(spec: Spec, c0: Call, records0: Records, cache: Option<Cache>, maxParallel: int, w: Surroundings)
    returns (c: Call, records: Records, ok: bool)
    requires CallInv(spec, c0, records0) && FaithfulCache(spec, cache) && Tells(spec, cache, w, c0, records0)
    requires c0.running == map[]
    ensures CallInv(spec, c, records) && SameCall(c0, c) && Tells(spec, cache, w, c, records)
    ensures ok ==> c.running == map[] && (c.Halted() || c.ready == [])
    ensures Calm(w) && Undisturbed(c0) ==> Undisturbed(c)
    ensures c0.stopScheduling ==> Elements(c0.ready) <= Elements(c.ready) && c.started == c0.started
    ensures Uninterrupted(spec, cache, w) ==> ok
    ensures (forall t :: w.spent(t)) ==> c.started == c0.started
  {
    hide CallInv, InOrder, FaithfulCache, Calm, Tells, Work, Cached;
    c, records, ok := c0, records0, true;
    var slots := if maxParallel < 1 then 1 else maxParallel;
    var round, over := 0, false;
    WorkAtMost(spec.g, c);
    assert w.events[0..] == w.events;
    while !over && (|c.ready| > 0 || |c.running| > 0)
      invariant CallInv(spec, c, records) && SameCall(c0, c) && ok && Tells(spec, cache, w, c, records)
      invariant Uncached(spec, cache, w, c.running) && round <= |w.events|
      invariant Calm(w) && Undisturbed(c0) ==> Undisturbed(c)
      invariant c0.stopScheduling ==>
                c.stopScheduling && Elements(c0.ready) <= Elements(c.ready) && c.started == c0.started
      invariant over ==> c.running == map[] && c.Halted()
      invariant |c.running| <= slots && ((forall t :: w.spent(t)) ==> c.started == c0.started)
      invariant Uninterrupted(spec, cache, w) ==>
                (c.running == map[] && (over || c.ready == [])) || Results(w.events[round..]) > Work(spec.g, c)
      decreases |w.events| - round
    {
      if round >= |w.events| {
        ok := false;
        return;
      }
      var wake := w.events[round];
      assert w.events[round..][1..] == w.events[round + 1..];
      round := round + 1;
      c, records, over, ok := Round(spec, c, records, cache, slots, w, wake);
      if !ok {
        return;
      }
    }
    assert |c.running| == 0 ==> c.running == map[];
  }

  /** One round: look whether to stop, schedule, and wait for what comes. */
  method Round(spec: Spec, c0: Call, records0: Records, cache: Option<Cache>, slots: int, w: Surroundings, wake: Wake)
    returns (c: Call, records: Records, over: bool, ok: bool)
    requires CallInv(spec, c0, records0) && FaithfulCache(spec, cache) && Tells(spec, cache, w, c0, records0)
    requires Uncached(spec, cache, w, c0.running) && slots > 0
    ensures CallInv(spec, c, records) && SameCall(c0, c) && Tells(spec, cache, w, c, records)
    ensures ok ==> Uncached(spec, cache, w, c.running)
    ensures over ==> ok && c.running == map[] && c.Halted()
    ensures (forall t :: w.spent(t)) || (forall t :: w.canceled(t)) ==> c.started == c0.started
    ensures ok ==> |c.running| <= Max(|c0.running|, slots)
    ensures Calm(w) && Undisturbed(c0) ==> Undisturbed(c)
    ensures c0.stopScheduling ==>
              c.stopScheduling && Elements(c0.ready) <= Elements(c.ready) && c.started == c0.started
    ensures !ok ==> exists t :: w.failing(t)
    ensures ok ==>
              || (c.running == map[] && (over || c.ready == []))
              || (cache.None? && exists t :: w.capped(t))
              || Work(spec.g, c) + (if wake == Result then 1 else 0) <= Work(spec.g, c0)
  {
    hide CallInv, FaithfulCache, Calm, Tells, Work, Cached;
    over := false;
    c := CheckStop(spec, cache, c0, records0, w);
    c, records, ok := ScheduleReady(spec, c, records0, cache, slots, w);
    if !ok {
      return;
    }
    if |c.running| == 0 {
      assert c.running == map[];
      if c.stopScheduling {
        StoppedIsHalted(spec, c, records);
        over := true;
      } else if |c.ready| > 0 && wake == ContextDone {
        c := LookAround(spec, cache, c, records, w);
      }
      return;
    }
    c, records, ok := Await(spec, cache, c, records, w, wake);
  }

  /** With something in flight, the loop waits for what comes first. */
  method Await(spec: Spec, ghost cache: Option<Cache>, c0: Call, records0: Records, w: Surroundings, wake: Wake)
    returns (c: Call, records: Records, ok: bool)
    requires CallInv(spec, c0, records0) && Tells(spec, cache, w, c0, records0)
    requires Uncached(spec, cache, w, c0.running) && |c0.running| > 0
    ensures CallInv(spec, c, records) && SameCall(c0, c) && Tells(spec, cache, w, c, records)
    ensures ok ==> Uncached(spec, cache, w, c.running)
    ensures Calm(w) && Undisturbed(c0) ==> Undisturbed(c)
    ensures c.started == c0.started && Elements(c0.ready) <= Elements(c.ready)
    ensures c0.stopScheduling ==> c.stopScheduling
    ensures ok ==> Work(spec.g, c) + (if wake == Result then 1 else 0) == Work(spec.g, c0)
                   && |c.running| <= |c0.running|
    ensures !ok ==> exists t :: w.failing(t)
  {
    hide CallInv, Calm, Tells, Work, Cached;
    c, records, ok := c0, records0, true;
    match wake
    case Tick =>
    case ContextDone =>
      c := LookAround(spec, cache, c, records, w);
    case Usage =>
      var moment: int := *;
      if !c.budgetExceeded && w.spent(moment) {
        c := Halt(spec, cache, w, c, records, BudgetSpent);
      }
    case Result =>
      assert c.running.Keys != {};
      var n :| n in c.running.Keys;
      c, records, ok := HandleResult(spec, cache, c, records, n, w);
      if ok {
        LandsWork(spec.g, c0, c, n);
      }
  }

  lemma WorkAtMost(g: Workflow, c: Call)
    requires c.running == map[]
    ensures Work(g, c) <= |g.nodes|
  {
    ElementsAtMost(g.nodes);
    assert Elements(g.nodes) == (Elements(g.nodes) - c.started) + (Elements(g.nodes) * c.started);
  }

  lemma {:induction false} ElementsAtMost(s: seq<NodeId>)
    ensures |Elements(s)| <= |s|
  {
    if s != [] {
      var front, last := s[..|s| - 1], s[|s| - 1];
      assert s == front + [last];
      ElementsAtMost(front);
      assert Elements(s) == Elements(front) + {last};
    }
  }

  lemma LandsWork(g: Workflow, c: Call, c': Call, n: NodeId)
    requires n in c.running && c'.running == Forget(c.running, n) && c'.started == c.started
    ensures Work(g, c') == Work(g, c) - 1 && |c'.running| == |c.running| - 1
  {
    assert c'.running.Keys == c.running.Keys - {n};
  }

  /** The two tests at the top of a round: the wall-clock budget and an external cancel. */
  method CheckStop(spec: Spec, ghost cache: Option<Cache>, c0: Call, ghost records: Records, w: Surroundings)
    returns (c: Call)
    requires CallInv(spec, c0, records) && Tells(spec, cache, w, c0, records)
    ensures CallInv(spec, c, records) && SameCall(c0, c) && Tells(spec, cache, w, c, records)
    ensures c.running == c0.running && c.ready == c0.ready && c.started == c0.started
    ensures Work(spec.g, c) == Work(spec.g, c0)
    ensures Calm(w) && Undisturbed(c0) ==> Undisturbed(c)
    ensures c0.stopScheduling || (forall t :: w.spent(t)) || (forall t :: w.canceled(t)) ==> c.stopScheduling
  {
    hide CallInv, Tells;
    StoppedExactly(spec, c0, records);
    c := c0;
    var moment: int, later: int := *, *;
    if !c.budgetExceeded && w.spent(moment) {
      c := Halt(spec, cache, w, c, records, BudgetSpent);
    }
    if !c.stopScheduling && w.canceled(later) {
      c := Halt(spec, cache, w, c, records, SeenCanceled);
    }
  }

  /** What a scheduling call may do to the records, whatever the environment did. */
  ghost predicate CallEffect(spec: Spec, before: Records, after: Records, started: set<NodeId>, limit: nat) {
    && Keeps(before, after)
    && (forall k :: k in after && k !in before ==> k.node in started && Above(before, k.node, k.number))
    && started <= Elements(spec.g.nodes)
    && (forall n :: n in started ==> !HasSucceeded(before, n))
    && (forall n, p :: n in started && p in Parents(spec.g, n) ==> HasSucceeded(after, p))
    && (limit > 0 && started != {} ==> |before| + |started| <= limit)
  }

  lemma CallHasEffect(spec: Spec, c: Call, records: Records)
    requires CallInv(spec, c, records)
    ensures CallEffect(spec, c.base, records, c.started, c.limit)
  {
    hide Counts, Meant, HasSucceeded;
  }

  /** The parents slice of the source, one entry per edge. */
  function ParentList(edges: seq<Edge>, n: NodeId): seq<NodeId> {
    if edges == [] then []
    else
      var front, e := edges[..|edges| - 1], edges[|edges| - 1];
      if e.to == n then ParentList(front, n) + [e.from] else ParentList(front, n)
  }

  lemma ParentListEdges(edges: seq<Edge>, n: NodeId, p: NodeId)
    ensures p in ParentList(edges, n) <==> Edge(p, n) in edges
  {
    if edges != [] {
      var front, e := edges[..|edges| - 1], edges[|edges| - 1];
      assert edges == front + [e];
      ParentListEdges(front, n, p);
    }
  }

  lemma ParentListIsParents(g: Workflow, n: NodeId)
    ensures Elements(ParentList(g.edges, n)) == Parents(g, n)
  {
    forall p
      ensures p in ParentList(g.edges, n) <==> p in Parents(g, n)
    {
      ParentListEdges(g.edges, n, p);
      if p in Parents(g, n) {
        var e :| e in g.edges && e.to == n && e.from == p;
        assert e == Edge(p, n);
      }
    }
  }

  /** sort.Slice by node index, on distinct ids: the ids in the order of the node list. */
  method SortByIndex(nodes: seq<NodeId>, ids: seq<NodeId>) returns (sorted: seq<NodeId>)
    requires UniqueIds(nodes) && Elements(ids) <= Elements(nodes)
    ensures UniqueIds(sorted) && Elements(sorted) == Elements(ids)
    ensures sorted == Selected(nodes, Elements(ids))
  {
    sorted := [];
    for k := 0 to |nodes|
      invariant UniqueIds(sorted) && Elements(sorted) == Elements(ids) * Elements(nodes[..k])
      invariant sorted == Selected(nodes[..k], Elements(ids))
    {
      var n := nodes[k];
      assert nodes[..k + 1] == nodes[..k] + [n];
      if n in ids {
        UniqueConcat(sorted, [n]);
        assert Elements([n]) == {n};
        sorted := sorted + [n];
      }
    }
    assert nodes[..|nodes|] == nodes;
  }

  /** The members of a set, in the order of the node list. */
  function Selected(nodes: seq<NodeId>, ids: set<NodeId>): seq<NodeId> {
    if nodes == [] then []
    else
      var front, n := nodes[..|nodes| - 1], nodes[|nodes| - 1];
      if n in ids then Selected(front, ids) + [n] else Selected(front, ids)
  }
}
