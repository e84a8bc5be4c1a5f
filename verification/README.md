# DriftQ-Core: delivery, durability and the DAG engine, verified

A Dafny model of the parts of DriftQ-Core whose correctness cannot be seen in one function: the
broker's delivery state machine with its write-ahead log, the idempotency and lease protocol, the
DAG scheduler with replay, the durable engine store, and the wildcard matcher of the policy engine.

`dafny verify dfyconfig.toml` checks the whole project.

## How the model is laid out

| file | what it holds |
|---|---|
| `Glob.dfy` | `matchPattern` and the meaning of wildcard patterns |
| `Graph.dfy`, `Dag.dfy` | workflow graphs, reachability, cycles, orders; the DFS, Kahn's loop, the downstream closure |
| `Semantics.dfy` | the recursive meaning of a workflow whose handlers are pure |
| `Runner.dfy`, `Replay.dfy` | one scheduling call and its records; the stored run, replay from a step, replay caches |
| `FileStore.dfy` | the engine store: maps, log, replay |
| `Idempotency.dfy`, `ProduceGate.dfy` | produce keys, leased consume keys, eviction; the gate around a keyed produce |
| `Backoff.dfy`, `Records.dfy`, `PartitionLog.dfy` | retry backoff on 64-bit durations; messages and log entries; counting what a partition buffers |
| `BrokerState.dfy`, `Delivery.dfy` | the broker as a state machine, and what every step keeps about delivery |
| `WalReplay.dfy` | rebuilding the broker from its log, and what every step keeps so that replay agrees |
| `BrokerRuns.dfy`, `History.dfy`, `Watermark.dfy` | theorems about whole runs with crashes anywhere |
| `Calls.dfy`, `CallFacts.dfy`, `Rounds.dfy`, `Broker.dfy` | the broker's methods with their loops, each proved to be a stretch of steps of the machine |
| `WatermarkCalls.dfy` | calls as moves of the watermark machine |
| `Counterexamples.dfy` | runs that show what the broker does not promise |

The broker is told twice. `BrokerState` says what one decision under the broker's lock does to the
state: dispatch one message, redeliver one entry, acknowledge, one phase of the offset flush.
`BrokerRuns` and `Watermark` prove properties of every sequence of such steps, with crashes and
restarts between any two of them. `Broker.InMemoryBroker` is the imperative code: its methods loop over
groups, partitions, consumers and entries, undo a delivery when a queue is full, and so on. Each
returns, as a ghost result, the steps it took, and proves that taking them is what it did
(`Takes`). `Calls.CallsExtendRuns` then carries the theorems of `BrokerRuns` over to histories of calls,
and `WatermarkCalls` those of `Watermark`: a cumulative acknowledgement begins, continues once for each
offset and ends, with other calls in between, and any other call is a stretch of steps.

Where a call of the source lets go of the lock, its method lets any other calls run (`OtherCalls`).

Clock readings, full queues, failing appends, the hash of a key, the order of map iteration, answers
of handlers and human decisions are all left open: they are inputs (`Env` of a broker, `Surroundings`
of a scheduling call, `refuses` of a store), or chosen freely where the code meets them. The theorems
hold for every choice, and a contract names the input that is to blame when something is not done.

## Where the code is not what one would expect

- Without a cap, doubling the backoff overflows: every policy reaches a retry at which the delay is
  not the intended one, and if the base is a duration at all it then turns negative, so that the
  redelivery gate stands open (`UncappedBackoffOverflows`). `UncappedBackoff` and
  `CappedBackoffExactly` say, for every policy, exactly when the delay is the intended one.
- A keyed produce that stays inside longer than the time-to-live lets a second one in
  (`GateOpensExactly`); within it, calls never overlap (`CallsNeverOverlap`).
- `PutKV` changes memory before it logs, and keeps a pair in memory that it failed to log. The store
  remembers, as a ghost set, the keys for which the log holds another value or none: exactly these
  do not come back as they were after a restart (`Reopen`). `FailedPutIsLost` shows one that is lost.
- Single acknowledgements and dead-lettering move the committed offset to the highest settled one.
  Such a step leaves it a watermark exactly when the offset is settled already, or is the next one and
  in flight (`AckKeepsMark`, `LeaveKeepsMark`). Otherwise a crash can lose messages: with offsets 0 and 1
  delivered, 1 acknowledged and flushed, the next process starts at 2 (`SingleAckSkips`).
- A dead-letter topic is created in memory without a record. After a restart it has only the partitions
  up to the highest one that holds a message (`RestartRows`): a topic with three partitions loses its
  whole dead-letter topic if nothing was dead-lettered yet (`EmptyDlqVanishes`). Topics that were
  created by a call come back with all their partitions.
- A negative acknowledgement reckons with the owner's first leasing stream, redelivery with its latest
  one: the entry is due at once if and only if the latest lease is at most a millisecond longer
  (`NackExpires`), which it always is with one lease for all streams (`OneLease`). `NackMayWait` shows an
  entry that is not.
- Timer keys join run id, node id and attempt with bars. They tell all attempts apart if no run id has a bar
  in it (`TimerKeysTell`); exactly when two are one is `TimerKeysAgree`, and `TimerKeysClash` shows two.
- If one node fails and another, answering later, asks for a delay, the call ends with the error but leaves
  the run waiting (`Explained`, in the contract of `RunDag`).
- The comment on `advanceOffsetLocked` promises a write to the log; the code queues the offset for the next
  flush. The model follows the code.
- A cancelled calling context stops the scheduling of a workflow without being recorded, so the run can
  then be marked succeeded with nodes left in the queue (`ContextEndLeavesNodes`). What the store and the
  context say at each moment is an input of `RunDag`. A run it marks succeeded has every node done if and
  only if nothing was left queued or lost, and in calm surroundings nothing is.

## Model

| member | source | states |
|---|---|---|
| `Glob.TrimmedExactly` | internal/engine/authz.go:494-500 | Trimming takes off exactly the space in front and at the end |
| `Glob.MatchPattern` | internal/engine/authz.go:494-541 | The greedy loop returns true exactly when the trimmed pattern is non-empty and the value matches it in the declarative sense (a star stands for any string), for every value and pattern |
| `Glob.MatchParts` | internal/engine/authz.go:509-540 | On the split pattern: true exactly when the value can be cut into the literal parts, in order, anchored at both ends |
| `Glob.MatchesIsCuts` | internal/engine/authz.go:494-541 | The character-by-character meaning of a pattern is the cut into its literal parts |
| `Dag.CycleSearch.Dfs` | internal/engine/dag.go:108-127 | The visited and stack sets describe a search: found means a cycle, otherwise everything left is closed and downhill |
| `Dag.HasCycle` | internal/engine/dag.go:98-135 | True exactly when the edge relation has a cycle |
| `Dag.Validate` | internal/engine/dag.go:20-48 | Success exactly for well-formed acyclic graphs; an empty or repeated id, named, comes first, then an edge to a node that is not there, exactly when the ids are in order, and last a cycle, exactly on well-formed cyclic graphs |
| `Dag.TopologicalOrder` | internal/engine/dag.go:50-95 | Fails exactly on cyclic graphs; otherwise a permutation of the nodes with every edge forward, for any initial queue order |
| `Dag.CountInDegrees` | internal/engine/runner_dag.go:198-214 | In-degrees are the numbers of edges from unfinished parents |
| `Dag.ReleaseChildren` | internal/engine/runner_dag.go:1057-1067 | After a node finishes, degrees drop by the number of its edges and exactly the children that reach zero are queued, once |
| `Dag.DownstreamNodes` | internal/engine/replay_helpers.go:16-37 | Terminates on every graph and returns exactly the nodes reachable from the step |
| `Graph.AcyclicHasOrder` | internal/engine/dag.go:50-95 | Every acyclic graph has a topological order |
| `Graph.StuckIsCyclic` | internal/engine/dag.go:89-91 | A set of nodes that each wait for another of the set holds a cycle |
| `Semantics.MeaningIsUnique` | internal/engine/runner_dag.go:473-500 | The node equations of an acyclic workflow have one solution: the recursive evaluation |
| `Semantics.MeaningSolves` | internal/engine/runner_dag.go:473-500 | The recursive evaluation satisfies every node's equation |
| `Runner.ReadRecords` | internal/engine/runner_dag.go:145-160 | The resume state is what the records say: done nodes, latest outputs, and exactly the highest attempt of each node |
| `Runner.Begin` | internal/engine/runner_dag.go:145-214 | A call starts in the invariant: counted edges, queue in node order, budget, known outputs equal to their meaning; nothing is told yet |
| `Runner.BuildInput` | internal/engine/runner_dag.go:473-493 | A node's input is gathered from exactly its parents' outputs |
| `Runner.RunNode` | internal/engine/runner_dag.go:409-752 | Starts the head of the queue, which was not started before in this call, within the budget, with the next attempt number; a cached node takes its cached output and its handler is not asked, an open human task parks the call; keeps the invariant, and fails only if the store does, also after the record of a cached output was written |
| `Runner.HandleResult` | internal/engine/runner_dag.go:826-1069 | Any result, in any order, keeps the invariant; the new record says what was answered: an output a success, an error a failure, a delay a wait, and a cancellation or spent budget a cancel; nothing leaves the queue, and it fails only if the store does |
| `Runner.Complete` | internal/engine/runner_dag.go:1027-1068 | A finished node is recorded with its meaning and its children released |
| `Runner.ScheduleReady` | internal/engine/runner_dag.go:398-752 | Filling the free slots keeps the invariant and never puts more than the given number in flight; it stops only with nothing queued, no slot free, a halt, or a cap in the way |
| `Runner.ScheduleAll` | internal/engine/runner_dag.go:754-1070 | The loop ends with nothing running, and with nothing queued unless it was halted; it always ends if the store works, no cap holds a node back and one event per node brings a result; once stopped, or with its time spent, it starts nothing and drops nothing; in calm surroundings it sees no cancellation |
| `Runner.NothingLeft` | internal/engine/runner_dag.go:1072-1097 | Nothing queued, nothing lost and no exceeded budget means every node has succeeded |
| `Runner.FinishedExactly` | internal/engine/runner_dag.go:1072-1097 | A call that marks its run succeeded has done every node if and only if nothing is left queued and every node it started is done |
| `Runner.ContextEndLeavesNodes` | internal/engine/runner_dag.go:755-785 | When the calling context ends while a node is queued, that node has no success, and no test before the run is marked succeeded notices: the call can go on to mark it, and does if nothing is in flight |
| `Runner.CallHasEffect` | internal/engine/runner_dag.go:148-160 | A call keeps old records, writes only higher attempts of nodes it started, starts only nodes without success whose parents succeeded, within the budget |
| `Runner.BuildReplayCache` | internal/engine/replay_cache.go:11-34 | For each node, the output of its latest succeeded attempt, and no other node |
| `Runner.ReplayBranchCache` | internal/engine/replay_branches.go:255-287 | Exactly the entries outside the invalidated suffix, and the step's own if asked |
| `Replay.WorkflowRun.RunDag` | internal/engine/runner_dag.go:45-1097 | Determinism: whatever the schedule, the resume point and the cache, every succeeded record holds the recursive meaning of its node. How it ends and why, with the status it leaves: canceled only if somebody canceled, always if the run was marked so, and then untouched; already succeeded exactly then; failed, waiting or over budget only if an attempt was answered so or the budget is spent, and new records say it; interrupted only if the store or the process fails; succeeded whenever nobody interferes. A run marked succeeded has every node done if and only if nothing was left queued or lost, which is so whenever nobody cancels it and its context lasts |
| `Replay.WorkflowRun.Invalidate` | internal/engine/replay_helpers.go:51-104 | Marks exactly the attempts of the given nodes as canceled and changes nothing else |
| `Replay.Suffix` | internal/engine/replay.go:75-118 | The nodes a replay does again, for each mode and step; none if the step is unknown |
| `Replay.WorkflowRun.ReplayFrom` | internal/engine/replay.go:32-132 | Exactly the old attempts of the nodes to be redone are marked canceled, all others are unchanged; those nodes are the ones reachable from the step, or all in a live replay without one, without the step itself exactly if a time-travel replay finds it succeeded; a replay that marks the run succeeded has a new success of each, with the next number; nothing else runs but nodes without a success; in live mode every new success was answered to its own attempt; it does nothing only for an unknown step or if the store fails |
| `Replay.WorkflowRun.Session` | internal/engine/replay.go:32-132 | Over any number of runs and replays in any order, every succeeded record holds its meaning and history is kept |
| `Replay.BuildReplayBranchCache` | internal/engine/replay_branches.go:289-311 | A branch's cache holds exactly the latest outputs of the nodes it takes over: all without a step, else those not downstream of it and in time travel the step itself; they are meanings of the source run's nodes |
| `Replay.CacheIsFaithful` | internal/engine/replay_cache.go:11-34 | A cache taken from a faithful run is faithful |
| `Replay.BranchCacheIsFaithful` | internal/engine/replay_branches.go:255-287 | Filtering a faithful cache for a branch leaves it faithful |
| `FileStore.Replay` | internal/engine/store_file.go:95-230 | The loop rebuilds what the log says record by record, or fails exactly when some record is refused |
| `FileStore.Store.CreateRun` | internal/engine/store_file.go:232-254 | Logged before it is visible; which error comes when, and that a valid new run is refused only if the log refuses; errors leave everything as it was; replay still gives the live state |
| `FileStore.Store.UpdateRun` | internal/engine/store_file.go:256-274 | Only an existing run changes, logged first; which error comes when; replay still gives the live state |
| `FileStore.Store.UpsertNodeExecution` | internal/engine/store_file.go:334-352 | Only for an existing run, logged first, under exactly its run, node and attempt; which error comes when; replay still gives the live state |
| `FileStore.Store.AppendEvent` | internal/engine/store_file.go:387-423 | The event gets the run's next number, and numbers strictly increase; a rejected event uses one up without harm; an unknown run or a failed append changes nothing; which error comes when |
| `FileStore.Store.UpsertTimer` | internal/engine/store_file.go:438-463 | Only for an existing run, logged first, under its timer key; which error comes when; replay still gives the live state |
| `FileStore.TimerKeysAgree` | internal/engine/memstore.go:314-316 | Two timers share a key if and only if their attempts agree and their run and node ids, joined by a bar, do |
| `FileStore.TimerKeysTell` | internal/engine/memstore.go:314-316 | With no bar in the run ids, exactly the same attempt of the same node of the same run |
| `FileStore.Store.PutKV` | internal/engine/store_file.go:618-639 | Memory changes first; if the append fails, the key is unsaved exactly if the log holds another value for it, or none; otherwise it is saved; no other key is touched |
| `FileStore.Store.Reopen` | internal/engine/store_file.go:61-126 | Replay of a log the store wrote always succeeds and gives the live runs, node executions, events and timers; a pair comes back if and only if its key is not unsaved, and no other key appears |
| `FileStore.EventLogged` | internal/engine/store_file.go:177-193 | Replay's own counter catches up with the live one, so numbers keep increasing across restarts |
| `Backoff.ComputeBackoff` | internal/broker/broker.go:1204-1240 | The loop with its early returns computes the doubling on 64-bit durations |
| `Backoff.CappedBackoff` | internal/broker/broker.go:1204-1240 | With a cap: base times 2^(n-1) cut at the cap, for every policy and retry that fits |
| `Backoff.CappedBackoffExactly` | internal/broker/broker.go:1204-1240 | That holds up to retry n if and only if it fits: every doubling below the cap stays within 64 bits, or, for a base or cap too long for a duration, what it wraps to happens to be right |
| `Backoff.SmallCapsFit` | internal/broker/broker.go:1204-1240 | Every retry fits when the cap is at most 2^62 nanoseconds (146 years) and the base is a duration |
| `Backoff.UncappedBackoff` | internal/broker/broker.go:1204-1240 | Without a cap: base times 2^(n-1), if and only if that is a duration |
| `Backoff.UncappedBackoffOverflows` | internal/broker/broker.go:1204-1240 | Without a cap every policy reaches a retry with a wrong delay, a negative one if the base is a duration |
| `Backoff.OneMillisecondOverflows` | internal/broker/broker.go:1204-1240 | A base of one millisecond without a cap reaches a negative delay |
| `Backoff.BackoffMonotone` | internal/broker/broker.go:1204-1240 | Later retries wait at least as long |
| `Backoff.RegisterBound` | internal/broker/broker.go:1217-1236 | With a cap the register holds at most the cap before a doubling, so at most twice the cap after |
| `Records.MessageRoundTrip` | internal/broker/wal_replay.go:242-297 | Message to log entry and back: field by field the same, but for empty parts that may come back absent and the transient attempt and error fields; equal to the canonical form |
| `Records.CanonicalTwice` | internal/broker/wal_replay.go:242-297 | A second restart changes nothing more |
| `Records.CanonicalBehaves` | internal/broker/broker.go:1549-1600 | What the log keeps decides key, tenant, retry limit, backoff and size as before |
| `PartitionLog.BufferedBytesCount` | internal/broker/helper.go:42-76 | The difference of two running sums, or the fallback loop, is the plain sum of the sizes after the offset |
| `PartitionLog.LagForPartition` | internal/broker/metrics_snapshot.go:61-67 | The binary search counts the messages after the committed offset |
| `PartitionLog.CountsAgree` | internal/broker/broker.go:373-377 | The lag row, bufferedCount and the plain count agree |
| `PartitionLog.AppendKeepsSums` | internal/broker/broker.go:1602-1611 | Appending keeps the running sums |
| `Idempotency.IdempotencyStore.CleanupLocked` | internal/broker/idempotency.go:175-202 | The eviction loop removes exactly the old entries that are neither committed nor live consume keys |
| `Idempotency.IdempotencyStore.Begin` | internal/broker/idempotency.go:87-122 | The produce-scope transition: committed and pending keys are refused with their reason, absent and failed ones become pending; expired ones are evicted first |
| `Idempotency.IdempotencyStore.ConsumeBeginLease` | internal/broker/idempotency.go:282-403 | The consume-scope grant: refused for bad leases, committed keys and leases another owner holds; otherwise logged first, and a failed append changes nothing but evictions |
| `Idempotency.IdempotencyStore.ConsumeRenewLease` | internal/broker/idempotency.go:405-479 | Extends the lease only for its owner and only while it runs, logged first |
| `Idempotency.IdempotencyStore.ConsumeCommitIfOwner` | internal/broker/idempotency.go:481-562 | Commits only for the owner of a running lease, logged first; a committed key stays as it is and the call succeeds |
| `Idempotency.IdempotencyStore.ConsumeFailIfOwner` | internal/broker/idempotency.go:564-641 | Fails the key only for the owner of a running lease, logged first |
| `Idempotency.IdempotencyStore.ConsumeCheck` | internal/broker/idempotency.go:643-664 | A lookup evicts and then reads |
| `Idempotency.IdempotencyStore.Restart` | internal/broker/wal_replay.go:145-201 | Replay restores committed and failed keys, drops pending ones and agrees with the live committed keys |
| `Idempotency.GrantedExactly` | internal/broker/idempotency.go:282-403 | A lease is granted if and only if the work is not committed and no other owner's lease runs, so also for a failed key, after a lease has run out, and to the holder again; each refusal exactly when; what is then held and logged |
| `Idempotency.HolderExactly` | internal/broker/idempotency.go:405-641 | Renewing, committing and failing succeed if and only if the caller's lease runs and the log accepts (committing also if the work is done), and what they make of the key and log |
| `Idempotency.BeginExactly` | internal/broker/idempotency.go:87-148 | A keyed produce passes if and only if its key is unknown, failed, or older than the time-to-live |
| `Idempotency.OthersStay` | internal/broker/idempotency.go:175-202 | An operation leaves every other key alone, or forgets it if it is stale: unchanged for the time-to-live, and no committed or leased consume key |
| `Idempotency.RestoredExactly` | internal/broker/wal_replay.go:145-201 | A restart gives back, for every key, what its last commit or failure on record says, and no other key |
| `Idempotency.CommittedStays` | internal/broker/idempotency.go:175-202 | No operation and no eviction changes a committed consume key |
| `Idempotency.CommitIsLogged` | internal/broker/idempotency.go:505-562 | A key becomes committed exactly with a logged commit |
| `Idempotency.CommittedForever` | internal/broker/idempotency.go:334-386 | No run of operations, evictions and restarts changes a committed key's status or result |
| `Idempotency.CommittedLoggedOnce` | internal/broker/idempotency.go:505-562 | At most one committed record per key is ever logged |
| `Idempotency.GrantHolds` | internal/broker/idempotency.go:282-479 | A grant holds the key for its owner until the stated time |
| `Idempotency.LeaseExcludes` | internal/broker/idempotency.go:282-641 | Until then nobody else is granted the key, commits it or fails it, over any operations except a successful one of the holder, and eviction spares it |
| `ProduceGate.CallsNeverOverlap` | internal/broker/broker.go:838-869 | If every keyed produce ends within the time-to-live of its Begin, calls that pass the gate never overlap and the next after a success begins more than the time-to-live later |
| `ProduceGate.GateOpensExactly` | internal/broker/idempotency.go:87-122 | A second call passes exactly when the first has been inside for longer than the time-to-live |
| `Delivery.StepKeepsInv` | internal/broker/dispatch.go:46-322 | Every step keeps: offsets are indices, sums are prefix sums, the stretch from the cursor's start to the cursor splits into in flight and gone, attempts stay within the limit |
| `BrokerRuns.RunInv` | internal/broker/broker.go:973-1024 | All invariants hold in every state of every run with crashes anywhere |
| `BrokerRuns.DeliveryTheorem` | internal/broker/dispatch.go:46-322 | Within a process the cursor never moves back, each offset is first-delivered at most once and in increasing order, and is then exactly one of in flight or gone; entries lie below the cursor and within maxInFlight |
| `BrokerRuns.CrashPointTheorem` | internal/broker/wal_replay.go:25-237 | At every crash point replay reports no offset mismatch and gives every message of every partition with all it says, field by field, all partitions of every logged topic, committed offsets no higher than the live ones, exactly the committed consume keys, and no old error at or below a committed offset |
| `BrokerRuns.OffsetTheorem` | internal/broker/broker.go:210-288 | The committed offset is the greatest of the logged, pending and taken ones; with nothing pending or taken replay gives exactly the live offset |
| `BrokerRuns.CommittedPersists` | internal/broker/idempotency.go:334-386 | A committed consume key keeps its result over any steps and restarts of the broker |
| `BrokerRuns.CommittedOnce` | internal/broker/idempotency.go:505-562 | The broker's log never holds a record of a key after its commit |
| `BrokerRuns.CommittedNeverSentAgain` | internal/broker/dispatch.go:76-105 | Once its key is committed for a group, no message with that key is queued to that group again, before or after any restarts |
| `BrokerRuns.ReproducedIsRefused` | internal/broker/wal_replay.go:93-97 | After a restart at any point, a keyed produce that repeats a message of the log is refused as already done until the time-to-live has passed since the restart, and granted from then on |
| `BrokerRuns.BuryTheorem` | internal/broker/redelivery.go:138-195 | Dead-lettering happens at exactly the retry limit of the message's envelope and appends exactly one record to `dlq.` and the topic's name, with key, value, tenant, idempotency key, labels, run and step of the message, its origin, the attempts made, the last error and the time, and without a retry policy, also after replay |
| `BrokerRuns.DeadLettersStay` | internal/broker/dlq.go:48-66 | A message that was appended by a dead-lettering is never the subject of one at any later move, restarts included |
| `BrokerRuns.SpacingTheorem` | internal/broker/redelivery.go:77-117 | Without a negative acknowledgement in between, the delivery after a redelivery comes at least the lease of the owner's latest stream and the backoff of that retry later |
| `BrokerRuns.LogTheorem` | internal/broker/helper.go:28-76 | In every reachable state offsets are indices and sums are prefix sums, so all the counts agree |
| `BrokerRuns.ProduceTheorem` | internal/broker/broker.go:1503-1543 | An accepted produce leaves at most maxPartitionMsgs messages and fewer than maxPartitionBytes bytes after the slowest acknowledgement |
| `BrokerState.LeaseIsLatest` | internal/broker/redelivery.go:48-62 | Every owner has exactly one lease: its latest stream's if positive, else the default, which also holds without a stream |
| `BrokerState.NackLeaseIsFirsts` | internal/broker/broker.go:1417-1428 | The lease a negative acknowledgement reckons with is that of the owner's first leasing stream, or the default |
| `History.SameWork` | internal/broker/dispatch.go:76-105 | Two messages have one consume key if and only if topic, group, and tenant and idempotency key of their envelopes agree |
| `History.OthersWork` | internal/broker/dispatch.go:76-105 | An operation on another tenant's, topic's, group's or message's key does not change whether a message's work is done |
| `History.CommittedWasDone` | internal/broker/idempotency.go:481-562 | In every reachable state a committed consume key was committed by the holder of its running lease at some earlier move, across restarts |
| `History.SkippedWasDone` | internal/broker/dispatch.go:76-105 | Dispatch skips a message, and redelivery settles one, only if it has an idempotency key and the work of that very tenant, topic, group and key was so committed before |
| `History.NackExpires` | internal/broker/broker.go:1417-1434 | After a negative acknowledgement the entry is due at once if and only if its owner's latest lease is at most a millisecond longer than its first leasing stream's |
| `History.OneLease` | internal/broker/broker.go:1417-1434 | If all streams of the owner have one lease, the two are the same |
| `History.ErrorStays` | internal/broker/redelivery.go:83-101 | An error that was noted and logged is remembered while its message lies above the committed offset, across restarts, until another is noted for it |
| `History.SentWithError` | internal/broker/dispatch.go:245-308 | The entry of a message that dispatch sends carries the error that is remembered |
| `History.AcknowledgedCounts` | internal/broker/helper.go:78-104 | In every reachable state each group with a committed offset counts for the slowest acknowledgement |
| `Watermark.WatermarkTheorem` | internal/broker/broker.go:1113-1194 | With leasing consumers, plain messages and dead letters, cumulative acknowledgements and single ones of the next offset, under any interleaving of owners, redeliveries, flushes and crashes, the in-flight offsets are exactly those strictly between the committed offset and the cursor |
| `Watermark.AcknowledgedTheorem` | internal/broker/broker.go:1113-1194 | In every reachable state each offset at or below the committed one was in flight and acknowledged, singly or by a cumulative call, at some earlier move, across any crashes |
| `Watermark.NothingSkippedTheorem` | internal/broker/dispatch.go:53-69 | So after a crash anywhere every message below the new cursor had been in flight and acknowledged at some earlier move, and everything that was in flight is at or above it: nothing is skipped |
| `Watermark.ContinueKeepsGood` | internal/broker/broker.go:1187-1191 | Each acknowledgement of a cumulative call hits exactly the offset after the committed one |
| `Watermark.AckKeepsMark` | internal/broker/broker.go:995-1021 | An acknowledgement keeps that if and only if the offset is settled already, or is the next one and in flight |
| `Watermark.LeaveKeepsMark` | internal/broker/redelivery.go:190-194 | So does an entry that leaves for the dead-letter topic or as done |
| `WatermarkCalls.CumulativeExtends` | internal/broker/broker.go:1113-1194 | A cumulative call whose check succeeded, with any allowed calls in between, is a stretch of the watermark machine: it begins, continues once for each offset, and ends, whether it acknowledges everything or gives up |
| `WatermarkCalls.StepsExtend` | internal/broker/broker.go:973-1024 | Any other call whose steps are allowed is a stretch of that machine |
| `Counterexamples.SingleAckSkips` | internal/broker/broker.go:995-1021 | Two messages in flight, the second acknowledged, flush, crash: the new cursor starts above the first, which nobody acknowledged |
| `Counterexamples.FailedPutIsLost` | internal/engine/store_file.go:618-639 | A new store whose log refuses, a `PutKV`, and a restart: the pair the store held is gone |
| `Counterexamples.FailedPutState` | internal/engine/store_file.go:618-639 | The state in between is one that a valid store can be in: the pair is in memory, and the log does not hold it |
| `Counterexamples.EmptyDlqVanishes` | internal/broker/dlq.go:26-36 | A dead-letter topic with three empty partitions is gone after a restart; its source topic has all three |
| `Counterexamples.NackMayWait` | internal/broker/broker.go:1417-1434 | An owner with leases of 1 and 30 seconds: after a negative acknowledgement its entry is not due |
| `Counterexamples.TimerKeysClash` | internal/engine/memstore.go:314-316 | Two attempts of different runs and nodes with one timer key |
| `WalReplay.Replay` | internal/broker/wal_replay.go:25-237 | The replay loop with its final purge rebuilds exactly the state the log stands for, or fails exactly on an unexpected offset |
| `WalReplay.StepAgrees` | internal/broker/broker.go:1545-1611 | Every step keeps the agreement between log and memory |
| `WalReplay.RestartAgrees` | internal/broker/wal_replay.go:25-237 | A restart is faithful, partition counts of logged topics included, and leaves a broker that satisfies all invariants again |
| `WalReplay.RestartRows` | internal/broker/wal_replay.go:30-77 | After a restart a logged topic has exactly its partitions; an unlogged one has as many as one more than its highest partition in use, and is gone if none is |
| `WalReplay.StepKeepsRows` | internal/broker/broker.go:644-670 | A record of a creation always tells the live number of partitions |
| `WalReplay.ProduceKeysRestored` | internal/broker/wal_replay.go:93-97 | Replay leaves the produce key of every keyed message in the log committed, stamped with the time of the replay |
| `WalReplay.RefusedExactly` | internal/broker/wal_replay.go:66-77 | Replay refuses a further record if and only if it is a message whose offset is not the next one of its partition |
| `Calls.CallsExtendRuns` | internal/broker/broker.go:973-1024 | A run of the machine goes on with the steps of any call, so its theorems hold of histories of calls |
| `Calls.TakesKeepsInv` | internal/broker/broker.go:973-1024 | Calls keep all invariants |
| `Calls.TakesForward` | internal/broker/dispatch.go:46-322 | Within a call nothing is taken back: committed offset, cursor, what was sent, what has gone |
| `CallFacts.FirstAfter` | internal/broker/dispatch.go:64-68 | The loop that starts the cursor stops right after the committed offset |
| `CallFacts.OwnerLeases` | internal/broker/redelivery.go:48-62 | The table of leases answers, for every owner, with its latest stream's lease if positive, else with the default, and with the default for everybody else |
| `CallFacts.FirstLease` | internal/broker/broker.go:1417-1428 | The lease of the owner's first leasing stream, or the default |
| `CallFacts.ErrorsJoin` | internal/broker/helper.go:106-118 | A noted error keeps the older text in front of the new one |
| `CallFacts.TurnSpares` | internal/broker/redelivery.go:70-311 | An entry's turn, with all the dispatching and dead-lettering it causes, changes no other entry's timer and brings nothing back that has gone |
| `CallFacts.UndoRestores` | internal/broker/dispatch.go:310-317 | Taking an entry out again after a full queue restores the state before the delivery |
| `Broker.InMemoryBroker.InitCursor` | internal/broker/dispatch.go:53-69 | The cursor starts at the first message after the committed offset, or at the end of the log: every message from it on lies above the committed offset, none below it does |
| `Broker.InMemoryBroker.PickLeased` | internal/broker/dispatch.go:145-181 | The consumer found holds the key's lease; if none is found, every leasing consumer was asked and the work is leased to somebody who is none of them, and a fallback is a simple stream; the search is given up only if the log refuses or a stream asks for a lease the store does not give; whether the work is done does not change |
| `Broker.InMemoryBroker.DeliverLeased` | internal/broker/dispatch.go:280-317 | Sent to that stream, or the in-flight limit is reached, or a queue was full and nothing has changed |
| `Broker.InMemoryBroker.DispatchSlot` | internal/broker/dispatch.go:71-318 | Only dispatch steps of this slot; it ends with everything delivered, or at the in-flight limit, or before a keyed message whose work is leased to somebody who is none of the consumers (or the store refused), or because a queue was full |
| `Broker.InMemoryBroker.DispatchHead` | internal/broker/dispatch.go:107-318 | Plain messages go to the streams of the group in turn; a keyed one is skipped if done, else leased to the consumer it is sent to |
| `Broker.InMemoryBroker.Dispatch` | internal/broker/dispatch.go:18-322 | For all groups and partitions asked for, in any order of groups: unless a queue was full, every one of their slots is at rest, keyed messages having been offered to every consumer of their group |
| `Broker.InMemoryBroker.SlowestAck` | internal/broker/helper.go:78-104 | The least committed offset over the groups with an offset map, or -1 without any |
| `Broker.InMemoryBroker.Admission` | internal/broker/broker.go:1478-1543 | Which partition, and that a message that can be placed is admitted if and only if the partition has room after the least committed offset; which refusal comes when |
| `Broker.InMemoryBroker.ProduceLocked` | internal/broker/broker.go:1477-1617 | Refusal changes nothing and comes exactly when the message cannot be placed or has no room, or the log refuses; otherwise the log grows by the message itself at its offset, no other partition changes, and dispatch of that partition follows and comes to rest unless a queue was full |
| `Broker.InMemoryBroker.AckLocked` | internal/broker/broker.go:973-1024 | The acknowledgement step and then dispatch of the partition, which comes to rest unless a queue was full; the committed offset is then at least this one |
| `Broker.InMemoryBroker.Ack` | internal/broker/broker.go:948-971 | Succeeds exactly for a named topic and group, an existing partition and a non-negative offset; then the committed offset is at least that, and the partition has been dispatched |
| `Broker.InMemoryBroker.AckIfOwner` | internal/broker/broker.go:1026-1111 | Only the owner of an entry in flight acknowledges, and for a plain message always can; for a keyed one it can if its lease runs and the log does not refuse, or the work is done; other calls may come between commit and acknowledgement, and on success the key is then committed, or the store did not know it; on error no offset moves |
| `Broker.InMemoryBroker.AckCumulativeIfOwner` | internal/broker/broker.go:1113-1194 | Succeeds if the offset is committed already, else only if the owner has the whole range in flight at the check, and otherwise changes nothing; acknowledges one offset after the other, each owned at its turn, with any other calls in between, and stops only where one is not owned or keyed; alone, and on plain messages, it always succeeds |
| `Broker.InMemoryBroker.RedeliverEntry` | internal/broker/redelivery.go:70-311 | Not due exactly while the lease of its owner's latest stream runs, waiting exactly while its backoff does; else settled (exactly when its key is committed), buried at its envelope's limit, kept if the dead letter cannot be published, left if its work is leased to somebody who is none of the consumers (or the store refused), or resent with one more attempt, the new owner and the backoff of its envelope |
| `Broker.InMemoryBroker.RedeliverExpired` | internal/broker/redelivery.go:28-311 | Every entry that was in flight is handled: not due, it keeps its timer; due and plain, it is resent once with one more attempt, or dead-lettered at its limit unless the publication fails |
| `Broker.InMemoryBroker.PublishDead` | internal/broker/dlq.go:14-67 | The entry goes only with the publication; on error nothing has changed, and an error comes only from the log, the caps or a topic without partitions |
| `Broker.InMemoryBroker.Nack` | internal/broker/broker.go:1301-1440 | Only the owner's, and then it fails only if the log refuses; the error is noted and logged and a keyed message's lease given up, then the entry is made due, and then a redelivery tick handles every entry in flight, not before that time; after a failed append the entry and its key are as before |
| `Broker.InMemoryBroker.FlushPendingOffsets` | internal/broker/broker.go:227-288 | With any other calls between its phases: offsets never move back, and unless the log refuses a replay gives at least the offsets that were committed when the flush began, and exactly the live ones if nobody else came in |
| `Broker.InMemoryBroker.Consume` | internal/broker/broker.go:1619-1696 | The new stream has the trimmed owner and the lease asked for, or the default; it takes part in the dispatch that follows, other calls possibly coming in between; unless a queue is full the group then has all it can have, keyed messages having been offered to every consumer |
| `Broker.InMemoryBroker.RemoveStream` | internal/broker/broker.go:1657-1686 | When a consumer goes, exactly its stream goes, and the group with its last one |
| `Broker.InMemoryBroker.CreateTopic` | internal/broker/broker.go:630-676 | A valid new topic gets exactly its empty partitions and is refused only if the log refuses, which takes it back; which error comes when |
| `Broker.FromWal` | internal/broker/wal_replay.go:12-237 | On the log of any valid broker it succeeds, and the new broker is valid and agrees with the old one, every message field by field, partition counts of logged topics included |

## Left out

- HTTP handlers, command line, user interface, metrics and tracing: plumbing over libraries.
- JSON encoding, files, fsync and scanner limits: records are values, the log is a sequence, an append happens wholly or not at all.
- Brain routing, memory vectors, risk heuristics, releases, evaluations, human tasks, side effects, forensics, agent state: shallow transitions or no invariant.
- A broker without a log (`wal == nil`): the same code with the appends skipped.
- The router hook, deadlines, the topic mode, label routing and the choice of `pickPartition`: the hash of a key is an arbitrary number.
- Goroutines, tickers, channels as such: steps in any order, queues that may be full at any time.
- Two offset flushes side by side: only the flush loop flushes, and `Close` waits for its end.
- The per-message `Attempts` and `LastError` copies inside an in-flight entry's message: the entry's own fields hold them, and the message that is sent carries those.
- The consumer helper's `MarkSuccess` and `MarkFailure` on a produce key (internal/broker/idempotency.go:266-280): a `MarkFailure` while a keyed produce is inside opens the gate early; `ProduceGate` is about produces alone.
- Consume keys with an empty topic or group: replay skips such records, and no broker call makes one.
- Go's rule that entries added to a map during iteration may be visited: a redelivery tick visits the entries that were in flight when it reached the slot.
- Cancellation as a final status of a run and canceling timers on invalidation: the runner writes its own copy of the run back, and timers play no part in the results.
- How concurrency caps, the wall clock and token budgets are counted: whether they bite is an input at each moment.
- How human tasks are kept and resolved: whether one is open, and what it answers, is an input.
- No loss across a restart for acknowledgements out of order, dead-lettering or groups that mix simple and leasing consumers: it is false (`SingleAckSkips`).
- Broker.InMemoryBroker.PublishDead: takes the entry out of flight before the dead letter is dispatched, the source after; both happen under one lock and touch different slots.
