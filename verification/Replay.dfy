/** A stored run over many scheduling calls: RunDAG (internal/engine/runner_dag.go), ReplayFrom
    (internal/engine/replay.go) and suffix invalidation (internal/engine/replay_helpers.go). */
module Replay {
  import opened Common
  import opened Graph
  import opened Dag
  import opened Semantics
  import opened Runner
  import Glob

  datatype ReplayMode = Live | TimeTravel

  /** History is kept: an old record is unchanged or was only marked canceled. */
  ghost predicate HistoryKept(before: Records, after: Records) {
    forall k :: k in before ==>
      k in after && (after[k] == before[k] || after[k] == before[k].(status := NodeCanceled))
  }

  /** Records that were not there before carry the next number after the recorded ones. */
  ghost predicate NewAttemptsNext(before: Records, after: Records) {
    forall k :: k in after && k !in before ==> IsNext(before, k)
  }

  /** Some attempts of these nodes were marked canceled, nothing else changed. */
  ghost predicate MarkedOnly(before: Records, after: Records, nodes: set<NodeId>) {
    && after.Keys == before.Keys
    && forall k :: k in before ==>
      after[k] == before[k] || (k.node in nodes && after[k] == before[k].(status := NodeCanceled))
  }

  /** Invalidation: exactly the attempts of these nodes are marked canceled. */
  ghost predicate Invalidated(before: Records, after: Records, nodes: set<NodeId>) {
    && after.Keys == before.Keys
    && forall k :: k in before ==>
      after[k] == if k.node in nodes then before[k].(status := NodeCanceled) else before[k]
  }

  /** A cache built from faithful records is faithful. */
  lemma CacheIsFaithful(spec: Spec, records: Records, cache: Cache)
    requires Faithful(spec, records)
    requires forall n :: n in cache ==> IsLatest(records, records.Keys, n, cache[n].attempt, cache[n].output)
    ensures FaithfulCache(spec, Some(cache))
  {
    if Sound(spec.g) && spec.handlers.Some? {
      forall n | n in cache
        ensures cache[n].output == Meaning(spec.g, spec.handlers.value, spec.initial, n)
      {
        assert Succeeded(records, Attempt(n, cache[n].attempt));
      }
    }
  }

  /** So is the part of it that a replay branch uses. */
  lemma BranchCacheIsFaithful(spec: Spec, entries: Cache, suffix: set<NodeId>, includeFromStep: bool, fromStep: NodeId)
    requires FaithfulCache(spec, Some(entries))
    ensures FaithfulCache(spec, ReplayBranchCache(entries, suffix, includeFromStep, fromStep))
  {
    var out := ReplayBranchCache(entries, suffix, includeFromStep, fromStep);
    if out.Some? {
      assert forall n :: n in out.value ==> n in entries && out.value[n] == entries[n];
    }
  }

  /** buildReplayBranchCache. */
  method BuildReplayBranchCache(spec: Spec, source: Records, fromStep: NodeId, mode: ReplayMode)
      returns (cache: Option<Cache>, ok: bool)
    requires Faithful(spec, source)
    ensures FaithfulCache(spec, cache)
    ensures !ok <==> Glob.TrimSpace(fromStep) != "" && Glob.TrimSpace(fromStep) !in spec.g.nodes
    ensures mode == Live && Glob.TrimSpace(fromStep) == "" ==> cache.None?
    ensures ok && (mode == TimeTravel || Glob.TrimSpace(fromStep) != "") ==>
              BranchEntries(spec.g, source, fromStep, mode, if cache.Some? then cache.value else map[])
  {
    hide Faithful, Meaning, IsLatest, HasSucceeded, Reaches;
    var step := Glob.TrimSpace(fromStep);
    EmptyIsFaithful(spec);
    if mode == Live && step == "" {
      return None, true;
    }
    var built := BuildReplayCache(source);
    CacheIsFaithful(spec, source, built);
    BuiltHasOutputs(source, built);
    if step == "" {
      return Some(built), true;
    }
    if step !in spec.g.nodes {
      return None, false;
    }
    var suffix := DownstreamNodes(spec.g, step);
    var includeFromStep := mode == TimeTravel && HasSucceeded(source, step);
    BranchCacheIsFaithful(spec, built, suffix, includeFromStep, step);
    cache, ok := ReplayBranchCache(built, suffix, includeFromStep, step), true;
    OutputMeansSuccess(source, step);
  }

  /** The node has a success on record with an output. */
  ghost predicate HasOutput(records: Records, n: NodeId) {
    exists k :: k in records && k.node == n && Carries(records, k)
  }

  lemma BuiltHasOutputs(source: Records, built: Cache)
    requires forall n :: n in built ==> IsLatest(source, source.Keys, n, built[n].attempt, built[n].output)
    requires forall k :: k in source && Carries(source, k) ==> k.node in built
    ensures forall n :: n in built <==> HasOutput(source, n)
  {
    forall n | n in built
      ensures HasOutput(source, n)
    {
      assert Carries(source, Attempt(n, built[n].attempt));
    }
  }

  lemma OutputMeansSuccess(records: Records, n: NodeId)
    ensures HasOutput(records, n) ==> HasSucceeded(records, n)
  {
  }

  /** Exactly the latest outputs of the nodes a branch takes over: all without a step; with one,
      those not downstream of it, and in time travel the step itself. */
  ghost predicate BranchEntries(g: Workflow, source: Records, fromStep: NodeId, mode: ReplayMode, entries: Cache) {
    var step := Glob.TrimSpace(fromStep);
    && (forall n :: n in entries <==>
                    HasOutput(source, n)
                    && (step == "" || !Reaches(g, step, n) || (mode == TimeTravel && n == step)))
    && (forall n :: n in entries ==> IsLatest(source, source.Keys, n, entries[n].attempt, entries[n].output))
  }

  lemma EmptyIsFaithful(spec: Spec)
    ensures FaithfulCache(spec, None)
  {
  }

  /** Validate accepts the graph. */
  ghost predicate Workable(g: Workflow) {
    Sound(g) && "" !in g.nodes
  }

  /** A run in this state is scheduled when it is called. */
  predicate Unsettled(status: RunStatus) {
    status != RunSucceeded && status != RunCanceled
  }

  /** Nobody interferes, nothing fails, every answer is an output, and there is no limit. */
  ghost predicate Smooth(spec: Spec, cache: Option<Cache>, w: Surroundings, limit: nat) {
    && Calm(w) && Uninterrupted(spec, cache, w) && limit == 0
    && (forall t :: !w.spent(t))
    && (forall k :: w.reply(k).Output? && !w.pending(k))
  }

  /** Why a call that scheduled nodes ended as it did. */
  ghost predicate Reasoned(spec: Spec, cache: Option<Cache>, w: Surroundings, limit: nat, before: Records,
                           after: Records, status: RunStatus, outcome: Outcome, started: set<NodeId>)
  {
    && (NewlySo(before, after, NodeFailed) ==> outcome == Failed)
    && (NewlySo(before, after, NodeWaiting) ==> outcome == Failed || outcome == Canceled || outcome == Waiting)
    && match outcome
       case Failed =>
         && AskedForError(spec, cache, w, before, started)
         && (Reliable(w) ==> NewlySo(before, after, NodeFailed))
         && (status == RunFailed || (status == RunWaiting && AskedForDelay(spec, cache, w, before, started)))
       case Waiting =>
         && AskedForDelay(spec, cache, w, before, started)
         && (status == RunWaiting || (status == RunFailed && Overdrawn(w, before, started, limit)))
       case OverBudget => Overdrawn(w, before, started, limit) && status == RunFailed
       case Canceled => exists t :: w.canceled(t)
       case _ => true
  }

  /** How a call ends, and why: the run's status after it, and what its new records say. */
  ghost predicate Explained(spec: Spec, cache: Option<Cache>, w: Surroundings, limit: nat, before: Records,
                            status: RunStatus, after: Records, status': RunStatus, outcome: Outcome,
                            started: set<NodeId>)
  {
    && (outcome == Invalid <==> !Workable(spec.g))
    && (outcome == AlreadySucceeded <==> Workable(spec.g) && status == RunSucceeded)
    && (outcome == Interrupted ==> !Uninterrupted(spec, cache, w))
    && (outcome == Finished || outcome == AlreadySucceeded ==> status' == RunSucceeded)
    && (status' == RunSucceeded && status != RunSucceeded ==> outcome == Finished)
    && (Reasoned(spec, cache, w, limit, before, after, status', outcome, started)
        || outcome == Interrupted || (status == RunCanceled && outcome == Canceled))
  }

  /** Nodes a replay does again: those downstream of its step, or all of them in a live replay
      without a step; a time-travel replay keeps the step itself if it has succeeded. */
  ghost predicate ToRedo(g: Workflow, records: Records, fromStep: NodeId, mode: ReplayMode, n: NodeId) {
    var step := Glob.TrimSpace(fromStep);
    if step == "" then mode == Live && n in g.nodes
    else step in g.nodes && Reaches(g, step, n) && !(mode == TimeTravel && n == step && HasSucceeded(records, step))
  }

  /** The old attempts of those nodes are marked canceled, and all others are as they were. */
  ghost predicate Redone(g: Workflow, before: Records, after: Records, fromStep: NodeId, mode: ReplayMode) {
    forall k :: k in before ==>
      k in after
      && after[k] == if ToRedo(g, before, fromStep, mode, k.node) then before[k].(status := NodeCanceled) else before[k]
  }

  /** The node has a new attempt, the next after the old ones, and it succeeded. */
  ghost predicate SucceedsAnew(before: Records, after: Records, n: NodeId) {
    exists k :: k in after && k !in before && k.node == n && IsNext(before, k) && Succeeded(after, k)
  }

  /** The nodes to be done again; none if the step is unknown. */
  method Suffix(g: Workflow, records: Records, fromStep: NodeId, mode: ReplayMode) returns (suffix: Option<set<NodeId>>)
    ensures suffix.None? <==> Glob.TrimSpace(fromStep) != "" && Glob.TrimSpace(fromStep) !in g.nodes
    ensures suffix.Some? ==> forall n :: n in suffix.value <==> ToRedo(g, records, fromStep, mode, n)
  {
    var step := Glob.TrimSpace(fromStep);
    if step == "" {
      return Some(if mode == Live then Elements(g.nodes) else {});
    }
    if step !in g.nodes {
      return None;
    }
    var downstream := DownstreamNodes(g, step);
    if mode == TimeTravel && HasSucceeded(records, step) {
      downstream := downstream - {step};
    }
    return Some(downstream);
  }

  class WorkflowRun {
    const spec: Spec
    const maxParallel: int
    var records: Records
    var status: RunStatus

    constructor (spec: Spec, maxParallel: int)
      requires NonEmpty(spec)
      ensures this.spec == spec && records == map[] && status == RunQueued && Valid()
    {
      this.spec, this.maxParallel := spec, maxParallel;
      records, status := map[], RunQueued;
    }

    /** The determinism theorem as an invariant of the stored run: whatever calls were made,
        every succeeded record holds the recursive evaluation of its node. */
    ghost predicate Valid()
      reads this
    {
      NonEmpty(spec) && Faithful(spec, records)
    }

    /** One scheduling call, resumed from the records, with any cache taken from a run of the
        same workflow; the process may die in it.  How it ends, and why, is `Explained`; in smooth
        surroundings it marks the run succeeded.  A run marked succeeded has every node done if
        and only if nothing was left queued or lost, and in calm surroundings nothing is. */
    method RunDag(cache: Option<Cache>, limit: nat, w: Surroundings)
      returns (outcome: Outcome, started: set<NodeId>, queued: set<NodeId>, lost: set<NodeId>)
      requires Valid() && FaithfulCache(spec, cache)
      modifies this
      ensures Valid() && CallEffect(spec, old(records), records, started, limit)
      ensures RecordsTell(spec, cache, w, limit, old(records), records)
      ensures Explained(spec, cache, w, limit, old(records), old(status), records, status, outcome, started)
      ensures Workable(spec.g) && (old(status) == RunCanceled || forall t :: w.canceled(t)) ==>
                outcome == if old(status) == RunSucceeded then AlreadySucceeded else Canceled
      ensures (outcome == Invalid || outcome == AlreadySucceeded || old(status) == RunCanceled
               || forall t :: w.canceled(t)) ==>
                started == {} && records == old(records) && status == old(status)
      ensures (forall t :: w.spent(t)) ==> started == {}
      ensures Workable(spec.g) && Smooth(spec, cache, w, limit) && Unsettled(old(status)) ==> outcome == Finished
      ensures outcome == Finished ==>
                ((forall n :: n in spec.g.nodes ==> HasSucceeded(records, n)) <==> queued == {} && lost == {})
      ensures outcome == Finished && Calm(w) ==> queued == {} && lost == {}
    {
      hide Faithful, FaithfulCache, NonEmpty, CallEffect, CallInv, Cyclic, WellFormed, Calm, HasSucceeded;
      hide Tells, Uninterrupted, RecordsTell;
      started, queued, lost := {}, {}, {};
      NoEffect(spec, cache, w, records, limit);
      var err := Validate(spec.g);
      if err.Some? {
        return Invalid, started, queued, lost;
      }
      if status == RunSucceeded {
        return AlreadySucceeded, started, queued, lost;
      }
      var moment: int, later: int := *, *;
      SmoothRuns(spec, cache, w, limit);
      if status == RunCanceled || w.canceled(moment) {
        return Canceled, started, queued, lost;
      }
      var writing: int, finishing: int := *, *;
      if w.failing(writing) {
        return Interrupted, started, queued, lost;
      }
      var c := Begin(spec, records, limit);
      var ok;
      var after;
      c, after, ok := ScheduleAll(spec, c, records, cache, maxParallel, w);
      CallIsValid(spec, c, after);
      CallHasEffect(spec, c, after);
      CallTells(spec, cache, w, c, after);
      records, started, queued, lost := after, c.started, Elements(c.ready), c.started - c.done;
      status := c.status;
      if !ok {
        return Interrupted, started, queued, lost;
      }
      outcome := Ending(c, w.canceled(later));
      EndExplained(spec, cache, w, c, after, w.canceled(later));
      if outcome == Finished {
        EndOfCall(spec, c, after);
        if w.failing(finishing) {
          return Interrupted, started, queued, lost;
        }
        status := RunSucceeded;
      }
    }

    /** invalidateNodesAndTimers, for the node records: all of them, or only some when the
        store fails. */
    method Invalidate(nodes: set<NodeId>, w: Surroundings) returns (ok: bool)
      requires Valid()
      modifies this`records
      ensures Valid()
      ensures ok ==> Invalidated(old(records), records, nodes)
      ensures !ok ==> exists t :: w.failing(t)
      ensures MarkedOnly(old(records), records, nodes)
    {
      ghost var before := records;
      var list := records.Keys;
      while list != {}
        invariant list <= before.Keys && MarkedOnly(before, records, nodes)
        invariant forall k :: k in before.Keys - list && k.node in nodes ==> records[k].status == NodeCanceled
        decreases |list|
      {
        var k :| k in list;
        var ne := records[k];
        list := list - {k};
        if k.node in nodes && ne.status != NodeCanceled {
          var moment: int := *;
          if w.failing(moment) {
            MarkedIsFaithful(spec, before, records, nodes);
            return false;
          }
          records := records[k := ne.(status := NodeCanceled)];
        }
      }
      MarkedIsFaithful(spec, before, records, nodes);
      var later: int := *;
      return !w.failing(later);  // the timers of these nodes are canceled too
    }

    /** ReplayFrom.  Exactly the attempts of the nodes to be redone are marked canceled; a call
        that marks the run succeeded has done each of them again; only they and nodes without a
        success run, and in live mode every new success is an answer given to this attempt. */
    method ReplayFrom(fromStep: NodeId, mode: ReplayMode, limit: nat, w: Surroundings)
      returns (outcome: Option<Outcome>, started: set<NodeId>)
      requires Valid()
      modifies this
      ensures Valid()
      ensures HistoryKept(old(records), records) && NewAttemptsNext(old(records), records)
      ensures forall k :: k in old(records) && records[k] != old(records)[k] ==>
                ToRedo(spec.g, old(records), fromStep, mode, k.node)
      ensures outcome.Some? ==> Redone(spec.g, old(records), records, fromStep, mode)
      ensures forall n :: n in started ==>
                ToRedo(spec.g, old(records), fromStep, mode, n) || !HasSucceeded(old(records), n)
      ensures outcome == Some(Finished) && Calm(w) ==>
                forall n :: n in spec.g.nodes && ToRedo(spec.g, old(records), fromStep, mode, n) ==>
                  SucceedsAnew(old(records), records, n)
      ensures mode == Live ==> RecordsTell(spec, None, w, limit, old(records), records)
      ensures outcome.None? ==>
                (Glob.TrimSpace(fromStep) != "" && Glob.TrimSpace(fromStep) !in spec.g.nodes)
                || exists t :: w.failing(t)
      ensures Glob.TrimSpace(fromStep) != "" && Glob.TrimSpace(fromStep) !in spec.g.nodes ==>
                outcome.None? && records == old(records) && status == old(status)
      ensures outcome == Some(AlreadySucceeded) ==>
                Workable(spec.g) && old(status) == RunSucceeded
                && ((mode == TimeTravel && Glob.TrimSpace(fromStep) == "") || exists t :: w.failing(t))
      ensures outcome.Some? && Workable(spec.g) && old(status) == RunCanceled ==> outcome == Some(Canceled)
      ensures outcome.Some? && Workable(spec.g) && Smooth(spec, None, w, limit) ==>
                outcome == Some(if old(status) == RunCanceled then Canceled
                                else if old(status) == RunSucceeded && mode == TimeTravel
                                        && Glob.TrimSpace(fromStep) == "" then AlreadySucceeded
                                else Finished)
    {
      hide ToRedo, RecordsTell, Smooth, Faithful, NonEmpty, Calm, HasSucceeded, IsNext, Workable;
      var plan := Suffix(spec.g, records, fromStep, mode);
      NothingNew(spec, w, limit, records, records);
      if plan.None? {
        return None, {};
      }
      outcome, started := Redo(plan.value, Glob.TrimSpace(fromStep), mode, limit, w);
    }

    /** The rest of ReplayFrom, with the nodes that are to be done again. */
    method Redo(suffix: set<NodeId>, step: NodeId, mode: ReplayMode, limit: nat, w: Surroundings)
      returns (outcome: Option<Outcome>, started: set<NodeId>)
      requires Valid()
      modifies this
      ensures Valid()
      ensures HistoryKept(old(records), records) && NewAttemptsNext(old(records), records)
      ensures forall k :: k in old(records) && records[k] != old(records)[k] ==> k.node in suffix
      ensures outcome.Some? ==> forall k :: k in old(records) ==>
                k in records
                && records[k] == if k.node in suffix then old(records)[k].(status := NodeCanceled) else old(records)[k]
      ensures forall n :: n in started ==> n in suffix || !HasSucceeded(old(records), n)
      ensures outcome == Some(Finished) && Calm(w) ==>
                forall n :: n in spec.g.nodes && n in suffix ==> SucceedsAnew(old(records), records, n)
      ensures mode == Live ==> RecordsTell(spec, None, w, limit, old(records), records)
      ensures outcome.None? ==> exists t :: w.failing(t)
      ensures outcome == Some(AlreadySucceeded) ==>
                Workable(spec.g) && old(status) == RunSucceeded
                && ((mode == TimeTravel && step == "") || exists t :: w.failing(t))
      ensures outcome.Some? && Workable(spec.g) && old(status) == RunCanceled ==> outcome == Some(Canceled)
      ensures outcome.Some? && Workable(spec.g) && Smooth(spec, None, w, limit) ==>
                outcome == Some(if old(status) == RunCanceled then Canceled
                                else if old(status) == RunSucceeded && mode == TimeTravel && step == ""
                                then AlreadySucceeded
                                else Finished)
    {
      hide RecordsTell, Smooth, Reasoned, Faithful, FaithfulCache, NonEmpty, Workable;
      hide CallEffect, Calm, HasSucceeded, IsNext;
      started := {};
      ghost var before := records;
      var ok := Invalidate(suffix, w);
      ghost var marked := records;
      NothingNew(spec, w, limit, before, marked);
      if !ok {
        return None, started;
      }
      var moment: int := *;
      SmoothRuns(spec, None, w, limit);
      if status == RunSucceeded && (step != "" || mode == Live) && !w.failing(moment) {
        status := RunQueued;
      }
      var cache := None;
      EmptyIsFaithful(spec);
      if mode == TimeTravel {
        var built := BuildReplayCache(records);
        CacheIsFaithful(spec, records, built);
        cache := Some(built);
      }
      if Smooth(spec, None, w, limit) {
        SmoothAnyway(spec, cache, w, limit);
      }
      var result, queued, lost;
      result, started, queued, lost := RunDag(cache, limit, w);
      EffectAfterMarking(spec, before, marked, records, suffix, started, limit);
      TellsAfterMarking(spec, cache, w, before, marked, records, suffix, limit);
      if result == Finished && Calm(w) {
        RedoneAnew(spec, before, marked, records, suffix);
      }
      return Some(result), started;
    }

    /** Any sequence of resumes, replays and crashes, with caches from this run or from another
        faithful run of the same workflow, leaves a faithful store that has lost nothing. */
    method Session(calls: nat, foreign: Option<Cache>)
      requires Valid() && FaithfulCache(spec, foreign)
      modifies this
      ensures Valid() && HistoryKept(old(records), records)
    {
      hide Faithful, FaithfulCache, NonEmpty, CallEffect;
      EmptyIsFaithful(spec);
      for i := 0 to calls
        invariant Valid() && HistoryKept(old(records), records)
      {
        ghost var before := records;
        var limit: nat, kind: int, w: Surroundings := *, *, *;
        if kind == 0 {
          var step: NodeId, mode: ReplayMode := *, *;
          var _, _ := ReplayFrom(step, mode, limit, w);
        } else {
          var _, started, _, _ := RunDag(if kind == 1 then foreign else None, limit, w);
          EffectKeepsHistory(spec, before, records, started, limit);
        }
        HistoryIsTransitive(old(records), before, records);
      }
    }
  }

  /** What the end of a call says about its nodes. */
  lemma EndOfCall(spec: Spec, c: Call, records: Records)
    requires CallInv(spec, c, records) && c.running == map[] && Ending(c, false) == Finished
    requires c.Halted() || c.ready == []
    ensures (forall n :: n in spec.g.nodes ==> HasSucceeded(records, n)) <==>
              Elements(c.ready) == {} && c.started - c.done == {}
    ensures Undisturbed(c) ==> Elements(c.ready) == {} && c.started - c.done == {}
  {
    hide CallInv, HasSucceeded;
    FinishedExactly(spec, c, records);
    assert c.ready == [] <==> Elements(c.ready) == {} by {
      if c.ready != [] {
        assert c.ready[0] in Elements(c.ready);
      }
    }
    assert c.started - c.done == {} ==> forall n :: n in c.started ==> n !in c.started - c.done;
    if Undisturbed(c) {
      UnhaltedIsComplete(spec, c, records);
    }
  }

  lemma NoEffect(spec: Spec, cache: Option<Cache>, w: Surroundings, records: Records, limit: nat)
    ensures CallEffect(spec, records, records, {}, limit) && RecordsTell(spec, cache, w, limit, records, records)
    ensures !NewlySo(records, records, NodeFailed) && !NewlySo(records, records, NodeWaiting)
  {
  }

  /** Without caps, a cache makes no difference. */
  lemma SmoothAnyway(spec: Spec, cache: Option<Cache>, w: Surroundings, limit: nat)
    requires Smooth(spec, None, w, limit)
    ensures Smooth(spec, cache, w, limit)
  {
  }

  lemma NothingNew(spec: Spec, w: Surroundings, limit: nat, before: Records, after: Records)
    requires after.Keys == before.Keys
    ensures RecordsTell(spec, None, w, limit, before, after)
  {
    assert forall k: Attempt :: k in after <==> k in before;
  }

  lemma CallTells(spec: Spec, cache: Option<Cache>, w: Surroundings, c: Call, records: Records)
    requires Tells(spec, cache, w, c, records)
    ensures RecordsTell(spec, cache, w, c.limit, c.base, records) && Shown(c)
  {
    hide RecordsTell, Numbered, Caused, Flagged;
  }

  /** The end of a call that was not interrupted is explained. */
  lemma EndExplained(spec: Spec, cache: Option<Cache>, w: Surroundings, c: Call, records: Records, canceled: bool)
    requires Tells(spec, cache, w, c, records) && (canceled ==> exists t :: w.canceled(t))
    ensures var outcome := Ending(c, canceled);
            && Reasoned(spec, cache, w, c.limit, c.base, records, c.status, outcome, c.started)
            && (Smooth(spec, cache, w, c.limit) ==> outcome == Finished)
  {
    hide RecordsTell, Numbered, NewlySo, Reliable, Uninterrupted, Asked;
  }

  lemma SmoothRuns(spec: Spec, cache: Option<Cache>, w: Surroundings, limit: nat)
    ensures Smooth(spec, cache, w, limit) ==> Calm(w) && Uninterrupted(spec, cache, w) && forall t :: !w.canceled(t)
    ensures Uninterrupted(spec, cache, w) ==> forall t :: !w.failing(t)
  {
  }

  lemma CallIsValid(spec: Spec, c: Call, records: Records)
    requires CallInv(spec, c, records)
    ensures NonEmpty(spec) && Faithful(spec, records)
  {
    hide Scheduled, Recorded, NonEmpty, Faithful, Sound;
  }

  lemma MarkedIsFaithful(spec: Spec, before: Records, after: Records, nodes: set<NodeId>)
    requires Faithful(spec, before) && MarkedOnly(before, after, nodes)
    ensures Faithful(spec, after)
  {
    hide Meaning, Sound;
    assert forall k :: Succeeded(after, k) ==> Succeeded(before, k) && after[k] == before[k];
  }

  /** What a call on the marked records means for the records before the marking. */
  lemma EffectAfterMarking(spec: Spec, before: Records, marked: Records, after: Records, nodes: set<NodeId>,
                           started: set<NodeId>, limit: nat)
    requires Invalidated(before, marked, nodes) && CallEffect(spec, marked, after, started, limit)
    ensures HistoryKept(before, after)
    ensures forall n :: n in started && HasSucceeded(before, n) ==> n in nodes
    ensures forall k :: k in before ==>
              after[k] == if k.node in nodes then before[k].(status := NodeCanceled) else before[k]
  {
    forall n | n in started && HasSucceeded(before, n)
      ensures n in nodes
    {
      var k :| k in before && k.node == n && Succeeded(before, k);
      assert n !in nodes ==> Succeeded(marked, k);
    }
  }

  lemma TellsAfterMarking(spec: Spec, cache: Option<Cache>, w: Surroundings, before: Records, marked: Records,
                          after: Records, nodes: set<NodeId>, limit: nat)
    requires Invalidated(before, marked, nodes) && RecordsTell(spec, cache, w, limit, marked, after)
    ensures RecordsTell(spec, cache, w, limit, before, after) && NewAttemptsNext(before, after)
  {
    hide Told;
    assert forall k: Attempt :: k in marked <==> k in before;
  }

  /** In a run that succeeded, the nodes that were marked have succeeded anew. */
  lemma RedoneAnew(spec: Spec, before: Records, marked: Records, after: Records, nodes: set<NodeId>)
    requires Invalidated(before, marked, nodes) && Keeps(marked, after) && NewAttemptsNext(before, after)
    requires forall n :: n in spec.g.nodes ==> HasSucceeded(after, n)
    ensures forall n :: n in spec.g.nodes && n in nodes ==> SucceedsAnew(before, after, n)
  {
    forall n | n in spec.g.nodes && n in nodes
      ensures SucceedsAnew(before, after, n)
    {
      var k :| k in after && k.node == n && Succeeded(after, k);
      assert k in before ==> after[k].status == NodeCanceled;
    }
  }

  lemma EffectKeepsHistory(spec: Spec, before: Records, after: Records, started: set<NodeId>, limit: nat)
    requires CallEffect(spec, before, after, started, limit)
    ensures HistoryKept(before, after)
  {
  }

  lemma HistoryIsTransitive(a: Records, b: Records, c: Records)
    requires HistoryKept(a, b) && HistoryKept(b, c)
    ensures HistoryKept(a, c)
  {
  }
}
