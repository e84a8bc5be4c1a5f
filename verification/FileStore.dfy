/** The durable engine store (internal/engine/store_file.go): maps in memory, an append-only log,
    and replay.  Appends are all or nothing. */
module FileStore {
  import opened Common
  import Glob

  type Payload = string

  datatype Run = Run(runId: string, workflowId: string, status: string, rest: Payload)
  datatype NodeExecution = NodeExecution(runId: string, workflowId: string, nodeId: string, attempt: int,
                                         status: string, rest: Payload)
  datatype RunEvent = RunEvent(runId: string, seqNo: int, kind: string, rest: Payload)
  datatype Timer = Timer(runId: string, nodeId: string, attempt: int, rest: Payload)
  datatype NodeKey = NodeKey(runId: string, nodeId: string, attempt: int)

  datatype Record =
    | CreateRun(run: Run)
    | UpdateRun(run: Run)
    | UpsertNode(node: NodeExecution)
    | AppendEvent(event: RunEvent)
    | UpsertTimer(timer: Timer)
    | PutKV(key: string, value: string)

  datatype Memory = Memory(
    runs: map<string, Run>, nodes: map<NodeKey, NodeExecution>, events: map<string, seq<RunEvent>>,
    nextSeq: map<string, int>, timers: map<string, Timer>, kv: map<string, string>)

  datatype StoreError = InvalidRecord | RunAlreadyExists | RunNotFound | AppendFailed

  const EMPTY: Memory := Memory(map[], map[], map[], map[], map[], map[])

  const RUN_STATUSES := {"queued", "running", "waiting", "succeeded", "failed", "canceled"}

  // Validation (internal/engine/types.go)

  predicate ValidRun(r: Run) {
    r.runId != "" && r.workflowId != "" && r.status in RUN_STATUSES
  }

  predicate ValidNode(n: NodeExecution) {
    n.runId != "" && n.workflowId != "" && n.nodeId != "" && n.attempt >= 1 && n.status in RUN_STATUSES
  }

  predicate ValidEvent(e: RunEvent) {
    e.runId != "" && e.seqNo >= 1 && e.kind != ""
  }

  predicate ValidTimer(t: Timer) {
    t.runId != "" && t.nodeId != "" && t.attempt >= 1
  }

  function KeyOf(n: NodeExecution): NodeKey {
    NodeKey(n.runId, n.nodeId, n.attempt)
  }

  function Digits(n: nat): string {
    if n < 10 then [('0' as int + n) as char] else Digits(n / 10) + [('0' as int + n % 10) as char]
  }

  /** timerKey. */
  function TimerKey(t: Timer): string
    requires t.attempt >= 0
  {
    t.runId + "|" + t.nodeId + "|" + Digits(t.attempt)
  }

  // Which attempts share a timer

  /** Two timers share a key exactly if their attempts agree and their run and node ids, joined by a
      bar, do. */
  lemma TimerKeysAgree(t: Timer, t': Timer)
    requires t.attempt >= 0 && t'.attempt >= 0
    ensures TimerKey(t) == TimerKey(t') <==>
              t.attempt == t'.attempt && t.runId + "|" + t.nodeId == t'.runId + "|" + t'.nodeId
  {
    var x, y := t.runId + "|" + t.nodeId, t'.runId + "|" + t'.nodeId;
    assert TimerKey(t) == x + "|" + Digits(t.attempt) && TimerKey(t') == y + "|" + Digits(t'.attempt);
    DigitsHaveNoBar(t.attempt);
    DigitsHaveNoBar(t'.attempt);
    if TimerKey(t) == TimerKey(t') {
      LastBar(x, Digits(t.attempt), y, Digits(t'.attempt));
      DigitsTell(t.attempt, t'.attempt);
    }
  }

  /** So every attempt has its own if no run id has a bar in it. */
  lemma TimerKeysTell(t: Timer, t': Timer)
    requires t.attempt >= 0 && t'.attempt >= 0 && '|' !in t.runId && '|' !in t'.runId
    ensures TimerKey(t) == TimerKey(t') <==>
              t.runId == t'.runId && t.nodeId == t'.nodeId && t.attempt == t'.attempt
  {
    TimerKeysAgree(t, t');
    if t.runId + "|" + t.nodeId == t'.runId + "|" + t'.nodeId {
      FirstBar(t.runId, t.nodeId, t'.runId, t'.nodeId);
    }
  }

  lemma {:induction false} DigitsHaveNoBar(n: nat)
    ensures '|' !in Digits(n)
  {
    if n >= 10 {
      DigitsHaveNoBar(n / 10);
    }
  }

  lemma {:induction false} DigitsTell(n: nat, m: nat)
    requires Digits(n) == Digits(m)
    ensures n == m
  {
    DigitsLong(n);
    DigitsLong(m);
    if n >= 10 {
      var d, e := Digits(n), Digits(m);
      assert d[|d| - 1] == e[|e| - 1] && d[..|d| - 1] == Digits(n / 10) && e[..|e| - 1] == Digits(m / 10);
      DigitsTell(n / 10, m / 10);
    }
  }

  lemma DigitsLong(n: nat)
    ensures |Digits(n)| >= 1 && (|Digits(n)| == 1 <==> n < 10)
  {
  }

  lemma LastBar(x: string, d: string, y: string, e: string)
    requires x + "|" + d == y + "|" + e && '|' !in d && '|' !in e
    ensures x == y && d == e
  {
    var whole := x + "|" + d;
    assert whole[|x|] == '|' && whole[|y|] == '|';
    assert forall i :: |x| < i < |whole| ==> whole[i] == d[i - |x| - 1];
    assert forall i :: |y| < i < |whole| ==> whole[i] == e[i - |y| - 1];
    assert |x| == |y|;
    assert whole[..|x|] == x && whole[..|x|] == y;
    assert whole[|x| + 1..] == d && whole[|x| + 1..] == e;
  }

  lemma FirstBar(x: string, d: string, y: string, e: string)
    requires x + "|" + d == y + "|" + e && '|' !in x && '|' !in y
    ensures x == y && d == e
  {
    var whole := x + "|" + d;
    assert whole[|x|] == '|' && whole[|y|] == '|';
    assert forall i :: 0 <= i < |x| ==> whole[i] == x[i];
    assert forall i :: 0 <= i < |y| ==> whole[i] == y[i];
    assert |x| == |y|;
    assert whole[..|x|] == x && whole[..|x|] == y;
    assert whole[|x| + 1..] == d && whole[|x| + 1..] == e;
  }

  function EventsOf(events: map<string, seq<RunEvent>>, run: string): seq<RunEvent> {
    if run in events then events[run] else []
  }

  function WithSeq(nextSeq: map<string, int>, run: string): map<string, int> {
    if run in nextSeq then nextSeq else nextSeq[run := 1]
  }

  /** applyRecord. */
  function Apply(m: Memory, rec: Record): Option<Memory> {
    match rec
    case CreateRun(r) =>
      if !ValidRun(r) then None
      else Some(m.(runs := m.runs[r.runId := r], nextSeq := WithSeq(m.nextSeq, r.runId)))
    case UpdateRun(r) =>
      if !ValidRun(r) then None
      else Some(m.(runs := m.runs[r.runId := r], nextSeq := WithSeq(m.nextSeq, r.runId)))
    case UpsertNode(n) =>
      if !ValidNode(n) then None else Some(m.(nodes := m.nodes[KeyOf(n) := n]))
    case AppendEvent(e) =>
      if !ValidEvent(e) then None
      else
        Some(m.(events := m.events[e.runId := EventsOf(m.events, e.runId) + [e]],
                nextSeq := if e.runId !in m.nextSeq || e.seqNo + 1 > m.nextSeq[e.runId]
                           then m.nextSeq[e.runId := e.seqNo + 1] else m.nextSeq))
    case UpsertTimer(t) =>
      if !ValidTimer(t) then None else Some(m.(timers := m.timers[TimerKey(t) := t]))
    case PutKV(key, value) =>
      var k := Glob.TrimSpace(key);
      if k == "" then None else Some(m.(kv := m.kv[k := value]))
  }

  /** The state after replaying a log, None when a record is refused. */
  function Replayed(log: seq<Record>): Option<Memory> {
    if log == [] then Some(EMPTY)
    else
      var before := Replayed(log[..|log| - 1]);
      if before.None? then None else Apply(before.value, log[|log| - 1])
  }

  lemma ReplayedSnoc(log: seq<Record>, rec: Record)
    ensures Replayed(log + [rec]) == if Replayed(log).None? then None else Apply(Replayed(log).value, rec)
  {
    assert (log + [rec])[..|log + [rec]| - 1] == log;
  }

  // What holds between the log and the memory

  /** Numbers of a run's events strictly increase and stay below the next one. */
  ghost predicate Numbered(m: Memory) {
    && (forall run :: run in m.events ==> run in m.nextSeq)
    && (forall run :: run in m.runs ==> run in m.nextSeq)
    && (forall run :: run in m.nextSeq ==> m.nextSeq[run] >= 1)
    && (forall run, i :: run in m.events && 0 <= i < |m.events[run]| ==> m.events[run][i].seqNo < m.nextSeq[run])
    && (forall run, i, j :: run in m.events && 0 <= i < j < |m.events[run]| ==>
          m.events[run][i].seqNo < m.events[run][j].seqNo)
  }

  /** The log holds this pair. */
  ghost predicate Saved(log: seq<Record>, key: string, value: string) {
    Replayed(log).Some? && key in Replayed(log).value.kv && Replayed(log).value.kv[key] == value
  }

  /** The memory is what replay gives, except for event numbers given to rejected events and for
      exactly the unsaved keys, whose live pair the log does not hold. */
  ghost predicate Agrees(log: seq<Record>, m: Memory, unsaved: set<string>) {
    && Replayed(log).Some?
    && var r := Replayed(log).value;
    && r.runs == m.runs && r.nodes == m.nodes && r.events == m.events && r.timers == m.timers
    && r.nextSeq.Keys == m.nextSeq.Keys
    && (forall run :: run in m.nextSeq ==> r.nextSeq[run] <= m.nextSeq[run])
    && unsaved <= m.kv.Keys
    && (forall k :: k in m.kv ==> (k !in unsaved <==> k in r.kv && r.kv[k] == m.kv[k]))
    && (forall k :: k in r.kv ==> k in m.kv)
    && Numbered(r) && Numbered(m)
  }

  // Each kind of append keeps the agreement.

  lemma RunLogged(log: seq<Record>, m: Memory, unsaved: set<string>, rec: Record)
    requires Agrees(log, m, unsaved) && (rec.CreateRun? || rec.UpdateRun?) && ValidRun(rec.run)
    ensures Agrees(log + [rec],
                   m.(runs := m.runs[rec.run.runId := rec.run], nextSeq := WithSeq(m.nextSeq, rec.run.runId)), unsaved)
  {
    ReplayedSnoc(log, rec);
    hide Replayed, Glob.TrimSpace;
    RunKeepsNumbers(m, rec.run);
    RunKeepsNumbers(Replayed(log).value, rec.run);
  }

  lemma RunKeepsNumbers(m: Memory, r: Run)
    requires Numbered(m)
    ensures Numbered(m.(runs := m.runs[r.runId := r], nextSeq := WithSeq(m.nextSeq, r.runId)))
  {
  }

  lemma SameNumbers(m: Memory, m': Memory)
    requires Numbered(m) && m'.events == m.events && m'.runs == m.runs && m'.nextSeq == m.nextSeq
    ensures Numbered(m')
  {
  }

  lemma NodeLogged(log: seq<Record>, m: Memory, unsaved: set<string>, n: NodeExecution)
    requires Agrees(log, m, unsaved) && ValidNode(n)
    ensures Agrees(log + [UpsertNode(n)], m.(nodes := m.nodes[KeyOf(n) := n]), unsaved)
  {
    hide Numbered;
    ReplayedSnoc(log, UpsertNode(n));
    SameNumbers(m, m.(nodes := m.nodes[KeyOf(n) := n]));
    SameNumbers(Replayed(log).value, Replayed(log + [UpsertNode(n)]).value);
  }

  lemma TimerLogged(log: seq<Record>, m: Memory, unsaved: set<string>, t: Timer)
    requires Agrees(log, m, unsaved) && ValidTimer(t)
    ensures Agrees(log + [UpsertTimer(t)], m.(timers := m.timers[TimerKey(t) := t]), unsaved)
  {
    hide Numbered, TimerKey;
    ReplayedSnoc(log, UpsertTimer(t));
    SameNumbers(m, m.(timers := m.timers[TimerKey(t) := t]));
    SameNumbers(Replayed(log).value, Replayed(log + [UpsertTimer(t)]).value);
  }

  function WithEvent(m: Memory, e: RunEvent): Memory {
    m.(events := m.events[e.runId := EventsOf(m.events, e.runId) + [e]], nextSeq := m.nextSeq[e.runId := e.seqNo + 1])
  }

  /** An event numbered with the live counter: replay's own counter catches up with it. */
  lemma EventLogged(log: seq<Record>, m: Memory, unsaved: set<string>, e: RunEvent)
    requires Agrees(log, m, unsaved) && ValidEvent(e) && e.runId in m.runs && e.seqNo == m.nextSeq[e.runId]
    ensures Agrees(log + [AppendEvent(e)], WithEvent(m, e), unsaved)
  {
    ReplayedSnoc(log, AppendEvent(e));
    var r := Replayed(log).value;
    assert r.nextSeq[e.runId] <= e.seqNo;
    EventKeepsNumbers(m, e);
    EventKeepsNumbers(r, e);
  }

  lemma EventKeepsNumbers(m: Memory, e: RunEvent)
    requires Numbered(m) && e.runId in m.nextSeq && m.nextSeq[e.runId] <= e.seqNo && e.seqNo >= 1
    ensures Numbered(WithEvent(m, e))
  {
    var m' := WithEvent(m, e);
    forall run, i | run in m'.events && 0 <= i < |m'.events[run]|
      ensures m'.events[run][i].seqNo < m'.nextSeq[run]
    {
      if run == e.runId && i < |m'.events[run]| - 1 {
        assert m'.events[run][i] == m.events[run][i];
      }
    }
    forall run, i, j | run in m'.events && 0 <= i < j < |m'.events[run]|
      ensures m'.events[run][i].seqNo < m'.events[run][j].seqNo
    {
      if run == e.runId {
        assert m'.events[run][i] == m.events[run][i];
        if j < |m'.events[run]| - 1 {
          assert m'.events[run][j] == m.events[run][j];
        }
      }
    }
  }

  /** A rejected event has used up a number; nothing else changed. */
  lemma NumberSkipped(log: seq<Record>, m: Memory, unsaved: set<string>, run: string)
    requires Agrees(log, m, unsaved) && run in m.runs
    ensures Agrees(log, m.(nextSeq := m.nextSeq[run := m.nextSeq[run] + 1]), unsaved)
  {
  }

  lemma PairLogged(log: seq<Record>, m: Memory, unsaved: set<string>, key: string, value: string)
    requires Agrees(log, m, unsaved) && key != "" && Glob.TrimSpace(key) == key
    ensures Agrees(log + [PutKV(key, value)], m.(kv := m.kv[key := value]), unsaved - {key})
    ensures Agrees(log, m.(kv := m.kv[key := value]),
                   if Saved(log, key, value) then unsaved - {key} else unsaved + {key})
  {
    hide Numbered, Glob.TrimSpace;
    ReplayedSnoc(log, PutKV(key, value));
    SameNumbers(m, m.(kv := m.kv[key := value]));
    SameNumbers(Replayed(log).value, Replayed(log + [PutKV(key, value)]).value);
  }

  class Store {
    /** Whether the log refuses an append, at each moment. */
    const refuses: int -> bool
    var runs: map<string, Run>
    var nodes: map<NodeKey, NodeExecution>
    var events: map<string, seq<RunEvent>>
    var nextSeq: map<string, int>
    var timers: map<string, Timer>
    var kv: map<string, string>
    var wal: seq<Record>
    /** Keys whose live pair the log does not hold, because a PutKV failed to reach it. */
    ghost var unsaved: set<string>

    function View(): Memory
      reads this
    {
      Memory(runs, nodes, events, nextSeq, timers, kv)
    }

    ghost predicate Valid()
      reads this
    {
      Agrees(wal, View(), unsaved)
    }

    constructor (refuses: int -> bool)
      ensures Valid() && View() == EMPTY && wal == [] && unsaved == {} && this.refuses == refuses
    {
      this.refuses := refuses;
      runs, nodes, events, nextSeq, timers, kv := map[], map[], map[], map[], map[], map[];
      wal, unsaved := [], {};
    }

    /** engineWAL.Append: the record is written as a whole or not at all. */
    method Append(rec: Record) returns (ok: bool)
      modifies this`wal
      ensures wal == if ok then old(wal) + [rec] else old(wal)
      ensures if ok then exists t :: !refuses(t) else exists t :: refuses(t)
    {
      var moment: int := *;
      ok := !refuses(moment);
      if ok {
        wal := wal + [rec];
      }
    }

    method CreateRun(r: Run) returns (err: Option<StoreError>)
      requires Valid()
      modifies this`runs, this`nextSeq, this`wal
      ensures Valid()
      ensures err.None? ==> runs == old(runs)[r.runId := r] && wal == old(wal) + [Record.CreateRun(r)]
      ensures err.Some? ==> View() == old(View()) && wal == old(wal)
      ensures err.None? ==> r.runId in nextSeq && (r.runId !in old(nextSeq) ==> nextSeq[r.runId] == 1)
      ensures if r.runId == "" || r.workflowId == ""
                 || r.status !in {"queued", "running", "waiting", "succeeded", "failed", "canceled"}
              then err == Some(InvalidRecord)
              else if r.runId in old(runs) then err == Some(RunAlreadyExists)
              else err.None? || (err == Some(AppendFailed) && exists t :: refuses(t))
    {
      if !ValidRun(r) {
        return Some(InvalidRecord);
      }
      if r.runId in runs {
        return Some(RunAlreadyExists);
      }
      var ok := Append(Record.CreateRun(r));
      if !ok {
        return Some(AppendFailed);
      }
      RunLogged(old(wal), View(), unsaved, Record.CreateRun(r));
      runs := runs[r.runId := r];
      nextSeq := WithSeq(nextSeq, r.runId);
      return None;
    }

    method UpdateRun(r: Run) returns (err: Option<StoreError>)
      requires Valid()
      modifies this`runs, this`wal
      ensures Valid()
      ensures err.None? ==> runs == old(runs)[r.runId := r] && wal == old(wal) + [Record.UpdateRun(r)]
      ensures err.Some? ==> View() == old(View()) && wal == old(wal)
      ensures if r.runId == "" || r.workflowId == ""
                 || r.status !in {"queued", "running", "waiting", "succeeded", "failed", "canceled"}
              then err == Some(InvalidRecord)
              else if r.runId !in old(runs) then err == Some(RunNotFound)
              else err.None? || (err == Some(AppendFailed) && exists t :: refuses(t))
    {
      if !ValidRun(r) {
        return Some(InvalidRecord);
      }
      if r.runId !in runs {
        return Some(RunNotFound);
      }
      var ok := Append(Record.UpdateRun(r));
      if !ok {
        return Some(AppendFailed);
      }
      RunLogged(old(wal), View(), unsaved, Record.UpdateRun(r));
      runs := runs[r.runId := r];
      assert WithSeq(nextSeq, r.runId) == nextSeq;
      return None;
    }

    method UpsertNodeExecution(n: NodeExecution) returns (err: Option<StoreError>)
      requires Valid()
      modifies this`nodes, this`wal
      ensures Valid()
      ensures err.None? ==> nodes == old(nodes)[NodeKey(n.runId, n.nodeId, n.attempt) := n]
                            && wal == old(wal) + [UpsertNode(n)]
      ensures err.Some? ==> View() == old(View()) && wal == old(wal)
      ensures if n.runId == "" || n.workflowId == "" || n.nodeId == "" || n.attempt < 1
                 || n.status !in {"queued", "running", "waiting", "succeeded", "failed", "canceled"}
              then err == Some(InvalidRecord)
              else if n.runId !in runs then err == Some(RunNotFound)
              else err.None? || (err == Some(AppendFailed) && exists t :: refuses(t))
    {
      if !ValidNode(n) {
        return Some(InvalidRecord);
      }
      if n.runId !in runs {
        return Some(RunNotFound);
      }
      var ok := Append(UpsertNode(n));
      if !ok {
        return Some(AppendFailed);
      }
      NodeLogged(old(wal), View(), unsaved, n);
      nodes := nodes[KeyOf(n) := n];
      return None;
    }

    /** AppendEvent: a stored event gets a number above all earlier ones of its run.  A rejected
        event leaves a gap, a failed append does not. */
    method AppendEvent(runId: string, kind: string, rest: Payload)
        returns (stored: Option<RunEvent>, err: Option<StoreError>)
      requires Valid()
      modifies this`events, this`nextSeq, this`wal
      ensures Valid() && (stored.Some? <==> err.None?)
      ensures stored.Some? ==>
                && runId in runs && stored.value == RunEvent(runId, old(nextSeq)[runId], kind, rest)
                && events == old(events)[runId := EventsOf(old(events), runId) + [stored.value]]
                && (forall i :: 0 <= i < |EventsOf(old(events), runId)| ==>
                      EventsOf(old(events), runId)[i].seqNo < stored.value.seqNo)
      ensures stored.None? ==> events == old(events) && wal == old(wal)
      ensures stored.Some? ==> wal == old(wal) + [Record.AppendEvent(stored.value)]
                               && nextSeq == old(nextSeq)[runId := stored.value.seqNo + 1]
      ensures err == Some(AppendFailed) || err == Some(RunNotFound) ==> nextSeq == old(nextSeq)
      ensures err == Some(InvalidRecord) ==>
                runId in old(nextSeq) && nextSeq == old(nextSeq)[runId := old(nextSeq)[runId] + 1]
      ensures if runId !in runs then err == Some(RunNotFound)
              else if runId == "" || kind == "" then err == Some(InvalidRecord)
              else err.None? || (err == Some(AppendFailed) && exists t :: refuses(t))
    {
      hide Agrees, Digits, Numbered, Replayed, Apply, Glob.TrimSpace;
      LiveNumbers(wal, View(), unsaved, runId);
      if runId !in runs {
        return None, Some(RunNotFound);
      }
      var seqNo := if runId in nextSeq then nextSeq[runId] else 0;
      if seqNo < 1 {
        assert false;
        seqNo := 1;
      }
      ghost var before := View();
      var e := RunEvent(runId, seqNo, kind, rest);
      nextSeq := nextSeq[runId := seqNo + 1];
      if !ValidEvent(e) {
        NumberSkipped(wal, before, unsaved, runId);
        return None, Some(InvalidRecord);
      }
      var ok := Append(Record.AppendEvent(e));
      if !ok {
        nextSeq := nextSeq[runId := seqNo];
        assert nextSeq == old(nextSeq);
        return None, Some(AppendFailed);
      }
      EventLogged(old(wal), before, unsaved, e);
      events := events[runId := EventsOf(events, runId) + [e]];
      return Some(e), None;
    }

    method UpsertTimer(t: Timer) returns (err: Option<StoreError>)
      requires Valid()
      modifies this`timers, this`wal
      ensures Valid()
      ensures err.None? ==> t.attempt >= 1 && wal == old(wal) + [Record.UpsertTimer(t)]
                            && timers == old(timers)[t.runId + "|" + t.nodeId + "|" + Digits(t.attempt) := t]
      ensures err.Some? ==> View() == old(View()) && wal == old(wal)
      ensures if t.runId == "" || t.nodeId == "" || t.attempt < 1 then err == Some(InvalidRecord)
              else if t.runId !in runs then err == Some(RunNotFound)
              else err.None? || (err == Some(AppendFailed) && exists m :: refuses(m))
    {
      if !ValidTimer(t) {
        return Some(InvalidRecord);
      }
      if t.runId !in runs {
        return Some(RunNotFound);
      }
      var ok := Append(Record.UpsertTimer(t));
      if !ok {
        return Some(AppendFailed);
      }
      TimerLogged(old(wal), View(), unsaved, t);
      timers := timers[TimerKey(t) := t];
      return None;
    }

    /** PutKV: memory first, then the log.  If the append fails, the key is unsaved from then on
        exactly if the log holds another value for it, or none. */
    method PutKV(key: string, value: string) returns (err: Option<StoreError>)
      requires Valid()
      modifies this`kv, this`wal, this`unsaved
      ensures Valid()
      ensures err == Some(InvalidRecord) <==> Glob.TrimSpace(key) == ""
      ensures err != Some(InvalidRecord) ==> kv == old(kv)[Glob.TrimSpace(key) := value]
      ensures err.None? ==> unsaved == old(unsaved) - {Glob.TrimSpace(key)}
                            && wal == old(wal) + [Record.PutKV(Glob.TrimSpace(key), value)]
      ensures err.Some? ==> wal == old(wal)
      ensures err == Some(AppendFailed) ==>
                var k := Glob.TrimSpace(key);
                unsaved == if Saved(wal, k, value) then old(unsaved) - {k} else old(unsaved) + {k}
      ensures err == Some(InvalidRecord) ==> kv == old(kv) && unsaved == old(unsaved)
      ensures err.None? || err == Some(InvalidRecord) || (err == Some(AppendFailed) && exists t :: refuses(t))
      ensures err.None? ==> exists t :: !refuses(t)
    {
      hide Agrees, Glob.TrimSpace, Saved;
      var k := Glob.TrimSpace(key);
      if k == "" {
        return Some(InvalidRecord);
      }
      Glob.TrimTwice(key);
      PairLogged(wal, View(), unsaved, k, value);
      kv := kv[k := value];
      var ok := Append(Record.PutKV(k, value));
      if !ok {
        unsaved := if Saved(wal, k, value) then unsaved - {k} else unsaved + {k};
        return Some(AppendFailed);
      }
      unsaved := unsaved - {k};
      return None;
    }

    /** A restart: replayLocked rebuilds the maps from the log.  It never fails; runs, nodes,
        events and timers come back as they were.  A pair comes back if and only if its key is
        not unsaved; no other key appears. */
    method Reopen() returns (ok: bool)
      requires Valid()
      modifies this
      ensures ok && Valid() && wal == old(wal) && unsaved == {}
      ensures runs == old(runs) && nodes == old(nodes) && events == old(events) && timers == old(timers)
      ensures forall k :: k in old(kv) ==> (k !in old(unsaved) <==> k in kv && kv[k] == old(kv)[k])
      ensures forall k :: k in kv ==> k in old(kv)
      ensures Some(View()) == Replayed(wal)
    {
      hide Replayed, Apply;
      var m;
      m, ok := Replay(wal);
      if !ok {
        assert false;
        return;
      }
      runs, nodes, events, nextSeq, timers, kv := m.runs, m.nodes, m.events, m.nextSeq, m.timers, m.kv;
      unsaved := {};
    }
  }

  /** The loop of replayLocked: it fails exactly when some record is refused.  The closing loop
      of the source finds nothing to do, because every replayed run already has its counter. */
  method Replay(log: seq<Record>) returns (m: Memory, ok: bool)
    ensures ok <==> Replayed(log).Some?
    ensures ok ==> Some(m) == Replayed(log)
  {
    hide Apply;
    m := EMPTY;
    for i := 0 to |log|
      invariant Replayed(log[..i]) == Some(m)
    {
      assert log[..i + 1] == log[..i] + [log[i]];
      ReplayedSnoc(log[..i], log[i]);
      var next := Apply(m, log[i]);
      if next.None? {
        ReplayedPrefix(log, i + 1);
        return m, false;
      }
      m := next.value;
    }
    assert log[..|log|] == log;
    CountersReplayed(log);
    var runIds := m.runs.Keys;
    while runIds != {}
      invariant runIds <= m.runs.Keys && Some(m) == Replayed(log)
      decreases |runIds|
    {
      var runId :| runId in runIds;
      if runId !in m.nextSeq {
        assert false;
        m := m.(nextSeq := m.nextSeq[runId := 1]);
      }
      runIds := runIds - {runId};
    }
    return m, true;
  }

  lemma {:induction false} CountersReplayed(log: seq<Record>)
    ensures Replayed(log).Some? ==> Replayed(log).value.runs.Keys <= Replayed(log).value.nextSeq.Keys
  {
    hide Apply;
    if log != [] && Replayed(log).Some? {
      var before := Replayed(log[..|log| - 1]);
      CountersReplayed(log[..|log| - 1]);
      ApplyKeepsCounters(before.value, log[|log| - 1]);
    }
  }

  lemma ApplyKeepsCounters(m: Memory, rec: Record)
    requires m.runs.Keys <= m.nextSeq.Keys && Apply(m, rec).Some?
    ensures Apply(m, rec).value.runs.Keys <= Apply(m, rec).value.nextSeq.Keys
  {
    hide Glob.TrimSpace, Digits;
  }

  lemma LiveNumbers(log: seq<Record>, m: Memory, unsaved: set<string>, run: string)
    requires Agrees(log, m, unsaved)
    ensures run in m.runs ==> run in m.nextSeq && m.nextSeq[run] >= 1
    ensures run in m.runs ==>
              forall i :: 0 <= i < |EventsOf(m.events, run)| ==> EventsOf(m.events, run)[i].seqNo < m.nextSeq[run]
  {
  }

  lemma {:induction false} ReplayedPrefix(log: seq<Record>, i: nat)
    requires i <= |log|
    ensures Replayed(log).Some? ==> Replayed(log[..i]).Some?
  {
    hide Apply;
    if i < |log| {
      assert log[..|log| - 1][..i] == log[..i];
      ReplayedPrefix(log[..|log| - 1], i);
    } else {
      assert log[..i] == log;
    }
  }
}
