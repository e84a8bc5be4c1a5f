/** The idempotency gate around a keyed produce (Produce in internal/broker/broker.go): Begin,
    then the produce itself, then Commit or Fail.

    One key is followed through any interleaving of calls.  Calls are told apart by a number.
    The hypothesis is that a call ends within the time-to-live of its Begin. */
module ProduceGate {
  import opened Common
  import opened Idempotency

  datatype Event =
    | Enter(call: nat, now: int, stamp: int)   // Begin of this key: eviction reading, stamp
    | Leave(call: nat, produced: bool, now: int)  // Commit after a produce, Fail otherwise
    | Elsewhere(op: Op)                        // any operation on another key

  /** The items, the calls that passed the gate and when, the last success, the latest reading. */
  datatype Gate = Gate(items: Items, inside: map<nat, int>, success: Option<int>, clock: int)

  function At(ev: Event): int {
    match ev
    case Enter(_, _, stamp) => stamp
    case Leave(_, _, now) => now
    case Elsewhere(op) => op.now
  }

  function EarliestReading(ev: Event): int {
    if ev.Enter? then ev.now else At(ev)
  }

  predicate Passes(g: Gate, ttl: int, k: Key, ev: Event) {
    ev.Enter? && Begin(g.items, ttl, k, ev.now, ev.stamp).reply == Granted
  }

  function Step(g: Gate, ttl: int, k: Key, ev: Event): Gate {
    match ev
    case Enter(call, now, stamp) =>
      var e := Begin(g.items, ttl, k, now, stamp);
      if e.reply == Granted then Gate(e.items, g.inside[call := stamp], None, stamp)
      else Gate(e.items, g.inside, g.success, stamp)
    case Leave(call, produced, now) =>
      if produced then Gate(Commit(g.items, k, "", now), g.inside - {call}, Some(now), now)
      else Gate(Fail(g.items, k, "produce failed", now), g.inside - {call}, g.success, now)
    case Elsewhere(op) => Gate(Do(g.items, ttl, op).items, g.inside, g.success, op.now)
  }

  /** The clock does not run backwards, only calls that are inside leave, a call enters once at a
      time, and whoever is inside is within the time-to-live of its Begin. */
  ghost predicate Allowed(g: Gate, ttl: int, k: Key, ev: Event) {
    && g.clock <= EarliestReading(ev) <= At(ev)
    && (ev.Enter? ==> ev.call !in g.inside)
    && (ev.Leave? ==> ev.call in g.inside)
    && (ev.Elsewhere? ==> WellScoped(ev.op) && ev.op.k != k)
    && (forall c :: c in g.inside ==> At(ev) <= g.inside[c] + ttl)
  }

  /** At most one call is inside, and it holds the pending entry; otherwise a success keeps the
      key closed until its time-to-live is over. */
  ghost predicate Exclusive(g: Gate, ttl: int, k: Key) {
    && (forall c, d :: c in g.inside && d in g.inside ==> c == d)
    && (forall c :: c in g.inside ==>
          k in g.items && g.items[k].status == Pending && g.items[k].updatedAt == g.inside[c] && g.success.None?)
    && (g.success.Some? ==>
          (k in g.items && g.items[k].status == Committed && g.items[k].updatedAt == g.success.value)
          || g.clock > g.success.value + ttl)
  }

  lemma OtherKeysUntouched(items: Items, ttl: int, op: Op, k: Key)
    requires WellScoped(op) && k.scope == Produce && op.k != k && k in items
    ensures var after := Do(items, ttl, op).items;
            if k in after then after[k] == items[k] else items[k].updatedAt < op.now - ttl
  {
  }

  lemma StepKeepsExclusive(g: Gate, ttl: int, k: Key, ev: Event)
    requires k.scope == Produce && k.key != "" && ttl > 0
    requires Exclusive(g, ttl, k) && Allowed(g, ttl, k, ev)
    ensures Exclusive(Step(g, ttl, k, ev), ttl, k)
    ensures Passes(g, ttl, k, ev) ==> g.inside == map[]
    ensures Passes(g, ttl, k, ev) && g.success.Some? ==> ev.now > g.success.value + ttl
  {
    if ev.Elsewhere? && k in g.items {
      OtherKeysUntouched(g.items, ttl, ev.op, k);
    }
    if ev.Enter? && g.inside != map[] {
      var c :| c in g.inside;
      assert g.inside[c] + ttl >= At(ev);
    }
    if ev.Leave? {
      assert forall c :: c in g.inside ==> c == ev.call;
    }
  }

  function RunGate(g: Gate, ttl: int, k: Key, run: seq<Event>): Gate {
    if run == [] then g else Step(RunGate(g, ttl, k, run[..|run| - 1]), ttl, k, run[|run| - 1])
  }

  ghost predicate AllowedRun(g: Gate, ttl: int, k: Key, run: seq<Event>) {
    forall i :: 0 <= i < |run| ==> Allowed(RunGate(g, ttl, k, run[..i]), ttl, k, run[i])
  }

  /** Over any interleaving, the calls that pass the gate never overlap, and one that passes
      after a success begins more than the time-to-live after that commit. */
  lemma {:induction false} CallsNeverOverlap(start: int, ttl: int, k: Key, run: seq<Event>, i: nat)
    requires k.scope == Produce && k.key != "" && ttl > 0 && i <= |run|
    requires AllowedRun(Gate(map[], map[], None, start), ttl, k, run)
    ensures var g := RunGate(Gate(map[], map[], None, start), ttl, k, run[..i]);
            && Exclusive(g, ttl, k) && |g.inside| <= 1
            && (i < |run| && Passes(g, ttl, k, run[i]) ==>
                  g.inside == map[] && (g.success.Some? ==> run[i].now > g.success.value + ttl))
  {
    hide Step, Allowed, Passes;
    var g0 := Gate(map[], map[], None, start);
    if i > 0 {
      CallsNeverOverlap(start, ttl, k, run, i - 1);
      assert run[..i][..i - 1] == run[..i - 1];
      StepKeepsExclusive(RunGate(g0, ttl, k, run[..i - 1]), ttl, k, run[i - 1]);
    }
    var g := RunGate(g0, ttl, k, run[..i]);
    AtMostOne(g.inside);
    if i < |run| {
      StepKeepsExclusive(g, ttl, k, run[i]);
    }
  }

  /** The hypothesis is needed: a second call gets through exactly when the first has been inside
      for more than the time-to-live. */
  lemma GateOpensExactly(g: Gate, ttl: int, k: Key, first: nat, second: Event)
    requires k.scope == Produce && k.key != "" && Exclusive(g, ttl, k) && first in g.inside && second.Enter?
    ensures Passes(g, ttl, k, second) <==> second.now > g.inside[first] + ttl
  {
  }

  lemma AtMostOne(m: map<nat, int>)
    requires forall c, d :: c in m && d in m ==> c == d
    ensures |m| <= 1
  {
    if m.Keys != {} {
      var c :| c in m;
      assert m.Keys == {c};
    }
  }
}
