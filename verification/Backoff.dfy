/** Retry backoff (computeBackoff in internal/broker/broker.go).

    Durations are nanoseconds in a signed 64-bit integer, as Go's time.Duration: products
    wrap around, and the model keeps that. */
module Backoff {
  import opened Common

  const NANOS_PER_MS: int := 1_000_000
  const MAX_INT64: int := 0x7FFF_FFFF_FFFF_FFFF
  const TWO_64: int := 0x1_0000_0000_0000_0000

  datatype RetryPolicy = RetryPolicy(maxAttempts: int, backoffMs: int, maxBackoffMs: int)

  /** The value a signed 64-bit register holds for x. */
  function Wrap(x: int): int {
    (x + MAX_INT64 + 1) % TWO_64 - MAX_INT64 - 1
  }

  function Pow2(n: nat): (r: nat)
    ensures r >= 1
  {
    if n == 0 then 1 else 2 * Pow2(n - 1)
  }

  function BaseNs(p: RetryPolicy): int {
    Wrap(p.backoffMs * NANOS_PER_MS)
  }

  function CapNs(p: RetryPolicy): Option<int> {
    if p.maxBackoffMs > 0 then Some(Wrap(p.maxBackoffMs * NANOS_PER_MS)) else None
  }

  function Cut(d: int, cap: Option<int>): int {
    if cap.Some? && d > cap.value then cap.value else d
  }

  /** The duration after i rounds of the doubling loop. */
  function Held(base: int, cap: Option<int>, i: nat): int {
    if i == 0 then Cut(base, cap)
    else
      var h := Held(base, cap, i - 1);
      if cap.Some? && h >= cap.value then cap.value else Cut(Wrap(2 * h), cap)
  }

  /** What computeBackoff returns. */
  function Delay(policy: Option<RetryPolicy>, retryNumber: int): int {
    if policy.None? || policy.value.backoffMs <= 0 || retryNumber <= 0 then 0
    else Held(BaseNs(policy.value), CapNs(policy.value), retryNumber - 1)
  }

  lemma StaysAtCap(base: int, cap: Option<int>, i: nat, j: nat)
    requires i <= j && cap.Some? && Held(base, cap, i) == cap.value
    ensures Held(base, cap, j) == cap.value
  {
    if i < j {
      StaysAtCap(base, cap, i, j - 1);
    }
  }

  /** The loop of the source, with its early returns, computes Delay. */
  method ComputeBackoff(policy: Option<RetryPolicy>, retryNumber: int) returns (backoff: int)
    ensures backoff == Delay(policy, retryNumber)
  {
    if policy.None? || policy.value.backoffMs <= 0 || retryNumber <= 0 {
      return 0;
    }
    var p := policy.value;
    var base, cap := BaseNs(p), CapNs(p);
    backoff := base;
    if cap.Some? && backoff > cap.value {
      StaysAtCap(base, cap, 0, retryNumber - 1);
      return cap.value;
    }
    var i := 1;
    while i < retryNumber
      invariant 1 <= i <= retryNumber
      invariant backoff == Held(base, cap, i - 1)
    {
      if cap.Some? && backoff >= cap.value {
        assert Held(base, cap, i) == cap.value;
        StaysAtCap(base, cap, i, retryNumber - 1);
        return cap.value;
      }
      backoff := Wrap(backoff * 2);
      if cap.Some? && backoff > cap.value {
        assert Held(base, cap, i) == cap.value;
        StaysAtCap(base, cap, i, retryNumber - 1);
        return cap.value;
      }
      i := i + 1;
    }
  }

  /** What the backoff is meant to be: base times 2^(n-1), cut at the cap when one is set. */
  function Ideal(p: RetryPolicy, retryNumber: nat): int
    requires retryNumber >= 1
  {
    var grown := p.backoffMs * NANOS_PER_MS * Pow2(retryNumber - 1);
    if p.maxBackoffMs > 0 then Min(grown, p.maxBackoffMs * NANOS_PER_MS) else grown
  }

  /** Every doubling the loop makes before it reaches the cap fits in 64 bits. */
  ghost predicate DoublingsFit(base: int, max: int, i: nat) {
    forall j: nat :: j < i && base * Pow2(j) < max ==> 2 * (base * Pow2(j)) <= MAX_INT64
  }

  /** The first n backoffs are the intended ones.  Usually that means that the doublings fit; a
      cap or a base that is too long for a duration wraps around before the loop begins. */
  ghost predicate Fits(p: RetryPolicy, n: nat)
    requires n >= 1
  {
    var base, cap := p.backoffMs * NANOS_PER_MS, p.maxBackoffMs * NANOS_PER_MS;
    if cap > MAX_INT64 then base * Pow2(n - 1) <= Wrap(cap)
    else if base > MAX_INT64 then Wrap(base) >= cap
    else DoublingsFit(base, cap, n - 1)
  }

  lemma WrapIdentity(x: int)
    requires -MAX_INT64 - 1 <= x <= MAX_INT64
    ensures Wrap(x) == x
  {
  }

  lemma {:induction false} HeldCapped(base: int, max: int, i: nat)
    requires base > 0 && 0 < max <= MAX_INT64 && DoublingsFit(base, max, i)
    ensures 0 < Held(base, Some(max), i) == Min(base * Pow2(i), max)
  {
    if i == 0 {
      assert base * Pow2(0) == base;
    } else {
      HeldCapped(base, max, i - 1);
      var h := Held(base, Some(max), i - 1);
      assert base * Pow2(i) == 2 * (base * Pow2(i - 1));
      if h < max {
        assert h == base * Pow2(i - 1);
        WrapIdentity(2 * h);
      }
    }
  }

  lemma WrapDoubles(x: int)
    ensures Wrap(2 * Wrap(x)) == Wrap(2 * x)
  {
    var q := (x + MAX_INT64 + 1) / TWO_64;
    assert Wrap(x) == x - q * TWO_64;
    var a := 2 * x + MAX_INT64 + 1;
    assert 2 * Wrap(x) + MAX_INT64 + 1 == a + (-2 * q) * TWO_64;
    ModShift(a, -2 * q);
  }

  lemma ModShift(a: int, k: int)
    ensures (a + k * TWO_64) % TWO_64 == a % TWO_64
  {
  }

  lemma {:induction false} HeldUncapped(base: int, i: nat)
    ensures Held(Wrap(base), None, i) == Wrap(base * Pow2(i))
  {
    if i == 0 {
      assert base * Pow2(0) == base;
    } else {
      HeldUncapped(base, i - 1);
      assert base * Pow2(i) == 2 * (base * Pow2(i - 1));
      WrapDoubles(base * Pow2(i - 1));
    }
  }

  /** A cap too long for a duration holds whatever it wraps to. */
  lemma {:induction false} HeldBelow(base: int, max: int, i: nat)
    requires base > 0 && base * Pow2(i) <= max <= MAX_INT64
    ensures Held(base, Some(max), i) == base * Pow2(i) > 0
  {
    if i == 0 {
      assert base * Pow2(0) == base;
    } else {
      assert base * Pow2(i) == 2 * (base * Pow2(i - 1));
      MulMonotone(base, 1, Pow2(i - 1));
      HeldBelow(base, max, i - 1);
      WrapIdentity(base * Pow2(i));
    }
  }

  /** What is held never exceeds the cap. */
  lemma {:induction false} HeldUnderCap(base: int, max: int, i: nat)
    ensures Held(base, Some(max), i) <= max
  {
  }

  lemma WrapBounds(x: int)
    ensures -MAX_INT64 - 1 <= Wrap(x) <= MAX_INT64
  {
  }

  /** With a cap, the backoff is base times 2^(n-1) cut at the cap, up to any retry that fits. */
  lemma CappedBackoff(p: RetryPolicy, n: nat)
    requires n >= 1 && p.backoffMs > 0 && p.maxBackoffMs > 0 && Fits(p, n)
    ensures Delay(Some(p), n) == Ideal(p, n) > 0
  {
    var base, cap := p.backoffMs * NANOS_PER_MS, p.maxBackoffMs * NANOS_PER_MS;
    MulMonotone(base, 1, Pow2(n - 1));
    if cap > MAX_INT64 {
      WrapBounds(cap);
      WrapIdentity(base);
      HeldBelow(base, Wrap(cap), n - 1);
    } else if base > MAX_INT64 {
      WrapIdentity(cap);
      StaysAtCap(BaseNs(p), Some(cap), 0, n - 1);
    } else {
      WrapIdentity(base);
      WrapIdentity(cap);
      HeldCapped(base, cap, n - 1);
    }
  }

  /** And only up to those, for every policy with a base and a cap. */
  lemma CappedBackoffExactly(p: RetryPolicy, n: nat)
    requires n >= 1 && p.backoffMs > 0 && p.maxBackoffMs > 0
    ensures (forall m: nat :: 1 <= m <= n ==> Delay(Some(p), m) == Ideal(p, m)) <==> Fits(p, n)
  {
    if Fits(p, n) {
      forall m: nat | 1 <= m <= n
        ensures Delay(Some(p), m) == Ideal(p, m)
      {
        FitsEarlier(p, m, n);
        CappedBackoff(p, m);
      }
    } else {
      var m := Misfit(p, n);
      assert Delay(Some(p), m) != Ideal(p, m);
    }
  }

  lemma Misfit(p: RetryPolicy, n: nat) returns (m: nat)
    requires n >= 1 && p.backoffMs > 0 && p.maxBackoffMs > 0 && !Fits(p, n)
    ensures 1 <= m <= n && Delay(Some(p), m) != Ideal(p, m)
  {
    var base, cap := p.backoffMs * NANOS_PER_MS, p.maxBackoffMs * NANOS_PER_MS;
    if cap > MAX_INT64 {
      WrapBounds(cap);
      HeldUnderCap(BaseNs(p), Wrap(cap), n - 1);
      m := n;
    } else if base > MAX_INT64 {
      WrapIdentity(cap);
      assert base * Pow2(0) == base;
      m := 1;
    } else {
      m := FirstMisfit(p, n);
    }
  }

  /** The first doubling that does not fit makes the next backoff negative. */
  lemma {:induction false} FirstMisfit(p: RetryPolicy, n: nat) returns (m: nat)
    requires n >= 1 && p.backoffMs > 0 && p.maxBackoffMs > 0 && !Fits(p, n)
    requires p.backoffMs * NANOS_PER_MS <= MAX_INT64 && p.maxBackoffMs * NANOS_PER_MS <= MAX_INT64
    ensures 1 <= m <= n && Delay(Some(p), m) < 0 < Ideal(p, m)
  {
    if n > 1 && !Fits(p, n - 1) {
      m := FirstMisfit(p, n - 1);
    } else {
      m := n;
      var base, max := p.backoffMs * NANOS_PER_MS, p.maxBackoffMs * NANOS_PER_MS;
      WrapIdentity(base);
      WrapIdentity(max);
      CappedBackoff(p, n - 1);
      assert Delay(Some(p), n - 1) == Held(base, Some(max), n - 2) == base * Pow2(n - 2);
      WrapNegative(2 * (base * Pow2(n - 2)));
      MulMonotone(base, 1, Pow2(n - 1));
    }
  }

  /** A cap of at most 2^62 nanoseconds (146 years) and a base that is a duration always fit. */
  lemma SmallCapsFit(p: RetryPolicy, n: nat)
    requires n >= 1 && p.backoffMs > 0 && 2 * p.maxBackoffMs * NANOS_PER_MS <= MAX_INT64
    requires p.backoffMs * NANOS_PER_MS <= MAX_INT64
    ensures Fits(p, n)
  {
  }

  /** Without a cap, it is base times 2^(n-1) exactly when that number is a duration at all. */
  lemma UncappedBackoff(p: RetryPolicy, n: nat)
    requires n >= 1 && p.backoffMs > 0 && p.maxBackoffMs <= 0
    ensures Delay(Some(p), n) == Wrap(Ideal(p, n))
    ensures Delay(Some(p), n) == Ideal(p, n) <==> Ideal(p, n) <= MAX_INT64
  {
    var base := p.backoffMs * NANOS_PER_MS;
    HeldUncapped(base, n - 1);
    WrapBounds(Ideal(p, n));
    MulMonotone(base, 1, Pow2(n - 1));
    if Ideal(p, n) <= MAX_INT64 {
      WrapIdentity(Ideal(p, n));
    }
  }

  /** The failing family: without a cap, every policy reaches a retry at which the backoff is not
      the intended one; if the base is a duration, the first such backoff is negative, so that the
      redelivery gate stands open. */
  lemma UncappedBackoffOverflows(p: RetryPolicy) returns (n: nat)
    requires p.backoffMs > 0 && p.maxBackoffMs <= 0
    ensures n >= 1 && Delay(Some(p), n) != Ideal(p, n)
    ensures p.backoffMs * NANOS_PER_MS <= MAX_INT64 ==> n >= 2 && Delay(Some(p), n) < 0 < Delay(Some(p), n - 1)
  {
    n := 1;
    while Ideal(p, n) <= MAX_INT64
      invariant n >= 1 && (n >= 2 ==> Ideal(p, n - 1) <= MAX_INT64)
      decreases MAX_INT64 - Ideal(p, n)
    {
      n := n + 1;
      assert Ideal(p, n) == 2 * Ideal(p, n - 1);
    }
    UncappedBackoff(p, n);
    if n >= 2 {
      assert Ideal(p, n) == 2 * Ideal(p, n - 1);
      UncappedBackoff(p, n - 1);
      WrapNegative(Ideal(p, n));
    } else {
      assert Ideal(p, 1) == p.backoffMs * NANOS_PER_MS;
    }
  }

  lemma WrapNegative(x: int)
    requires MAX_INT64 < x <= 2 * MAX_INT64
    ensures Wrap(x) < 0
  {
  }

  /** One millisecond, say. */
  lemma OneMillisecondOverflows() returns (n: nat)
    ensures Delay(Some(RetryPolicy(0, 1, 0)), n) < 0
  {
    n := UncappedBackoffOverflows(RetryPolicy(0, 1, 0));
  }

  lemma Pow2Add(a: nat, b: nat)
    ensures Pow2(a + b) == Pow2(a) * Pow2(b)
  {
    if b == 0 {
    } else {
      Pow2Add(a, b - 1);
      assert Pow2(a + b) == 2 * Pow2(a + b - 1);
    }
  }

  /** Later retries never wait less, as long as the durations are representable. */
  lemma BackoffMonotone(p: RetryPolicy, m: nat, n: nat)
    requires 1 <= m <= n && p.backoffMs > 0
    requires if p.maxBackoffMs > 0 then Fits(p, n) else Ideal(p, n) <= MAX_INT64
    ensures 0 < Delay(Some(p), m) <= Delay(Some(p), n)
  {
    hide Delay, Ideal, Fits, Pow2;
    IdealMonotone(p, m, n);
    if p.maxBackoffMs > 0 {
      FitsEarlier(p, m, n);
      CappedBackoff(p, m);
      CappedBackoff(p, n);
    } else {
      UncappedBackoff(p, m);
      UncappedBackoff(p, n);
    }
  }

  lemma IdealMonotone(p: RetryPolicy, m: nat, n: nat)
    requires 1 <= m <= n && p.backoffMs > 0
    ensures 0 < Ideal(p, m) <= Ideal(p, n)
  {
    hide Pow2;
    Pow2Add(m - 1, n - m);
    var b := p.backoffMs * NANOS_PER_MS;
    MulMonotone(Pow2(m - 1), 1, Pow2(n - m));
    MulMonotone(b, Pow2(m - 1), Pow2(n - 1));
  }

  lemma FitsEarlier(p: RetryPolicy, m: nat, n: nat)
    requires 1 <= m <= n && p.backoffMs > 0 && Fits(p, n)
    ensures Fits(p, m)
  {
    hide Pow2;
    Pow2Add(m - 1, n - m);
    MulMonotone(Pow2(m - 1), 1, Pow2(n - m));
    MulMonotone(p.backoffMs * NANOS_PER_MS, Pow2(m - 1), Pow2(n - 1));
  }

  lemma MulMonotone(b: int, x: nat, y: nat)
    requires b > 0 && y >= x >= 1
    ensures 0 < b * x <= b * y
  {
  }

  /** With a cap the doubling register never holds more than the cap before a doubling, and so at
      most twice the cap after. */
  lemma RegisterBound(p: RetryPolicy, i: nat)
    requires p.backoffMs > 0 && p.maxBackoffMs > 0 && Fits(p, i + 2)
    ensures var h, cap := Held(BaseNs(p), CapNs(p), i), CapNs(p).value;
            0 < h <= cap && 2 * h <= 2 * cap && (h < cap ==> Wrap(2 * h) == 2 * h)
  {
    FitsEarlier(p, i + 1, i + 2);
    CappedBackoff(p, i + 1);
    HeldUnderCap(BaseNs(p), CapNs(p).value, i);
    if Held(BaseNs(p), CapNs(p), i) < CapNs(p).value {
      NextFits(p, i);
    }
  }

  lemma NextFits(p: RetryPolicy, i: nat)
    requires p.backoffMs > 0 && p.maxBackoffMs > 0 && Fits(p, i + 2)
    requires 0 < Held(BaseNs(p), CapNs(p), i) == Ideal(p, i + 1) < CapNs(p).value
    ensures var h := Held(BaseNs(p), CapNs(p), i); Wrap(2 * h) == 2 * h
  {
    hide Held;
    var base, cap := p.backoffMs * NANOS_PER_MS, p.maxBackoffMs * NANOS_PER_MS;
    assert base * Pow2(i + 1) == 2 * (base * Pow2(i));
    WrapBounds(cap);
    MulMonotone(base, 1, Pow2(i));
    assert Held(BaseNs(p), CapNs(p), i) == base * Pow2(i);
    if cap > MAX_INT64 {
      WrapIdentity(base * Pow2(i + 1));
    } else if base <= MAX_INT64 {
      WrapIdentity(cap);
      WrapIdentity(2 * (base * Pow2(i)));
    }
  }
}
