/** The capped exponential delay between failed automatic renewals (config/config.go). */
module Backoff {

  /** One past the largest signed 64-bit value; durations are 64-bit nanosecond counts. */
  const TWO_63 := 0x8000_0000_0000_0000

  predicate Int64(x: int) { -TWO_63 <= x < TWO_63 }

  /** Two's-complement doubling of a 64-bit signed value. */
  function WrappingDouble(x: int): (w: int)
    ensures Int64(x) ==> Int64(w) && (w == 2 * x || w == 2 * x - 2 * TWO_63 || w == 2 * x + 2 * TWO_63)
    ensures Int64(2 * x) ==> w == 2 * x
  {
    if 2 * x >= TWO_63 then 2 * x - 2 * TWO_63
    else if 2 * x < -TWO_63 then 2 * x + 2 * TWO_63
    else 2 * x
  }

  /** What the doubling loop still returns when it is at counter `i` holding `backoff`. */
  function Resume(backoff: int, max: int, i: int, n: int): int
    decreases n - i
  {
    if i < n then
      if backoff >= max then max else Resume(WrappingDouble(backoff), max, i + 1, n)
    else if backoff > max then max
    else backoff
  }

  /** The delay after `failures` consecutive failures, 64-bit wrap-around included. */
  function Duration(base: int, max: int, failures: int): int
  {
    Resume(base, max, 1, if failures < 1 then 1 else failures)
  }

  method AutoRenewBackoffDuration(base: int, max: int, consecutiveFailures: int) returns (delay: int)
    ensures delay == Duration(base, max, consecutiveFailures)
  {
    var n := consecutiveFailures;
    if n < 1 {
      n := 1;
    }
    var backoff := base;
    var i := 1;
    while i < n
      invariant 1 <= i <= n
      invariant Resume(backoff, max, i, n) == Duration(base, max, consecutiveFailures)
    {
      if backoff >= max {
        return max;
      }
      backoff := WrappingDouble(backoff);
      i := i + 1;
    }
    if backoff > max {
      return max;
    }
    return backoff;
  }

  /** `base` doubled `k` times, that is base * 2^k. */
  function Doubled(base: int, k: nat): int
  {
    if k == 0 then base else 2 * Doubled(base, k - 1)
  }

  /** The reference definition: base * 2^(n-1), capped at max. */
  function Capped(base: int, max: int, failures: int): int
  {
    var p := Doubled(base, if failures < 1 then 0 else failures - 1);
    if p < max then p else max
  }

  /** How many doublings take `base` to `max`: the logarithm of max/base, rounded up. */
  function Ramp(base: int, max: int): (k: nat)
    requires 0 < base
    decreases max - base
  {
    if base >= max then 0 else 1 + Ramp(2 * base, max)
  }

  /** The first of base, 2*base, 4*base, ... that reaches `max` is representable. */
  predicate RampFits(base: int, max: int)
    requires 0 < base
  {
    Doubled(base, Ramp(base, max)) < TWO_63
  }

  lemma {:induction false} DoubledFromBelow(base: int, k: nat)
    ensures Doubled(base, k + 1) == Doubled(2 * base, k)
  {
    if k > 0 {
      DoubledFromBelow(base, k - 1);
    }
  }

  lemma {:induction false} DoubledGrows(base: int, j: nat, k: nat)
    requires 0 < base && j <= k
    ensures 0 < Doubled(base, j) <= Doubled(base, k)
    decreases k
  {
    if k == 0 {
    } else if j == k {
      DoubledGrows(base, j - 1, k - 1);
    } else {
      DoubledGrows(base, j, k - 1);
    }
  }

  /** Ramp counts exactly the doublings that are still below the cap. */
  lemma {:induction false} RampExact(base: int, max: int, k: nat)
    requires 0 < base
    ensures k < Ramp(base, max) <==> Doubled(base, k) < max
    decreases max - base
  {
    if base >= max {
      DoubledGrows(base, 0, k);
    } else if k > 0 {
      DoubledFromBelow(base, k - 1);
      RampExact(2 * base, max, k - 1);
    }
  }

  /** As long as nothing overflows, `k` turns of the loop double the delay `k` times. */
  lemma {:induction false} ResumeSteps(base: int, max: int, k: nat, n: int)
    requires 0 < base && 1 + k <= n
    requires k <= Ramp(base, max) && Doubled(base, k) < TWO_63
    ensures Resume(base, max, 1, n) == Resume(Doubled(base, k), max, 1 + k, n)
  {
    if k > 0 {
      RampExact(base, max, k - 1);
      DoubledGrows(base, k - 1, k);
      ResumeSteps(base, max, k - 1, n);
    }
  }

  /** The delay climbs through the exact doublings and then stays at the cap for good. */
  lemma {:induction false} RampThenCap(base: int, max: int, n: int)
    requires 0 < base && RampFits(base, max)
    ensures 1 <= n <= Ramp(base, max) ==> Duration(base, max, n) == Doubled(base, n - 1) < max
    ensures 1 <= n && Ramp(base, max) < n ==> Duration(base, max, n) == max
    ensures Duration(base, max, n) == Capped(base, max, n)
  {
    var m := if n < 1 then 1 else n;
    var r := Ramp(base, max);
    RampExact(base, max, m - 1);
    if m - 1 < r {
      DoubledGrows(base, m - 1, r);
      ResumeSteps(base, max, m - 1, m);
    } else {
      ResumeSteps(base, max, r, m);
      RampExact(base, max, r);
    }
  }

  /**
   The loop agrees with the capped power of two for every failure count exactly when
   the first doubling that reaches the cap fits in a signed 64-bit integer.
   */
  lemma {:induction false} DurationIsCappedIff(base: int, max: int)
    requires 0 < base && Int64(base) && 0 < max && Int64(max)
    ensures (forall n: int :: Duration(base, max, n) == Capped(base, max, n)) <==> RampFits(base, max)
  {
    if RampFits(base, max) {
      forall n: int ensures Duration(base, max, n) == Capped(base, max, n) {
        RampThenCap(base, max, n);
      }
    } else {
      OverflowShows(base, max);
    }
  }

  /** One failure too many for a cap that does not fit gives a negative delay. */
  lemma {:induction false} OverflowShows(base: int, max: int)
    requires 0 < base && Int64(base) && 0 < max && Int64(max)
    requires !RampFits(base, max)
    ensures Duration(base, max, Ramp(base, max) + 1) < 0 < Capped(base, max, Ramp(base, max) + 1)
  {
    var r := Ramp(base, max);
    assert r > 0;
    RampExact(base, max, r - 1);
    RampExact(base, max, r);
    ResumeSteps(base, max, r - 1, r + 1);
    var last := Doubled(base, r - 1);
    assert Resume(last, max, r, r + 1) == Resume(WrappingDouble(last), max, r + 1, r + 1);
    DoubledGrows(base, 0, r);
  }

  /** Bases and caps of at most 2^62 ns (about 146 years) always fit. */
  lemma {:induction false} SmallCapsFit(base: int, max: int)
    requires 0 < base <= TWO_63 / 2 && max <= TWO_63 / 2
    ensures RampFits(base, max)
  {
    var r := Ramp(base, max);
    if r > 0 {
      RampExact(base, max, r - 1);
    }
  }

  /** More failures never shorten the delay. */
  lemma {:induction false} DurationMonotone(base: int, max: int, m: int, n: int)
    requires 0 < base && RampFits(base, max)
    requires m <= n
    ensures Duration(base, max, m) <= Duration(base, max, n)
  {
    RampThenCap(base, max, m);
    RampThenCap(base, max, n);
    DoubledGrows(base, if m < 1 then 0 else m - 1, if n < 1 then 0 else n - 1);
  }
}
