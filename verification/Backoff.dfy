/** The delay before the next attempt (scheduler.go: backoff). Durations are whole nanoseconds in
    64 bits; the random number is a real between 0 and 1, or anything, since it is clamped. */
module Backoff {

  const MAX_DURATION := 0x7fff_ffff_ffff_ffff

  /** A duration as the program holds it: every sum and product of durations in NextDelay has to
      fit, or the program would wrap around. */
  newtype Duration = x: int | -MAX_DURATION - 1 <= x <= MAX_DURATION

  function Pow2(n: nat): nat {
    if n == 0 then 1 else 2 * Pow2(n - 1)
  }

  function Least(a: nat, b: nat): (m: nat)
    ensures m <= a && m <= b && m in {a, b}
  {
    if a <= b then a else b
  }

  /** The delay before jitter. */
  function Capped(base: nat, max: nat, attempt: nat): nat {
    Least(base * Pow2(attempt), max)
  }

  lemma {:induction false} Pow2Grows(m: nat, n: nat)
    requires m <= n
    ensures 1 <= Pow2(m) <= Pow2(n)
    decreases n
  {
    if m < n {
      Pow2Grows(m, n - 1);
    } else if n > 0 {
      Pow2Grows(n - 1, n - 1);
    }
  }

  lemma MulMonotone(b: nat, x: nat, y: nat)
    requires x <= y
    ensures b * x <= b * y
  {
  }

  /** Waiting longer after more attempts. */
  lemma CappedIsMonotone(base: nat, max: nat, m: nat, n: nat)
    requires m <= n
    ensures Capped(base, max, m) <= Capped(base, max, n)
  {
    Pow2Grows(m, n);
    MulMonotone(base, Pow2(m), Pow2(n));
  }

  function Clamp(value: real): (r: real)
    ensures 0.0 <= r <= 1.0
  {
    if value < 0.0 then 0.0 else if value > 1.0 then 1.0 else value
  }

  /** Between half of the delay and all of it. */
  function Jittered(delay: Duration, random: real): (r: Duration)
    requires delay >= 0
    ensures delay / 2 <= r <= delay
  {
    var minimum := delay / 2;
    ScaledIsWithin(delay as int - minimum as int, Clamp(random));
    minimum + ((delay - minimum) as real * Clamp(random)).Floor as Duration
  }

  lemma ScaledIsWithin(span: nat, value: real)
    requires 0.0 <= value <= 1.0
    ensures 0 <= (span as real * value).Floor <= span
  {
    assert 0.0 <= span as real * value <= span as real;
  }

  lemma Doubling(base: nat, max: nat, index: nat)
    requires Capped(base, max, index) < max
    ensures base * Pow2(index + 1) == 2 * Capped(base, max, index)
    ensures 2 * Capped(base, max, index) <= max ==> Capped(base, max, index + 1) == 2 * Capped(base, max, index)
    ensures 2 * Capped(base, max, index) >= max ==> Capped(base, max, index + 1) == max
  {
    var x := base * Pow2(index);
    assert base * (2 * Pow2(index)) == 2 * x;
  }

  lemma CappedStays(base: nat, max: nat, m: nat, n: nat)
    requires m <= n && Capped(base, max, m) == max
    ensures Capped(base, max, n) == max
  {
    CappedIsMonotone(base, max, m, n);
  }

  /** The jittered delay, computed within 64 bits. */
  method NextDelay(base: Duration, max: Duration, attempt: int, random: real) returns (delay: Duration, jittered: Duration)
    requires 0 < base <= max
    ensures delay as int == Capped(base as int, max as int, if attempt < 0 then 0 else attempt)
    ensures delay / 2 <= jittered <= delay
  {
    var wanted := if attempt < 0 then 0 else attempt;
    delay := base;
    var index := 0;
    ghost var reached := 0;
    while index < wanted && delay < max
      invariant 0 <= index == reached <= wanted && 0 < delay <= max
      invariant delay as int == Capped(base as int, max as int, index)
    {
      Doubling(base as int, max as int, index);
      if delay > max / 2 {
        delay, reached := max, index + 1;
        break;
      }
      delay := delay * 2;
      if delay > max {
        delay := max;
      }
      index := index + 1;
      reached := index;
    }
    if delay == max {
      CappedStays(base as int, max as int, reached, wanted);
    }
    jittered := Jittered(delay, random);
  }
}
