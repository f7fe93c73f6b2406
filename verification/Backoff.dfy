/**
 Retry delays: exponential backoff with full jitter.  Durations are whole nanoseconds; the random draw
 is any real in [0, 1), and products are exact.
 */
module Backoff {

  const SECOND := 1_000_000_000
  const DEFAULT_BASE_DELAY := SECOND
  const DEFAULT_MAX_DELAY := 3600 * SECOND
  const MAX_SHIFT: nat := 30

  function Pow2(n: nat): (p: int)
    ensures p >= 1
  {
    if n == 0 then 1 else 2 * Pow2(n - 1)
  }

  function EffectiveBase(baseDelay: int): (d: int)
    ensures d > 0 && (baseDelay > 0 ==> d == baseDelay) && (baseDelay <= 0 ==> d == 1_000_000_000)
  {
    if baseDelay <= 0 then DEFAULT_BASE_DELAY else baseDelay
  }

  function EffectiveMax(maxDelay: int): (d: int)
    ensures d > 0 && (maxDelay > 0 ==> d == maxDelay) && (maxDelay <= 0 ==> d == 3_600_000_000_000)
  {
    if maxDelay <= 0 then DEFAULT_MAX_DELAY else maxDelay
  }

  /** The exponent: attempts up to 1 give none, and it is clamped. */
  function Shift(attempt: int): (shift: nat)
    ensures shift <= MAX_SHIFT
  {
    if attempt <= 1 then 0 else if attempt - 1 > MAX_SHIFT then MAX_SHIFT else attempt - 1
  }

  /** The bound the jitter is drawn below. */
  function Ceiling(attempt: int, baseDelay: int, maxDelay: int): (temp: int) {
    var temp := EffectiveBase(baseDelay) * Pow2(Shift(attempt));
    if temp > EffectiveMax(maxDelay) then EffectiveMax(maxDelay) else temp
  }

  function CalculateBackoff(attempt: int, baseDelay: int, maxDelay: int, draw: real): (delay: int)
    requires 0.0 <= draw < 1.0
  {
    var temp := Ceiling(attempt, baseDelay, maxDelay);
    if temp <= 0 then 0 else Jitter(draw, temp)
  }

  /** A duration is truncated towards zero; the product is never negative here. */
  function Jitter(draw: real, temp: int): int {
    (draw * temp as real).Floor
  }

  function Min(a: int, b: int): int {
    if a <= b then a else b
  }

  /** The ceiling as the documentation words it, without any clamp on the exponent. */
  function DocumentedCeiling(attempt: nat, baseDelay: int, maxDelay: int): int
    requires attempt >= 1
  {
    Min(if maxDelay <= 0 then 3_600_000_000_000 else maxDelay,
        (if baseDelay <= 0 then 1_000_000_000 else baseDelay) * Pow2(attempt - 1))
  }

  lemma {:induction false} Pow2Add(m: nat, n: nat)
    ensures Pow2(m + n) == Pow2(m) * Pow2(n)
  {
    if m > 0 {
      Pow2Add(m - 1, n);
      assert m + n - 1 == (m - 1) + n;
    }
  }

  lemma Pow2At30()
    ensures Pow2(30) == 1_073_741_824
  {
    assert Pow2(5) == 32;
    Pow2Add(5, 5);
    Pow2Add(10, 5);
    Pow2Add(15, 15);
  }

  lemma ProductBound(x: real, y: real)
    requires 0.0 <= x < 1.0 && y > 0.0
    ensures 0.0 <= x * y < y
  {
    assert (1.0 - x) * y > 0.0;
  }

  lemma JitterRange(draw: real, temp: int)
    requires 0.0 <= draw < 1.0 && temp > 0
    ensures 0 <= Jitter(draw, temp) < temp
  {
    ProductBound(draw, temp as real);
  }

  lemma QuotientTimes(x: real, y: real)
    requires 0.0 <= x < y
    ensures x / y * y == x && 0.0 <= x / y < 1.0
  {
    var q := x / y;
    assert q * y == x;
  }

  lemma JitterReached(temp: int, delay: int) returns (draw: real)
    requires 0 <= delay < temp
    ensures 0.0 <= draw < 1.0 && Jitter(draw, temp) == delay
  {
    QuotientTimes(delay as real, temp as real);
    draw := delay as real / temp as real;
  }

  lemma CeilingPositive(attempt: int, baseDelay: int, maxDelay: int)
    ensures 0 < Ceiling(attempt, baseDelay, maxDelay) <= EffectiveMax(maxDelay)
  {
    hide Pow2;
    TimesMonotone(EffectiveBase(baseDelay), 1, Pow2(Shift(attempt)));
  }

  /** Every delay lies in [0, ceiling), below the maximum. */
  lemma DelayRange(attempt: int, baseDelay: int, maxDelay: int, draw: real, delay: int)
    requires 0.0 <= draw < 1.0 && delay == CalculateBackoff(attempt, baseDelay, maxDelay, draw)
    ensures 0 <= delay < Ceiling(attempt, baseDelay, maxDelay) <= EffectiveMax(maxDelay)
  {
    hide Ceiling, Jitter, EffectiveMax;
    CeilingPositive(attempt, baseDelay, maxDelay);
    JitterRange(draw, Ceiling(attempt, baseDelay, maxDelay));
  }

  /** The jitter is full: each whole duration below the ceiling is the delay of some draw. */
  lemma DelayReached(attempt: int, baseDelay: int, maxDelay: int, delay: int) returns (draw: real)
    requires 0 <= delay < Ceiling(attempt, baseDelay, maxDelay)
    ensures 0.0 <= draw < 1.0 && CalculateBackoff(attempt, baseDelay, maxDelay, draw) == delay
  {
    hide Ceiling, Jitter;
    draw := JitterReached(Ceiling(attempt, baseDelay, maxDelay), delay);
  }

  lemma {:induction false} Pow2Monotone(m: nat, n: nat)
    requires m <= n
    ensures Pow2(m) <= Pow2(n)
    ensures m < n ==> Pow2(m) < Pow2(n)
    decreases n
  {
    if m < n {
      Pow2Monotone(m, n - 1);
    }
  }

  lemma TimesMonotone(base: int, a: int, b: int)
    requires base > 0 && a <= b
    ensures base * a <= base * b
    ensures a < b ==> base * a < base * b
  {
    assert base * (b - a) == base * b - base * a;
  }

  /** More attempts never lower the ceiling. */
  lemma CeilingMonotone(a: int, b: int, baseDelay: int, maxDelay: int)
    requires a <= b
    ensures Ceiling(a, baseDelay, maxDelay) <= Ceiling(b, baseDelay, maxDelay)
  {
    Pow2Monotone(Shift(a), Shift(b));
    TimesMonotone(EffectiveBase(baseDelay), Pow2(Shift(a)), Pow2(Shift(b)));
  }

  /**
   The clamp on the exponent is invisible at every attempt exactly when the base times 2^30 reaches the maximum,
   after the defaults of one second and one hour have been filled in.
   */
  lemma ClampInvisible(baseDelay: int, maxDelay: int)
    ensures (forall attempt: nat :: attempt >= 1 ==>
             Ceiling(attempt, baseDelay, maxDelay) == DocumentedCeiling(attempt, baseDelay, maxDelay))
       <==> (if baseDelay <= 0 then 1_000_000_000 else baseDelay) * 1_073_741_824
              >= if maxDelay <= 0 then 3_600_000_000_000 else maxDelay
  {
    Pow2At30();
    ClampBites(baseDelay, maxDelay);
  }

  lemma ClampBites(baseDelay: int, maxDelay: int)
    ensures (forall attempt: nat :: attempt >= 1 ==>
             Ceiling(attempt, baseDelay, maxDelay) == DocumentedCeiling(attempt, baseDelay, maxDelay))
       <==> EffectiveBase(baseDelay) * Pow2(30) >= EffectiveMax(maxDelay)
  {
    var base := EffectiveBase(baseDelay);
    if base * Pow2(30) >= EffectiveMax(maxDelay) {
      forall attempt: nat | attempt >= 1
        ensures Ceiling(attempt, baseDelay, maxDelay) == DocumentedCeiling(attempt, baseDelay, maxDelay)
      {
        if attempt - 1 > 30 {
          Pow2Monotone(30, attempt - 1);
          TimesMonotone(base, Pow2(30), Pow2(attempt - 1));
        }
      }
    } else {
      Pow2Monotone(30, 31);
      TimesMonotone(base, Pow2(30), Pow2(31));
      assert Ceiling(32, baseDelay, maxDelay) != DocumentedCeiling(32, baseDelay, maxDelay);
    }
  }

  /** With the default delays the ceiling is the documented one. */
  lemma DefaultsUnclamped(attempt: nat)
    requires attempt >= 1
    ensures Ceiling(attempt, 0, 0) == DocumentedCeiling(attempt, 0, 0)
  {
    hide Ceiling, DocumentedCeiling;
    ClampInvisible(0, 0);
  }

  /** The delays the engine asks for: below an hour, and below a second times 2^(attempt - 1). */
  lemma DefaultDelay(attempt: nat, draw: real, delay: int)
    requires attempt >= 1 && 0.0 <= draw < 1.0
    requires delay == CalculateBackoff(attempt, DEFAULT_BASE_DELAY, DEFAULT_MAX_DELAY, draw)
    ensures 0 <= delay < 3_600_000_000_000 && delay < 1_000_000_000 * Pow2(attempt - 1)
  {
    hide Pow2, CalculateBackoff;
    DefaultsUnclamped(attempt);
    DelayRange(attempt, DEFAULT_BASE_DELAY, DEFAULT_MAX_DELAY, draw, delay);
    assert Ceiling(attempt, DEFAULT_BASE_DELAY, DEFAULT_MAX_DELAY) == Ceiling(attempt, 0, 0);
  }
}
