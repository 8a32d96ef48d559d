/**
 * The tokens-per-second figure shown while and after a generation runs,
 * `Math.round((tokenCount / elapsed) * 1000 * 100) / 100`, in exact arithmetic:
 * the rate is returned in hundredths of a token per second.
 */
module Metrics {
  import opened Wrappers

  /** Euclidean division bounds the dividend between two consecutive multiples. */
  lemma DivisionBounds(num: int, den: int)
    requires num >= 0 && den > 0
    ensures den * (num / den) <= num < den * (num / den) + den
  {
  }

  /** `Math.round(tokenCount * 100000 / elapsedMs)` on exact values: the nearest whole
      number of hundredths, halves rounded up as `Math.round` does. Written without
      fractions: r - 1/2 <= x < r + 1/2 for x = tokenCount * 100000 / elapsedMs,
      multiplied through by 2 * elapsedMs. */
  function RateHundredths(tokenCount: nat, elapsedMs: int): (r: nat)
    requires elapsedMs > 0
    ensures (2 * elapsedMs) * r <= 200000 * tokenCount + elapsedMs < (2 * elapsedMs) * r + 2 * elapsedMs
  {
    DivisionBounds(200000 * tokenCount + elapsedMs, 2 * elapsedMs);
    (200000 * tokenCount + elapsedMs) / (2 * elapsedMs)
  }

  /** The rate is the exact quotient tokens * 1000 / elapsed (per second), times 100,
      rounded to the nearest integer with halves going up. */
  lemma RateIsRoundedQuotient(tokenCount: nat, elapsedMs: int)
    requires elapsedMs > 0
    ensures var exact := (tokenCount as real) * 100000.0 / (elapsedMs as real);
            var r := RateHundredths(tokenCount, elapsedMs) as real;
            r - 0.5 <= exact < r + 0.5
  {
    var r := RateHundredths(tokenCount, elapsedMs);
    var n := 200000 * tokenCount;
    assert (2 * r - 1) * elapsedMs <= n < (2 * r + 1) * elapsedMs by {
      assert (2 * elapsedMs) * r <= n + elapsedMs < (2 * elapsedMs) * r + 2 * elapsedMs;
    }
    CastProduct(2 * r - 1, elapsedMs);
    CastProduct(2 * r + 1, elapsedMs);
    var rr, e := r as real, elapsedMs as real;
    HalveReal(2.0 * rr - 1.0, e, rr - 0.5);
    HalveReal(2.0 * rr + 1.0, e, rr + 0.5);
    QuotientBetween(rr - 0.5, (tokenCount as real) * 100000.0, rr + 0.5, e);
  }

  lemma HalveReal(x: real, e: real, h: real)
    requires h + h == x
    ensures h * e + h * e == x * e
  {
  }

  lemma QuotientBetween(lo: real, n: real, hi: real, e: real)
    requires e > 0.0 && lo * e <= n < hi * e
    ensures lo <= n / e < hi
  {
    var q := n / e;
    assert q * e == n;
    RealSign(lo - q, e);
    RealSignStrict(q - hi, e);
  }

  /** More tokens in the same time never give a lower rate. */
  lemma RateMonotoneInTokens(c1: nat, c2: nat, elapsedMs: int)
    requires elapsedMs > 0 && c1 <= c2
    ensures RateHundredths(c1, elapsedMs) <= RateHundredths(c2, elapsedMs)
  {
    var r1, r2, d := RateHundredths(c1, elapsedMs), RateHundredths(c2, elapsedMs), 2 * elapsedMs;
    assert d * r1 < d * (r2 + 1);
    LessByPositiveFactor(d, r1, r2 + 1);
  }

  /** The same tokens over a longer time never give a higher rate. */
  lemma RateAntitoneInTime(tokenCount: nat, e1: int, e2: int)
    requires 0 < e1 <= e2
    ensures RateHundredths(tokenCount, e2) <= RateHundredths(tokenCount, e1)
  {
    var r1, r2 := RateHundredths(tokenCount, e1), RateHundredths(tokenCount, e2);
    var n := 200000 * tokenCount;
    // r2 - 1/2 <= n / (2 * e2) <= n / (2 * e1) < r1 + 1/2
    assert (2 * r2 - 1) * e2 <= n by {
      assert (2 * e2) * r2 <= n + e2;
    }
    assert n < (2 * r1 + 1) * e1 by {
      assert n + e1 < (2 * e1) * r1 + 2 * e1;
    }
    if 2 * r2 - 1 >= 0 {
      MulMono(e1, e2, 2 * r2 - 1);
    }
    assert e1 * (2 * r2 - 1) < e1 * (2 * r1 + 1);
    LessByPositiveFactor(e1, 2 * r2 - 1, 2 * r1 + 1);
  }

  lemma LessByPositiveFactor(d: int, x: int, y: int)
    requires d > 0 && d * x < d * y
    ensures x < y
  {
  }

  lemma MulMono(a: int, b: int, c: int)
    requires a <= b && c >= 0
    ensures a * c <= b * c
  {
  }

  lemma CastProduct(a: int, b: int)
    ensures (a * b) as real == (a as real) * (b as real)
  {
  }

  lemma RealSign(x: real, e: real)
    requires e > 0.0 && x * e <= 0.0
    ensures x <= 0.0
  {
  }

  lemma RealSignStrict(x: real, e: real)
    requires e > 0.0 && x * e < 0.0
    ensures x < 0.0
  {
  }

  /** The figure `endGeneration` shows: only when at least one token arrived and
      some time has passed. */
  function FinalRate(tokenCount: nat, elapsedMs: int): (r: Option<nat>)
    ensures r.Some? <==> tokenCount > 0 && elapsedMs > 0
    ensures r.Some? ==> (2 * elapsedMs) * r.value <= 200000 * tokenCount + elapsedMs < (2 * elapsedMs) * r.value + 2 * elapsedMs
  {
    if tokenCount > 0 && elapsedMs > 0 then Some(RateHundredths(tokenCount, elapsedMs)) else None
  }

  /** The figure `updateStats` shows while streaming: it needs only some elapsed time. */
  function LiveRate(tokenCount: nat, elapsedMs: int): (r: Option<nat>)
    ensures r.Some? <==> elapsedMs > 0
    ensures r.Some? ==> (2 * elapsedMs) * r.value <= 200000 * tokenCount + elapsedMs < (2 * elapsedMs) * r.value + 2 * elapsedMs
  {
    if elapsedMs > 0 then Some(RateHundredths(tokenCount, elapsedMs)) else None
  }

  /** `this.startTime ? Date.now() - this.startTime : 0`: no elapsed time without a
      (truthy, so non-zero) start time. */
  function ElapsedSince(startTime: Option<int>, now: int): (e: int)
    ensures startTime.Some? && startTime.value != 0 ==> startTime.value + e == now
    ensures startTime.None? || startTime.value == 0 ==> e == 0
  {
    if startTime.Some? && startTime.value != 0 then now - startTime.value else 0
  }
}
