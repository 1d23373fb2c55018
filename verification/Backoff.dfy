/** The two retry delays: consumer.backoff and outbox.exponentialBackoff. */
module Backoff {
  import opened Prelude

  /** The textbook formula: the base doubled `attempt-1` times, capped. */
  function Capped(attempt: int, base: int, maximum: int): int {
    if attempt <= 1 then Min(base, maximum) else Min(base * Pow2(attempt - 1), maximum)
  }

  /** The one case in which the loop's early exit overshoots the formula by a nanosecond. */
  predicate OffByOne(attempt: int, base: int, maximum: int) {
    attempt >= 2 && base * Pow2(attempt - 1) == maximum - 1
  }

  /** What consumer.backoff returns, in closed form. */
  function Delay(attempt: int, base: int64, maximum: int64): (d: int64)
    requires base > 0 && maximum > 0
    ensures 0 < d <= maximum
  {
    if OffByOne(attempt, base, maximum) then maximum
    else
      assert attempt >= 2 ==> base * Pow2(attempt - 1) > 0;
      Capped(attempt, base, maximum)
  }

  lemma Doubling(base: int, i: nat)
    ensures base * Pow2(i + 1) == 2 * (base * Pow2(i))
  {
  }

  lemma ScaledMonotone(base: int, a: nat, b: nat)
    requires base > 0 && a <= b
    ensures 0 < base <= base * Pow2(a) <= base * Pow2(b)
  {
    Pow2Monotone(a, b);
    assert base * (Pow2(b) - Pow2(a)) >= 0;
    assert base * (Pow2(a) - 1) >= 0;
  }

  /**
   * consumer.backoff. Its variables have type int64, so verification shows that the doubling never
   * overflows; the postcondition is the closed form for every attempt.
   */
  method ConsumerBackoff(attempt: int, base: int64, maximum: int64) returns (d: int64)
    requires base > 0 && maximum > 0
    ensures d == Delay(attempt, base, maximum)
  {
    var delay: int64 := Min(base, maximum);
    var i: int := 1;
    while i < attempt
      invariant 1 <= i && (i <= attempt || i == 1)
      invariant i == 1 ==> delay == Min(base, maximum)
      invariant i > 1 ==> delay == base * Pow2(i - 1) && delay < maximum - 1
      decreases attempt - i
    {
      if delay >= maximum / 2 {
        EarlyExit(attempt, i, base, maximum, delay);
        return maximum;
      }
      assert delay == base * Pow2(i - 1);
      Doubling(base, i - 1);
      delay := delay * 2;
      i := i + 1;
    }
    return Min(delay, maximum);
  }

  lemma EarlyExit(attempt: int, i: int, base: int64, maximum: int64, delay: int)
    requires base > 0 && maximum > 0 && 1 <= i < attempt
    requires delay == Min(base * Pow2(i - 1), maximum) && delay >= maximum / 2
    ensures Delay(attempt, base, maximum) == maximum
  {
    Doubling(base, i - 1);
    ScaledMonotone(base, i, attempt - 1);
    assert base * Pow2(attempt - 1) >= maximum - 1;
  }

  /** The loop agrees with the formula except exactly in the off-by-one case. */
  lemma DelayIsCappedIff(attempt: int, base: int64, maximum: int64)
    requires base > 0 && maximum > 0
    ensures Delay(attempt, base, maximum) == Capped(attempt, base, maximum)
            <==> !OffByOne(attempt, base, maximum)
  {
  }

  lemma DelayIsMonotone(a: int, b: int, base: int64, maximum: int64)
    requires base > 0 && maximum > 0 && a <= b
    ensures Delay(a, base, maximum) <= Delay(b, base, maximum)
  {
    if b >= 2 {
      ScaledMonotone(base, if a >= 2 then a - 1 else 0, b - 1);
    }
  }

  /** The formula and the loop on a small case: three nanoseconds where doubling once gives two. */
  lemma OvershootsByOne()
    ensures Capped(2, 1, 3) == 2 && Delay(2, 1, 3) == 3
  {
    assert Pow2(1) == 2;
  }

  /** Integers below 2^53 are exact in float64. */
  const FLOAT_EXACT: int := 0x20_0000_0000_0000

  /**
   * outbox.exponentialBackoff. Go computes `base * 2^exponent` in float64. Below 2^53 nanoseconds the
   * base is exact, scaling it by a power of two is exact, and with an exponent of at most 10 the product
   * is below 2^63, so integers model it.
   */
  function ExponentialBackoff(attempt: int, base: int64, maximum: int64): (d: int)
    requires base < FLOAT_EXACT
  {
    var exponent := Min(Max(attempt - 1, 0), 10);
    Min(base * Pow2(exponent), maximum)
  }

  lemma Pow2Ten()
    ensures Pow2(10) == 1024 && Pow2(11) == 2048
  {
    assert Pow2(5) == 32;
    assert Pow2(10) == 1024;
  }

  /** No attempt reaches the off-by-one case. */
  ghost predicate NeverOffByOne(base: int64, maximum: int64) {
    forall attempt: int :: !OffByOne(attempt, base, maximum)
  }

  ghost predicate BackoffsAgree(base: int64, maximum: int64)
    requires 0 < base < FLOAT_EXACT && maximum > 0
  {
    forall attempt: int :: Delay(attempt, base, maximum) == ExponentialBackoff(attempt, base, maximum)
  }

  lemma BackoffsAgreeAt(attempt: int, base: int64, maximum: int64)
    requires 0 < base < FLOAT_EXACT && maximum > 0
    requires maximum <= base * 1024 && !OffByOne(attempt, base, maximum)
    ensures Delay(attempt, base, maximum) == ExponentialBackoff(attempt, base, maximum)
  {
    Pow2Ten();
    if attempt > 11 {
      ScaledMonotone(base, 10, attempt - 1);
    }
  }

  /**
   * The consumer's loop and the publisher's clamped exponent give the same delay for every attempt
   * exactly when the cap is within 2^10 of the base and the off-by-one case cannot occur.
   */
  lemma BackoffsAgreeIff(base: int64, maximum: int64)
    requires 0 < base < FLOAT_EXACT && maximum > 0
    ensures BackoffsAgree(base, maximum) <==> maximum <= base * 1024 && NeverOffByOne(base, maximum)
  {
    Pow2Ten();
    if maximum <= base * 1024 && NeverOffByOne(base, maximum) {
      forall attempt: int
        ensures Delay(attempt, base, maximum) == ExponentialBackoff(attempt, base, maximum)
      {
        BackoffsAgreeAt(attempt, base, maximum);
      }
    }
    if maximum > base * 1024 {
      assert Delay(12, base, maximum) != ExponentialBackoff(12, base, maximum);
    } else if attempt: int :| OffByOne(attempt, base, maximum) {
      assert Delay(attempt, base, maximum) == maximum;
      if attempt > 11 {
        ScaledMonotone(base, 10, attempt - 1);
        assert false;
      }
      assert ExponentialBackoff(attempt, base, maximum) == maximum - 1;
    }
  }

  /** With the configured one second and one minute they always agree. */
  lemma DefaultBackoffsAgree()
    ensures BackoffsAgree(SECOND, MINUTE)
  {
    forall attempt: int ensures !OffByOne(attempt, SECOND, MINUTE) {
      if attempt >= 2 {
        Doubling(SECOND, attempt - 2);
        assert SECOND * Pow2(attempt - 1) % 2 == 0;
      }
    }
    BackoffsAgreeIff(SECOND, MINUTE);
  }
}
