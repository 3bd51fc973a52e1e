/** How long a failed document waits for its next attempt. */
module Backoff {
  import opened Common

  function Pow15(n: nat): (p: real)
    ensures p >= 1.0
  {
    if n == 0 then 1.0 else 1.5 * Pow15(n - 1)
  }

  /** The delay the program computes for a record that has failed `retryCount` times before. */
  function RetryDelay(pollInterval: Duration, retryCount: nat): (d: int64) {
    CalcRetryDelay(pollInterval, 1 + retryCount)
  }

  /** The delay after each number of earlier failures. */
  function Delays(pollInterval: Duration): nat -> Duration {
    (retryCount: nat) => RetryDelay(pollInterval, retryCount)
  }

  /** The closure handed to processDocument: truncation of 1.5^(1+count), then a product that
      wraps like any 64-bit product. */
  function CalcRetryDelay(pollInterval: Duration, count: nat): (d: int64) {
    Wrap64(pollInterval * Pow15(1 + count).Floor)
  }

  lemma {:induction false} Pow15Add(a: nat, b: nat)
    ensures Pow15(a + b) == Pow15(a) * Pow15(b)
  {
    if a > 0 {
      Pow15Add(a - 1, b);
    }
  }

  lemma {:induction false} Pow15Monotone(a: nat, b: nat)
    requires a <= b
    ensures Pow15(a) <= Pow15(b)
    decreases b
  {
    if a < b {
      Pow15Monotone(a, b - 1);
    }
  }

  lemma Pow15At33()
    ensures 647_159.0 < Pow15(33) < 647_160.0
  {
    assert Pow15(4) == 5.0625;
    Pow15Add(4, 4);
    Pow15Add(8, 8);
    Pow15Add(16, 16);
    assert Pow15(33) == 1.5 * Pow15(32);
  }

  lemma FloorBounds(k: nat)
    requires k <= 31
    ensures 1 <= Pow15(k + 2).Floor <= 647_159
  {
    Pow15Monotone(k + 2, 33);
    Pow15At33();
  }

  lemma MulMonotone(a: int, b: int, c: int)
    requires a <= b && 0 <= c
    ensures a * c <= b * c && c * a <= c * b
  {
  }

  /** The delay before it is cut down to 64 bits. */
  function Product(pollInterval: Duration, retryCount: nat): int {
    pollInterval * Pow15(retryCount + 2).Floor
  }

  /** A delay that does not wrap around. */
  predicate ProductFits(pollInterval: Duration, retryCount: nat) {
    Product(pollInterval, retryCount) <= INT64_MAX
  }

  lemma FloorPositive(k: nat)
    ensures 1 <= Pow15(k + 2).Floor
  {
    assert Pow15(k + 2) >= 1.0;
  }

  lemma ProductSign(p: int, f: int)
    requires 1 <= f
    ensures 0 < p <==> 0 < p * f
  {
    if 0 < p {
      MulMonotone(1, f, p);
    } else {
      MulMonotone(p, 0, f);
    }
  }

  /** The delay is the poll interval times the truncated power, and a real wait, exactly when the
      interval is positive and the product fits 64 bits. */
  lemma DelayFitsIff(pollInterval: Duration, retryCount: nat)
    ensures 0 < RetryDelay(pollInterval, retryCount) == Product(pollInterval, retryCount) <==>
            0 < pollInterval && ProductFits(pollInterval, retryCount)
  {
    hide Pow15;
    FloorPositive(retryCount);
    ProductSign(pollInterval, Pow15(retryCount + 2).Floor);
  }

  /** If a delay fits, the earlier ones do. */
  lemma EarlierFit(pollInterval: Duration, k: nat, l: nat)
    requires 0 < pollInterval && k <= l && ProductFits(pollInterval, l)
    ensures ProductFits(pollInterval, k)
  {
    Pow15Monotone(k + 2, l + 2);
    MulMonotone(Pow15(k + 2).Floor, Pow15(l + 2).Floor, pollInterval);
  }

  /** Poll intervals of up to an hour fit for 32 failures, the range in which the program's
      floating-point power is exact. */
  lemma HourFits(pollInterval: Duration, retryCount: nat)
    requires 0 < pollInterval <= HOUR && retryCount <= 31
    ensures ProductFits(pollInterval, retryCount)
  {
    FloorBounds(retryCount);
    MulMonotone(pollInterval, HOUR, Pow15(retryCount + 2).Floor);
    MulMonotone(Pow15(retryCount + 2).Floor, 647_159, HOUR);
  }

  lemma Pow15At31()
    ensures Pow15(31).Floor == 287_626
  {
    Pow15At33();
    Pow15Add(31, 2);
    assert Pow15(2) == 2.25;
    assert 287_626.0 < Pow15(31) < 287_627.0;
  }

  /** With a poll interval of 13 hours the thirtieth delay wraps around and is negative. */
  lemma ThirteenHoursWrap()
    ensures RetryDelay(13 * HOUR, 29) < 0 && !ProductFits(13 * HOUR, 29)
  {
    hide Pow15;
    Pow15At31();
    assert Product(13 * HOUR, 29) == 13 * HOUR * 287_626;
  }

  lemma FloorIncreases(k: nat)
    ensures Pow15(k + 2).Floor + 1 <= Pow15(k + 3).Floor
  {
    Pow15Monotone(2, k + 2);
    assert Pow15(2) == 2.25;
    assert Pow15(k + 3) == 1.5 * Pow15(k + 2);
  }

  /** Every further failure waits at least one poll interval longer. */
  lemma DelayIncreases(pollInterval: Duration, k: nat)
    requires 0 < pollInterval && ProductFits(pollInterval, k + 1)
    ensures RetryDelay(pollInterval, k) + pollInterval <= RetryDelay(pollInterval, k + 1)
  {
    hide Pow15, RetryDelay, ProductFits;
    EarlierFit(pollInterval, k, k + 1);
    DelayFitsIff(pollInterval, k);
    DelayFitsIff(pollInterval, k + 1);
    FloorIncreases(k);
    assert k + 1 + 2 == k + 3;
    StepUp(pollInterval, Pow15(k + 2).Floor, Pow15(k + 3).Floor);
  }

  lemma StepUp(p: int, f: int, g: int)
    requires 0 < p && f + 1 <= g
    ensures p * f + p <= p * g
  {
    MulMonotone(f + 1, g, p);
  }

  /** The sum of the first m delays. */
  function TotalDelay(delay: nat -> Duration, m: nat): int {
    if m == 0 then 0 else TotalDelay(delay, m - 1) + delay(m - 1)
  }

  /** 4.5 * (1.5^m - 1) - m, the lower bound of the delays after m failures in poll intervals. */
  function TotalBound(m: nat): real {
    4.5 * (Pow15(m) - 1.0) - m as real
  }

  lemma TotalBoundStep(m: nat)
    ensures TotalBound(m + 1) == TotalBound(m) + Pow15(m + 2) - 1.0
  {
    assert Pow15(m + 1) == 1.5 * Pow15(m);
    assert Pow15(m + 2) == 1.5 * Pow15(m + 1);
  }

  lemma ScaledFloor(p: int, x: real)
    requires 0 < p
    ensures (p * x.Floor) as real > p as real * x - p as real
  {
    var f := x.Floor;
    assert (p * f) as real == p as real * f as real;
    assert f as real > x - 1.0;
    MulRealMonotone(x - 1.0, f as real, p as real);
  }

  lemma MulRealMonotone(a: real, b: real, c: real)
    requires a < b && 0.0 < c
    ensures c * a < c * b
  {
    assert c * (b - a) > 0.0;
  }

  /** What the delay after k earlier failures exceeds, for a poll interval p. */
  function Gain(p: real, k: nat): real {
    p * Pow15(k + 2) - p
  }

  /** P * (4.5 * (1.5^m - 1) - m) for a poll interval P. */
  function ScaledBound(p: real, m: nat): real {
    p * TotalBound(m)
  }

  lemma ScaledBoundStart(p: real)
    ensures ScaledBound(p, 0) == 0.0
  {
    assert TotalBound(0) == 0.0;
  }

  lemma ScaledBoundStep(p: real, m: nat)
    ensures ScaledBound(p, m + 1) == ScaledBound(p, m) + Gain(p, m)
  {
    TotalBoundStep(m);
    Distribute(p, TotalBound(m), Pow15(m + 2));
  }

  lemma DelayExceeds(pollInterval: Duration, k: nat)
    requires 0 < pollInterval && ProductFits(pollInterval, k)
    ensures RetryDelay(pollInterval, k) as real > Gain(pollInterval as real, k)
  {
    hide Pow15, RetryDelay, ProductFits;
    DelayFitsIff(pollInterval, k);
    ScaledFloor(pollInterval, Pow15(k + 2));
  }

  /** The same bound, one delay at a time. */
  function Lower(p: real, m: nat): real {
    if m == 0 then 0.0 else Lower(p, m - 1) + Gain(p, m - 1)
  }

  lemma {:induction false} LowerIsScaledBound(p: real, m: nat)
    ensures Lower(p, m) == ScaledBound(p, m)
  {
    hide Gain, ScaledBound;
    if m == 0 {
      ScaledBoundStart(p);
    } else {
      LowerIsScaledBound(p, m - 1);
      ScaledBoundStep(p, m - 1);
      assert m - 1 + 1 == m;
    }
  }

  lemma {:induction false} TotalDelayExceedsLower(p: real, delay: nat -> Duration, m: nat)
    requires forall k: nat | k < m :: delay(k) as real > Gain(p, k)
    ensures m > 0 ==> TotalDelay(delay, m) as real > Lower(p, m)
    ensures TotalDelay(delay, m) as real >= Lower(p, m)
  {
    hide Gain;
    if m > 0 {
      TotalDelayExceedsLower(p, delay, m - 1);
      assert delay(m - 1) as real > Gain(p, m - 1);
    }
  }

  lemma DelaysExceed(pollInterval: Duration, m: nat)
    requires 0 < pollInterval && 1 <= m && ProductFits(pollInterval, m - 1)
    ensures forall k: nat | k < m :: Delays(pollInterval)(k) as real > Gain(pollInterval as real, k)
  {
    forall k: nat | k < m
      ensures Delays(pollInterval)(k) as real > Gain(pollInterval as real, k)
    {
      EarlierFit(pollInterval, k, m - 1);
      DelayExceeds(pollInterval, k);
    }
  }

  /** The delays after m failures exceed 4.5 * (1.5^m - 1) - m poll intervals: truncation costs
      less than one poll interval each. */
  lemma TotalDelayBound(pollInterval: Duration, m: nat)
    requires 0 < pollInterval && 1 <= m && ProductFits(pollInterval, m - 1)
    ensures TotalDelay(Delays(pollInterval), m) as real > ScaledBound(pollInterval as real, m)
  {
    hide *;
    DelaysExceed(pollInterval, m);
    TotalDelayExceedsLower(pollInterval as real, Delays(pollInterval), m);
    LowerIsScaledBound(pollInterval as real, m);
  }

  lemma Distribute(p: real, a: real, b: real)
    ensures p * (a + b - 1.0) == p * a + p * b - p
  {
  }
}
