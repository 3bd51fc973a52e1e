/** How long the poller sleeps: clamping and jitter. */
module Delays {
  import opened Common
  import opened Errors

  datatype Options = Options(minDelay: int64, maxDelay: int64, jitter: real)

  /** Checks the options and fills in the default of the minimum delay. */
  method Prepare(o: Options, hasPoll: bool, hasNextDelay: bool) returns (r: Result<Options, Error>)
    ensures r.Ok? <==> hasPoll && hasNextDelay && 0.0 <= o.jitter <= 1.0
    ensures r.Ok? ==> r.value == o.(minDelay := r.value.minDelay) && r.value.minDelay != 0
                      && (o.minDelay != 0 ==> r.value == o) && (o.minDelay == 0 ==> r.value.minDelay == SECOND)
  {
    if !hasPoll {
      return Err(Wrapped("invalid argument", Other("Poll is required")));
    }
    if !hasNextDelay {
      return Err(Wrapped("invalid argument", Other("NextDelay is required")));
    }
    var opts := o;
    if opts.minDelay == 0 {
      opts := opts.(minDelay := SECOND);
    }
    if opts.jitter < 0.0 || opts.jitter > 1.0 {
      return Err(Wrapped("invalid argument", Other("Jitter must be in [0..1.0]")));
    }
    return Ok(opts);
  }

  /** The conversion of a real number to an integer: towards zero. */
  function Truncate(x: real): int {
    if x >= 0.0 then x.Floor else -((-x).Floor)
  }

  /** The wanted delay within the bounds; a maximum of 0 is none. */
  function Clamp(o: Options, wanted: int64): int64 {
    if wanted < o.minDelay then o.minDelay
    else if o.maxDelay != 0 && wanted > o.maxDelay then o.maxDelay
    else wanted
  }

  /** Multiplication, by name: only the lemmas named after it look inside. */
  function Times(a: real, b: real): real {
    a * b
  }

  /** A random factor between -jitter/2 and jitter/2. */
  function RandomFactor(jitter: real, random: real): real {
    Times(jitter, -0.5 + random)
  }

  function Scaled(delay: int, factor: real): int {
    Truncate(Times(delay as real, factor))
  }

  function DelayOf(o: Options, wanted: int64, random: real): int64 {
    var delay := Clamp(o, wanted);
    if o.jitter == 0.0 then delay else Wrap64(delay + Scaled(delay, RandomFactor(o.jitter, random)))
  }

  /** A random part of the jitter of a delay, rounded towards zero. */
  function Distortion(base: int64, jitter: real, random: real): int {
    Truncate(base as real * (jitter * (-0.5 + random)))
  }

  /** The delay for a base: the base itself without jitter, and else the distorted base. */
  predicate Distorted(base: int64, jitter: real, random: real, delay: int64) {
    delay == if jitter == 0.0 then base else Wrap64(base + Distortion(base, jitter, random))
  }

  method NextDelay(o: Options, wanted: int64, random: real) returns (delay: int64)
    requires 0.0 <= random < 1.0
    ensures delay == DelayOf(o, wanted, random)
    ensures wanted < o.minDelay ==> Distorted(o.minDelay, o.jitter, random, delay)
    ensures o.minDelay <= wanted && o.maxDelay != 0 && o.maxDelay < wanted ==> Distorted(o.maxDelay, o.jitter, random, delay)
    ensures o.minDelay <= wanted && (o.maxDelay == 0 || wanted <= o.maxDelay) ==> Distorted(wanted, o.jitter, random, delay)
  {
    hide Scaled, RandomFactor, Wrap64, Distorted;
    DelayFormula(o, wanted, random);
    delay := wanted;
    if delay < o.minDelay {
      delay := o.minDelay;
    } else if o.maxDelay != 0 && delay > o.maxDelay {
      delay := o.maxDelay;
    }
    if o.jitter == 0.0 {
      return;
    }
    var jitter := RandomFactor(o.jitter, random);
    delay := Wrap64(delay + Scaled(delay, jitter));
  }

  /** Options the poll loop can have: a minimum of at least a nanosecond and no smaller maximum. */
  predicate Sane(o: Options) {
    0.0 <= o.jitter <= 1.0 && 1 <= o.minDelay && (o.maxDelay != 0 ==> o.minDelay <= o.maxDelay)
  }

  lemma ClampBounds(o: Options, wanted: int64)
    requires Sane(o)
    ensures var d := Clamp(o, wanted); o.minDelay <= d && (o.maxDelay != 0 ==> d <= o.maxDelay)
  {
  }

  lemma TimesMonotone(a: real, b: real, c: real)
    requires a <= b && 0.0 <= c
    ensures Times(a, c) <= Times(b, c) && Times(c, a) <= Times(c, b)
  {
    assert (b - a) * c >= 0.0;
  }

  lemma TimesConstant(d: real)
    ensures Times(d, -0.5) == -(d / 2.0) && Times(d, 0.5) == d / 2.0 && Times(d, 0.0) == 0.0 == Times(0.0, d)
  {
  }

  lemma TimesLinear(d: real, half: real)
    ensures Times(d, -half) == -Times(d, half)
    ensures Times(1.0 - half, d) == d - Times(d, half) && Times(1.0 + half, d) == d + Times(d, half)
  {
  }

  /** Truncation towards zero never moves the delay further than the distortion did. */
  lemma TruncateBounds(x: real, r: real)
    requires -r <= x <= r
    ensures -r <= Truncate(x) as real <= r
  {
  }

  lemma RandomFactorBounds(jitter: real, random: real)
    requires 0.0 <= jitter <= 1.0 && 0.0 <= random < 1.0
    ensures -(jitter / 2.0) <= RandomFactor(jitter, random) <= jitter / 2.0
  {
    hide Times;
    TimesMonotone(-0.5, -0.5 + random, jitter);
    TimesMonotone(-0.5 + random, 0.5, jitter);
    TimesConstant(jitter);
  }

  lemma ScaledBounds(delay: int, factor: real, half: real)
    requires 0 <= delay && -half <= factor <= half
    ensures -Times(delay as real, half) <= Scaled(delay, factor) as real <= Times(delay as real, half)
  {
    hide Times, Truncate;
    var d := delay as real;
    TimesMonotone(-half, factor, d);
    TimesMonotone(factor, half, d);
    TimesLinear(d, half);
    TruncateBounds(Times(d, factor), Times(d, half));
  }

  /** The minimum delay, shortened by half the jitter. */
  function Shortest(o: Options): real {
    Times(1.0 - o.jitter / 2.0, o.minDelay as real)
  }

  /** The maximum delay, extended by half the jitter. */
  function Longest(o: Options): real {
    Times(1.0 + o.jitter / 2.0, o.maxDelay as real)
  }

  /** What a distortion of at most `half` does to a delay of at least `min`. */
  lemma DistortedBounds(d: real, shift: real, half: real, min: real, max: real)
    requires 0.0 <= half <= 0.5 && 0.0 < min <= d <= max && -Times(d, half) <= shift <= Times(d, half)
    ensures d / 2.0 <= d + shift && -d < shift < d
    ensures Times(1.0 - half, min) <= d + shift <= Times(1.0 + half, max)
  {
    hide Times;
    TimesMonotone(half, 0.5, d);
    TimesConstant(d);
    TimesLinear(d, half);
    TimesMonotone(min, d, 1.0 - half);
    TimesMonotone(d, max, 1.0 + half);
  }

  /** The distorted delay fits 64 bits. */
  predicate Fits(o: Options, wanted: int64, random: real) {
    Clamp(o, wanted) + Scaled(Clamp(o, wanted), RandomFactor(o.jitter, random)) <= INT64_MAX
  }

  lemma NoJitterNoShift(delay: int, random: real)
    ensures Scaled(delay, RandomFactor(0.0, random)) == 0
  {
    hide Times;
    TimesConstant(-0.5 + random);
    TimesConstant(delay as real);
  }

  lemma ShiftedBounds(o: Options, delay: int, shift: int)
    requires Sane(o) && o.minDelay <= delay && (o.maxDelay != 0 ==> delay <= o.maxDelay)
    requires -Times(delay as real, o.jitter / 2.0) <= shift as real <= Times(delay as real, o.jitter / 2.0)
    ensures 1 <= delay + shift && -delay <= shift <= delay && Shortest(o) <= (delay + shift) as real
    ensures o.maxDelay != 0 ==> (delay + shift) as real <= Longest(o)
  {
    hide Times;
    var max := if o.maxDelay != 0 then o.maxDelay else delay;
    DistortedBounds(delay as real, shift as real, o.jitter / 2.0, o.minDelay as real, max as real);
    assert (delay + shift) as real == delay as real + shift as real;
  }

  lemma WrapsBelowZero(x: int)
    requires INT64_MAX < x <= 2 * INT64_MAX
    ensures Wrap64(x) < 0
  {
  }

  /** A jittered delay stays within half the jitter of the bounds and is at least a nanosecond,
      since rounding is towards the clamped delay; unless it does not fit 64 bits, and then it is
      negative. */
  lemma DelayBounds(o: Options, wanted: int64, random: real)
    requires Sane(o) && 0.0 <= random < 1.0
    ensures var d := DelayOf(o, wanted, random);
            Fits(o, wanted, random) <==>
              && 1 <= d
              && Shortest(o) <= d as real
              && (o.maxDelay != 0 ==> d as real <= Longest(o))
  {
    hide Clamp, Scaled, RandomFactor, Times, Shortest, Longest, Wrap64;
    var delay := Clamp(o, wanted);
    var shift := Scaled(delay, RandomFactor(o.jitter, random));
    ClampBounds(o, wanted);
    RandomFactorBounds(o.jitter, random);
    ScaledBounds(delay, RandomFactor(o.jitter, random), o.jitter / 2.0);
    NoJitterNoShift(delay, random);
    ShiftedBounds(o, delay, shift);
    if delay + shift > INT64_MAX {
      WrapsBelowZero(delay + shift);
    }
  }

  // ---------------------------------------------------------------- what the delay is

  /** Truncation drops the fraction: it keeps the sign and comes less than 1 nearer to zero. */
  lemma TruncateMeaning(x: real)
    ensures 0.0 <= x ==> 0.0 <= Truncate(x) as real <= x < Truncate(x) as real + 1.0
    ensures x <= 0.0 ==> Truncate(x) as real - 1.0 < x <= Truncate(x) as real <= 0.0
  {
  }

  /** A wanted delay within the bounds is distorted itself, any other the bound it exceeds. */
  lemma DelayFormula(o: Options, wanted: int64, random: real)
    ensures var d := DelayOf(o, wanted, random);
            if wanted < o.minDelay then Distorted(o.minDelay, o.jitter, random, d)
            else if o.maxDelay != 0 && o.maxDelay < wanted then Distorted(o.maxDelay, o.jitter, random, d)
            else Distorted(wanted, o.jitter, random, d)
  {
    hide Distortion, Wrap64, Scaled, RandomFactor;
    ScaledIs(Clamp(o, wanted), o.jitter, random);
  }

  /** Within half the jitter of the base, exactly the base without jitter, and negative if the
      distorted base does not fit 64 bits. */
  predicate Near(base: int64, jitter: real, random: real, delay: int64) {
    if jitter == 0.0 then delay == base
    else if base + Distortion(base, jitter, random) > INT64_MAX then delay < 0
    else (1.0 - jitter / 2.0) * base as real <= delay as real <= (1.0 + jitter / 2.0) * base as real
  }

  /** A distorted delay stays within half the jitter of its base, or it does not fit 64 bits, and
      then it is negative. */
  lemma DistortedMeaning(base: int64, jitter: real, random: real, delay: int64)
    requires 0 < base && 0.0 <= jitter <= 1.0 && 0.0 <= random < 1.0 && Distorted(base, jitter, random, delay)
    ensures Near(base, jitter, random, delay)
  {
    hide Distortion, Wrap64;
    var o, shift := Options(base, base, jitter), Scaled(base, RandomFactor(jitter, random));
    ScaledIs(base, jitter, random);
    RandomFactorBounds(jitter, random);
    ScaledBounds(base, RandomFactor(jitter, random), jitter / 2.0);
    ShiftedBounds(o, base, shift);
    NoJitterNoShift(base, random);
    if base + shift > INT64_MAX {
      WrapsBelowZero(base + shift);
    }
  }

  lemma ScaledIs(base: int64, jitter: real, random: real)
    ensures Scaled(base, RandomFactor(jitter, random)) == Distortion(base, jitter, random)
  {
  }

  /** The delay is near the wanted one if that is within the bounds, and else near the bound. */
  lemma DelayIsNear(o: Options, wanted: int64, random: real)
    requires Sane(o) && 0.0 <= random < 1.0
    ensures var d := DelayOf(o, wanted, random);
            && (wanted < o.minDelay ==> Near(o.minDelay, o.jitter, random, d))
            && (o.maxDelay != 0 && o.maxDelay < wanted ==> Near(o.maxDelay, o.jitter, random, d))
            && (o.minDelay <= wanted && (o.maxDelay == 0 || wanted <= o.maxDelay) ==> Near(wanted, o.jitter, random, d))
  {
    hide Near, Distorted, DelayOf;
    DelayFormula(o, wanted, random);
    var base := if wanted < o.minDelay then o.minDelay else if o.maxDelay != 0 && o.maxDelay < wanted then o.maxDelay else wanted;
    DistortedMeaning(base, o.jitter, random, DelayOf(o, wanted, random));
  }

  /** The cataloger's poll interval of a minute is slept as it is at the centre of the jitter. */
  lemma MinuteStaysMinute()
    ensures DelayOf(Options(10 * SECOND, HOUR, 0.1), 60 * SECOND, 0.5) == 60 * SECOND
  {
  }

  // ---------------------------------------------------------------- when every distortion fits

  /** The clamped delay extended by half the jitter stays within 2^63. */
  predicate InRange(o: Options, wanted: int64) {
    Times(Clamp(o, wanted) as real, o.jitter / 2.0) <= (INT64_MAX + 1 - Clamp(o, wanted)) as real
  }

  lemma TimesStrict(a: real, b: real, c: real)
    requires a < b && 0.0 < c
    ensures Times(c, a) < Times(c, b)
  {
    assert (b - a) * c > 0.0;
  }

  lemma TimesQuotient(a: real, b: real)
    requires b > 0.0
    ensures Times(b, a / b) == a
  {
  }

  /** A distortion never quite reaches half the jitter. */
  lemma ScaledBelow(delay: int, jitter: real, random: real, m: int)
    requires 0 < delay && 0.0 <= jitter <= 1.0 && 0.0 <= random < 1.0 && 1 <= m
    requires Times(delay as real, jitter / 2.0) <= m as real
    ensures Scaled(delay, RandomFactor(jitter, random)) < m
  {
    hide Times, RandomFactor;
    var d, f := delay as real, RandomFactor(jitter, random);
    if jitter > 0.0 {
      FactorBelow(jitter, random);
      TimesStrict(f, jitter / 2.0, d);
      TruncateBelow(Times(d, f), m);
    } else {
      NoJitterNoShift(delay, random);
    }
  }

  lemma FactorBelow(jitter: real, random: real)
    requires 0.0 < jitter && random < 1.0
    ensures RandomFactor(jitter, random) < jitter / 2.0
  {
    hide Times;
    TimesStrict(-0.5 + random, 0.5, jitter);
    TimesConstant(jitter);
  }

  lemma TruncateBelow(x: real, m: int)
    requires x < m as real && 1 <= m
    ensures Truncate(x) < m
  {
  }

  /** A random number for which the distortion is exactly m. */
  lemma ReachedDistortion(delay: int, jitter: real, m: int) returns (random: real)
    requires 0 < delay && 0.0 <= jitter <= 1.0 && 1 <= m && Times(delay as real, jitter / 2.0) > m as real
    ensures 0.0 <= random < 1.0 && Scaled(delay, RandomFactor(jitter, random)) == m
  {
    hide Times;
    var d := delay as real;
    TimesConstant(d);
    assert jitter > 0.0;
    var f := m as real / d;
    TimesQuotient(m as real, d);
    if f >= jitter / 2.0 {
      TimesMonotone(jitter / 2.0, f, d);
    }
    var q := f / jitter;
    TimesQuotient(f, jitter);
    if q >= 0.5 {
      TimesMonotone(0.5, q, jitter);
      TimesConstant(jitter);
    }
    if q < 0.0 {
      TimesMonotone(q, 0.0, jitter);
      TimesConstant(jitter);
      TimesMonotone(f, 0.0, d);
    }
    random := 0.5 + q;
    assert RandomFactor(jitter, random) == f;
  }

  /** Every distortion of a delay fits 64 bits exactly when the delay, extended by half the
      jitter, stays within 2^63. */
  lemma AllFitIff(o: Options, wanted: int64)
    requires Sane(o)
    ensures (forall random | 0.0 <= random < 1.0 :: Fits(o, wanted, random)) <==> InRange(o, wanted)
  {
    hide Clamp, Scaled, RandomFactor, Times;
    var delay := Clamp(o, wanted);
    ClampBounds(o, wanted);
    if InRange(o, wanted) {
      forall random | 0.0 <= random < 1.0
        ensures Fits(o, wanted, random)
      {
        ScaledBelow(delay, o.jitter, random, INT64_MAX + 1 - delay);
      }
    } else {
      var random := ReachedDistortion(delay, o.jitter, INT64_MAX + 1 - delay);
      assert !Fits(o, wanted, random);
    }
  }

  /** Shorter delays are in range if longer ones are. */
  lemma InRangeBelow(o: Options, wanted: int64, longer: int64)
    requires Sane(o) && wanted <= longer && InRange(o, longer)
    ensures InRange(o, wanted)
  {
    hide Times;
    TimesMonotone(Clamp(o, wanted) as real, Clamp(o, longer) as real, o.jitter / 2.0);
  }

  /** With a maximum, the options alone decide whether all delays are in range. */
  lemma MaximumDecides(o: Options)
    requires Sane(o) && o.maxDelay != 0
    ensures (forall wanted: int64 :: InRange(o, wanted)) <==> Longest(o) <= INT64_MAX as real + 1.0
  {
    hide Times;
    TimesLinear(o.maxDelay as real, o.jitter / 2.0);
    assert Clamp(o, INT64_MAX) == o.maxDelay;
    if InRange(o, INT64_MAX) {
      forall wanted: int64
        ensures InRange(o, wanted)
      {
        InRangeBelow(o, wanted, INT64_MAX);
      }
    }
  }

  /** The poll loops of the program: the cataloger's bounds, whatever its flag asks for, and the
      pruner's hourly delay without a maximum. */
  lemma ProgramDelaysInRange()
    ensures forall wanted: int64 :: InRange(Options(10 * SECOND, HOUR, 0.1), wanted)
    ensures InRange(Options(SECOND, 0, 0.1), HOUR)
  {
    var o := Options(10 * SECOND, HOUR, 0.1);
    assert Longest(o) <= INT64_MAX as real + 1.0;
    MaximumDecides(o);
  }

  /** Without a maximum, a wanted delay of 2^63 - 1 ns may come out negative. */
  lemma LongDelayWraps()
    ensures Sane(Options(1, 0, 1.0)) && DelayOf(Options(1, 0, 1.0), INT64_MAX, 0.75) < 0
  {
    assert RandomFactor(1.0, 0.75) == 0.25;
    assert INT64_MAX as real * 0.25 >= 2_000_000_000_000_000_000.0;
    WrapsBelowZero(INT64_MAX + Scaled(INT64_MAX, 0.25));
  }
}
