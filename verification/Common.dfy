/** Types shared by all modules. */
module Common {

  datatype Option<+T> = None | Some(value: T)

  datatype Result<+T, +E> = Ok(value: T) | Err(error: E)

  /** Nanoseconds since the Unix epoch (section "Package time" of the Go library). */
  type Instant = int

  /** Nanoseconds; a signed 64-bit count in the program. */
  type Duration = int

  const SECOND: Duration := 1_000_000_000
  const HOUR: Duration := 3600 * SECOND

  const INT64_MIN: int := -0x8000_0000_0000_0000
  const INT64_MAX: int := 0x7FFF_FFFF_FFFF_FFFF
  const TWO_64: int := 0x1_0000_0000_0000_0000

  type int64 = x: int | INT64_MIN <= x <= INT64_MAX

  /** Two's-complement wrap-around of a signed 64-bit result. */
  function Wrap64(x: int): (r: int64)
    ensures (r - x) % TWO_64 == 0
    ensures INT64_MIN <= x <= INT64_MAX ==> r == x
  {
    (x - INT64_MIN) % TWO_64 + INT64_MIN
  }

  /** The zero value of time.Time: 1 January of year 1, 00:00 UTC. */
  const ZERO_TIME: Instant := -62_135_596_800_000_000_000

  lemma SubsetCount<T>(a: set<T>, b: set<T>)
    requires a <= b
    ensures |a| <= |b|
  {
    assert b == a + (b - a);
  }

  lemma ProperSubsetCount<T>(a: set<T>, b: set<T>)
    requires a < b
    ensures |a| < |b|
  {
    assert b == a + (b - a);
  }
}
