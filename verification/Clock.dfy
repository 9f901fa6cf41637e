/** Time as the service and its two stores keep it.

    The service works with nanoseconds. Redis text fields (RFC 3339 without a
    fraction) and MySQL DATETIME columns keep whole seconds only, and they get
    there in different ways: the text drops the fraction, the column rounds. */
module Clock {

  /** Nanoseconds since 1970-01-01T00:00:00Z. */
  type Instant = int

  /** A length of time in nanoseconds. */
  type Duration = int

  const SECOND: Duration := 1_000_000_000

  /** The zero `time.Time` (year 1), which the service reads as "not set". */
  const ZERO_TIME: Instant := -62_135_596_800_000_000_000

  function Seconds(n: int): Duration {
    n * 1_000_000_000
  }

  /** `Time.Unix()`: the second an instant falls in. */
  function Unix(t: Instant): int {
    t / 1_000_000_000
  }

  /** `parseTime(formatTime(t))`: the text keeps no fraction of a second. */
  function WholeSecond(t: Instant): (w: Instant)
    ensures w <= t < w + SECOND
    ensures Unix(w) == Unix(t)
  {
    t / 1_000_000_000 * 1_000_000_000
  }

  /** A value written to a DATETIME column and read back: rounded half up. */
  function Stored(t: Instant): (s: Instant)
    ensures WholeSecond(t) <= s <= WholeSecond(t) + SECOND
    ensures WholeSecond(s) == s
    ensures t - SECOND < s <= t + SECOND
  {
    (t + 500_000_000) / 1_000_000_000 * 1_000_000_000
  }

  /** `durationSeconds`: whole seconds towards zero, but a positive time never
      becomes zero seconds. */
  function DurationSeconds(ttl: Duration): (s: int)
    ensures ttl > 0 ==> s >= 1
    ensures ttl >= SECOND ==> Seconds(s) <= ttl < Seconds(s) + SECOND
    ensures ttl <= 0 ==> s <= 0
  {
    if ttl <= 0 then -(-ttl / 1_000_000_000)
    else if ttl / 1_000_000_000 == 0 then 1
    else ttl / 1_000_000_000
  }

  /** Dropping the fraction never goes below a whole second already passed. */
  lemma WholeSecondFloor(w: Instant, t: Instant)
    requires WholeSecond(w) == w <= t
    ensures w <= WholeSecond(t)
  {
  }
}
