/** The part of Go's `time` package that the update gate relies on:
    instants, the saturating `Time.Sub` (which `time.Since` uses) and
    `Duration.Hours`. Floating-point rounding is not modelled: hours are
    exact reals. */
module GoTime {

  /** An instant, in nanoseconds since Go's zero `time.Time`
      (January 1, year 1, 00:00:00 UTC). */
  type Instant = int

  /** The value `time.Time{}`. */
  const ZeroTime: Instant := 0

  /** A `time.Duration` is an int64 count of nanoseconds. */
  const MinDuration: int := -0x8000_0000_0000_0000
  const MaxDuration: int := 0x7FFF_FFFF_FFFF_FFFF

  type Duration = d: int | MinDuration <= d <= MaxDuration

  /** `time.Hour`, in nanoseconds. */
  const Hour: int := 3_600_000_000_000

  /** `t.Sub(u)`: the exact difference when it fits in a Duration,
      otherwise the bound on the side it overflows. */
  function Sub(t: Instant, u: Instant): (d: Duration)
    ensures d == t - u || (t - u > MaxDuration && d == MaxDuration) || (t - u < MinDuration && d == MinDuration)
    ensures d <= t - u <==> t - u >= MinDuration
    ensures d >= t - u <==> t - u <= MaxDuration
  {
    if t - u > MaxDuration then MaxDuration
    else if t - u < MinDuration then MinDuration
    else t - u
  }

  /** `time.Since(t)`, with the current instant `now` passed in. */
  function Since(now: Instant, t: Instant): (elapsed: Duration)
    ensures MinDuration <= now - t <= MaxDuration ==> elapsed == now - t
    ensures now - t > MaxDuration ==> elapsed == MaxDuration
    ensures now - t < MinDuration ==> elapsed == MinDuration
  {
    Sub(now, t)
  }

  /** `d.Hours()`, as an exact real. */
  function Hours(d: Duration): (h: real)
    ensures h * Hour as real == d as real
  {
    d as real / Hour as real
  }

  /** Comparing a duration's hours with a threshold is comparing its
      nanoseconds with the threshold in nanoseconds. */
  lemma HoursAtLeast(d: Duration, threshold: real)
    ensures Hours(d) >= threshold <==> d as real >= threshold * Hour as real
  {
  }
}
