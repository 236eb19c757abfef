/** Date-times of the backend. The backend stores naive date-times; the model counts them in whole
    seconds from a fixed epoch, so an instant is an integer and a time difference is a subtraction. */
module Timestamps {

  type Instant = int

  const SecondsPerDay: int := 86400

  /** The `.days` field of the difference `later - earlier`: the number of whole days in the span,
      rounded toward minus infinity, as Python's timedelta normalises it. */
  function WholeDays(earlier: Instant, later: Instant): (d: int)
    ensures d * SecondsPerDay <= later - earlier < (d + 1) * SecondsPerDay
    ensures earlier <= later ==> d >= 0
    ensures later < earlier ==> d < 0
  {
    (later - earlier) / SecondsPerDay
  }

  /** The whole-day count is determined by its bounds: a span of exactly `n` days counts `n` days. */
  lemma WholeDaysOfExactSpan(start: Instant, n: int)
    ensures WholeDays(start, start + n * SecondsPerDay) == n
  {
  }

  /** The day count never decreases as the later instant moves later. */
  lemma WholeDaysMonotonic(earlier: Instant, later: Instant, later': Instant)
    requires later <= later'
    ensures WholeDays(earlier, later) <= WholeDays(earlier, later')
  {
  }
}
