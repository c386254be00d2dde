/**
 * Instants as JavaScript `Date` values: milliseconds, read on the
 * America/Chicago wall clock so that a calendar day is a whole multiple of
 * `DayMs`. Calendar formatting is not modelled.
 */
module Dates {

  type Time = int

  const DayMs: int := 24 * 60 * 60 * 1000

  /** Midnight of the day containing `t`, as `moment.tz(t, zone).startOf('day')`. */
  function StartOfDay(t: Time): (d: Time)
    ensures d <= t < d + DayMs
    ensures d % DayMs == 0
  {
    t - t % DayMs
  }

  /** The last millisecond of the day containing `t`, as `endOf('day')`. */
  function EndOfDay(t: Time): (d: Time)
    ensures d - DayMs < t <= d
    ensures (d + 1) % DayMs == 0
  {
    StartOfDay(t) + DayMs - 1
  }

  /** Both day boundaries are fixed points: setting a date twice is setting it once. */
  lemma DayBoundsIdempotent(t: Time)
    ensures StartOfDay(StartOfDay(t)) == StartOfDay(t)
    ensures EndOfDay(EndOfDay(t)) == EndOfDay(t)
    ensures StartOfDay(EndOfDay(t)) == StartOfDay(t)
  {
    var d := StartOfDay(t);
    assert d % DayMs == 0;
    assert (d + DayMs - 1) % DayMs == DayMs - 1;
  }
}
