/** Calendar arithmetic on local wall-clock instants.

    An instant is the number of milliseconds from the epoch as read on the
    local clock, so that a calendar day is a block of exactly MsPerDay
    instants. This is the part of a JavaScript `Date` the scheduler uses:
    the calendar day of an instant, the start of that day (`setHours(0, 0, 0, 0)`)
    and "the same time of day, n days later" (`setDate(getDate() + n)`).
    Daylight-saving transitions are not modelled.
 */
module Calendar {

  type Instant = int

  const MsPerDay: int := 86_400_000

  /** The calendar day an instant falls in (day 0 starts at the epoch). */
  function DayOf(t: Instant): (d: int)
    ensures d * MsPerDay <= t < d * MsPerDay + MsPerDay
  {
    t / MsPerDay
  }

  /** Every instant of day d has day number d. */
  lemma DayOfWithin(t: Instant, d: int)
    requires d * MsPerDay <= t < d * MsPerDay + MsPerDay
    ensures DayOf(t) == d
  {
  }

  /** The first instant of t's day: it lies in the same day as t, and the
      instant just before it lies in the previous day. */
  function StartOfDay(t: Instant): (s: Instant)
    ensures s <= t
    ensures DayOf(s) == DayOf(t)
    ensures DayOf(s - 1) == DayOf(t) - 1
  {
    var d := DayOf(t);
    DayOfWithin(d * MsPerDay, d);
    DayOfWithin(d * MsPerDay - 1, d - 1);
    d * MsPerDay
  }

  /** The same time of day, n calendar days later. */
  function AddDays(t: Instant, n: int): (r: Instant)
    ensures DayOf(r) == DayOf(t) + n
    ensures r - StartOfDay(r) == t - StartOfDay(t)
  {
    DayOfWithin(t + n * MsPerDay, DayOf(t) + n);
    t + n * MsPerDay
  }

  /** Comparing the starts of two days is comparing the days. */
  lemma StartOfDayOrder(a: Instant, b: Instant)
    ensures StartOfDay(a) <= StartOfDay(b) <==> DayOf(a) <= DayOf(b)
  {
  }
}
