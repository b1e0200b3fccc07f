/**
  Wall-clock time as the components use it. A JavaScript `Date` built from a
  "YYYY-MM-DD" date and an "HH:MM" time is a timestamp counted in minutes from
  the start of day 0, `day * 1440 + minuteOfDay`; a calendar date is a day
  index. Month and year rollover are then plain arithmetic.
*/
module Clock {

  const MinutesPerHour: int := 60
  const MinutesPerDay: int := 1440

  /** An "HH:MM" time of day, as minutes since midnight. */
  type TimeOfDay = m: int | 0 <= m < 1440

  /** The calendar day of a timestamp. */
  function DayOf(t: int): int
  {
    t / MinutesPerDay
  }

  /** Minutes since midnight of a timestamp. */
  function MinuteOfDay(t: int): TimeOfDay
  {
    t % MinutesPerDay
  }

  /** `new Date(`${date}T${time}`)`: the timestamp of a time on a given day. */
  function At(day: int, time: TimeOfDay): (t: int)
    ensures DayOf(t) == day && MinuteOfDay(t) == time
  {
    day * MinutesPerDay + time
  }

  /** `getHours()`. */
  function HourOf(t: int): (h: int)
    ensures 0 <= h < 24
    ensures 60 * h <= MinuteOfDay(t) < 60 * h + 60
  {
    MinuteOfDay(t) / MinutesPerHour
  }

  /** `getMinutes()`. */
  function MinuteOfHour(t: int): (m: int)
    ensures 0 <= m < 60
    ensures MinuteOfDay(t) == 60 * HourOf(t) + m
  {
    MinuteOfDay(t) % MinutesPerHour
  }

  /** Midnight at the start of the timestamp's day. */
  function DayStart(t: int): (s: int)
    ensures s <= t < s + MinutesPerDay
    ensures MinuteOfDay(s) == 0 && DayOf(s) == DayOf(t)
  {
    t - MinuteOfDay(t)
  }

  /** `d.setHours(h, 0, 0, 0)`: the same day at `h` o'clock. */
  function SetHours(t: int, h: int): (r: int)
    requires 0 <= h < 24
    ensures DayOf(r) == DayOf(t) && MinuteOfDay(r) == 60 * h
  {
    DayStart(t) + 60 * h
  }

  /** Later timestamps never fall on earlier days. */
  lemma DayOfMono(t1: int, t2: int)
    requires t1 <= t2
    ensures DayOf(t1) <= DayOf(t2)
  {
  }

  /** A timestamp is its day start plus its minute of the day. */
  lemma Decompose(t: int)
    ensures t == DayOf(t) * MinutesPerDay + MinuteOfDay(t)
  {
  }
}
