/**
 * Wall-clock time as integer seconds in the device's local time, in place of
 * Foundation's `Date` and `Calendar`. A day is 86400 seconds (no time zones,
 * no daylight-saving transitions).
 */
module Clock {

  const Minute: int := 60
  const Hour: int := 3600
  const Day: int := 86400

  /** A weekday component as `Calendar` reports it: 1 (Sunday) to 7 (Saturday). */
  type Weekday = w: int | 1 <= w <= 7 witness 1

  /** A day-of-month component: days are numbered from 1. */
  type DayOfMonth = d: int | 1 <= d witness 1

  /** `calendar.startOfDay(for: t)`: midnight of the day holding `t`. */
  function StartOfDay(t: int): (r: int)
    ensures r <= t < r + Day
    ensures r % Day == 0
  {
    t - t % Day
  }

  /** `calendar.component(.hour, from: t)`: the hour of the day holding `t`. */
  function HourOf(t: int): (h: int)
    ensures 0 <= h < 24
    ensures StartOfDay(t) + h * Hour <= t < StartOfDay(t) + (h + 1) * Hour
  {
    (t % Day) / Hour
  }

  /** `calendar.date(bySettingHour: hour, minute: minute, second: second, of: t)`. */
  function SettingTime(t: int, hour: int, minute: int, second: int): int
  {
    StartOfDay(t) + hour * Hour + minute * Minute + second
  }
}
