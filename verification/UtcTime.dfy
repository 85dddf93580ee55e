/** UTC instants as microseconds since 1970-01-01 00:00, the resolution of the program's datetimes. */
module UtcTime {

  const SECOND: int := 1_000_000
  const HOUR: int := 3600 * SECOND
  const DAY: int := 24 * HOUR
  const WEEK: int := 7 * DAY

  function Midnight(t: int): int {
    t - t % DAY
  }

  /** Replaces the time of day of `t` by `hour`:00. */
  function AtHour(t: int, hour: int): int {
    Midnight(t) + hour * HOUR
  }

  function HourOfDay(t: int): int {
    t % DAY / HOUR
  }

  /** Monday is 0; the epoch was a Thursday. */
  function Weekday(t: int): int {
    (t / DAY + 3) % 7
  }
}
