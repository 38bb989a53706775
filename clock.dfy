/** Time arithmetic of the limit checks.

    A timestamp (`LocalDateTime`) is a whole number of seconds counted from a midnight;
    a time of day (`LocalTime`) is a number of seconds since midnight. `ChronoUnit.MINUTES.between`
    is the difference in whole minutes, truncated toward zero as Java's long division does. */
module Clock {

  const SecondsPerMinute: int := 60
  const SecondsPerHour: int := 3600
  const SecondsPerDay: int := 86400

  type TimeOfDay = t: int | 0 <= t < 86400

  /** The time-of-day part of a timestamp (`toLocalTime`): the seconds since the last midnight. */
  function TimeOfDayOf(stamp: int): TimeOfDay
  {
    stamp % 86400
  }

  /** The time of day repeats every day, and within the first day it is the timestamp itself;
      timestamps before the origin count back from the previous midnight. */
  lemma {:induction false} TimeOfDayOfDays(stamp: int, days: nat)
    ensures TimeOfDayOf(stamp + days * SecondsPerDay) == TimeOfDayOf(stamp)
    ensures 0 <= stamp < SecondsPerDay ==> TimeOfDayOf(stamp) == stamp
    ensures -SecondsPerDay <= stamp < 0 ==> TimeOfDayOf(stamp) == stamp + SecondsPerDay
  {
    if days > 0 {
      TimeOfDayOfDays(stamp, days - 1);
      assert stamp + days * SecondsPerDay == (stamp + (days - 1) * SecondsPerDay) + 86400;
    }
  }

  /** `ChronoUnit.MINUTES.between(from, to)`: the difference in whole minutes, rounded toward zero as
      Java's long division does (Dafny's own `/` is Euclidean), so negative when `to` is a minute or
      more earlier than `from`. */
  function MinutesBetween(from: int, to: int): (m: int)
    ensures to - from >= 0 ==> 0 <= m && 60 * m <= to - from < 60 * m + 60
    ensures to - from < 0 ==> m <= 0 && 60 * m - 60 < to - from <= 60 * m
  {
    var diff := to - from;
    if diff >= 0 then diff / 60 else -((-diff) / 60)
  }

  /** Whole minutes are positive from a full minute on, negative from a full minute back, zero in between. */
  lemma MinutesBetweenSign(from: int, to: int)
    ensures MinutesBetween(from, to) > 0 <==> to - from >= SecondsPerMinute
    ensures MinutesBetween(from, to) < 0 <==> to - from <= -SecondsPerMinute
    ensures MinutesBetween(from, to) == 0 <==> -SecondsPerMinute < to - from < SecondsPerMinute
  {
  }

  /** Swapping the two instants negates the minute count: truncation is symmetric about zero. */
  lemma MinutesBetweenSwapped(from: int, to: int)
    ensures MinutesBetween(to, from) == -MinutesBetween(from, to)
  {
  }

  /** The blackout window test of `validateLimitedTime` on already parsed times of day:
      `b` is start to end, `b1` start to `t`, `b2` `t` to end, each in truncated minutes.
      Stated in seconds, without truncated division: a plain window needs `t` at least a whole minute
      after `start` and before `end`; a window that wraps past midnight takes `t` when exactly one of
      "a minute or more before start" and "a minute or more after end" holds; a window shorter than a
      minute takes only times within a minute of both ends. */
  function InsideLimitedTime(start: TimeOfDay, end: TimeOfDay, t: TimeOfDay): (inside: bool)
    ensures end - start >= SecondsPerMinute ==>
      (inside <==> start + SecondsPerMinute <= t <= end - SecondsPerMinute)
    ensures end - start <= -SecondsPerMinute ==>
      (inside <==> (t <= start - SecondsPerMinute) != (t >= end + SecondsPerMinute))
    ensures -SecondsPerMinute < end - start < SecondsPerMinute ==>
      (inside <==> -SecondsPerMinute < t - start < SecondsPerMinute && -SecondsPerMinute < end - t < SecondsPerMinute)
  {
    var b := MinutesBetween(start, end);
    var b1 := MinutesBetween(start, t);
    var b2 := MinutesBetween(t, end);
    if b > 0 then b1 > 0 && b2 > 0
    else if b < 0 then (b1 < 0) != (b2 < 0)
    else b1 == 0 && b2 == 0
  }

  /** A window that wraps past midnight: with `start` 21:00 and `end` 00:00, 23:30 and 00:00:30
      fall inside, 10:00 does not. */
  lemma WrappingWindowExamples()
    ensures InsideLimitedTime(21 * SecondsPerHour, 0, 23 * SecondsPerHour + 30 * SecondsPerMinute)
    ensures InsideLimitedTime(21 * SecondsPerHour, 0, 30)
    ensures !InsideLimitedTime(21 * SecondsPerHour, 0, 10 * SecondsPerHour)
  {
  }

  /** A plain window: with 07:00 to 21:00, noon falls inside, 22:00 and both ends do not. */
  lemma PlainWindowExamples()
    ensures InsideLimitedTime(7 * SecondsPerHour, 21 * SecondsPerHour, 12 * SecondsPerHour)
    ensures !InsideLimitedTime(7 * SecondsPerHour, 21 * SecondsPerHour, 22 * SecondsPerHour)
    ensures !InsideLimitedTime(7 * SecondsPerHour, 21 * SecondsPerHour, 7 * SecondsPerHour)
    ensures !InsideLimitedTime(7 * SecondsPerHour, 21 * SecondsPerHour, 21 * SecondsPerHour)
  {
  }

  /** The window "00:00" to "23:59" covers every time from 00:01 to 23:58. */
  lemma NearlyWholeDayWindow(t: TimeOfDay)
    requires SecondsPerMinute <= t <= 23 * SecondsPerHour + 58 * SecondsPerMinute
    ensures InsideLimitedTime(0, 23 * SecondsPerHour + 59 * SecondsPerMinute, t)
  {
  }
}
