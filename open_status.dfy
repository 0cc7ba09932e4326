/** The header's open/closed badge: the shop opens at 9 h and closes at 4 h the next morning. */
module OpenStatus {

  /** The local time the badge reads; only the hour is used. */
  datatype LocalTime = LocalTime(hour: int, minute: int, second: int, day: int)

  /** `isWithinHours`, for the hour of the current local time. */
  function IsOpenAt(now: LocalTime): (r: bool)
    ensures 0 <= now.hour < 24 ==> (r <==> !(4 <= now.hour < 9))
  {
    now.hour >= 9 || now.hour < 4
  }

  /** Nine o'clock and three o'clock are open: the first hour of each open stretch of the day. */
  lemma OpenBoundaries(minute: int, second: int, day: int)
    ensures IsOpenAt(LocalTime(9, minute, second, day)) && IsOpenAt(LocalTime(3, minute, second, day))
    ensures !IsOpenAt(LocalTime(4, minute, second, day)) && !IsOpenAt(LocalTime(8, minute, second, day))
  {
  }

  /** Only the hour decides: two readings in the same hour agree. */
  lemma OnlyTheHourMatters(a: LocalTime, b: LocalTime)
    requires a.hour == b.hour
    ensures IsOpenAt(a) == IsOpenAt(b)
  {
  }

  /** The number of open hours among the hours `0 .. n - 1`. */
  function OpenHoursBefore(n: nat): (k: nat)
    ensures k <= n
  {
    if n == 0 then 0 else OpenHoursBefore(n - 1) + (if IsOpenAt(LocalTime(n - 1, 0, 0, 0)) then 1 else 0)
  }

  /** Up to hour `n` (from 4 to 9), exactly the four night hours 0 to 3 are open. */
  lemma {:induction false} NightHours(n: nat)
    requires 4 <= n <= 9
    ensures OpenHoursBefore(n) == 4
    decreases n
  {
    if n > 4 {
      NightHours(n - 1);
    } else {
      assert OpenHoursBefore(1) == 1;
      assert OpenHoursBefore(2) == 2;
      assert OpenHoursBefore(3) == 3;
    }
  }

  /** From hour 9 on, every hour is open. */
  lemma {:induction false} DayHours(n: nat)
    requires 9 <= n <= 24
    ensures OpenHoursBefore(n) == n - 5
    decreases n
  {
    if n > 9 {
      DayHours(n - 1);
    } else {
      NightHours(9);
    }
  }

  /** The shop is open 19 hours of the 24. */
  lemma OpenHoursPerDay()
    ensures OpenHoursBefore(24) == 19
  {
    DayHours(24);
  }
}
