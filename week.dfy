/** The accounting week of the weekly payment tally: the half-open interval [start, end) that starts
    on a Saturday at 00:00 and lasts seven days. Instants are integer milliseconds since
    1970-01-01T00:00, one uniform time reference whose days all have 86 400 000 ms; day 0 was a
    Thursday. Dafny's `/` and `%` by a positive constant round toward minus infinity, as the
    calendar does for instants before 1970. */
module Week {

  const MS_PER_DAY: int := 86_400_000
  const MS_PER_WEEK: int := 7 * MS_PER_DAY

  /** Date.prototype.getDay numbers the days 0 (Sunday) through 6 (Saturday). */
  const SATURDAY: int := 6

  /** The day an instant falls on, counted from 1970-01-01. */
  function DayNumber(t: int): int {
    t / MS_PER_DAY
  }

  /** Date.prototype.getDay; 1970-01-01 was a Thursday. */
  function Weekday(t: int): (w: int)
    ensures 0 <= w < 7
    ensures 0 <= t < MS_PER_DAY ==> w == 4
  {
    (DayNumber(t) + 4) % 7
  }

  /** `setHours(0, 0, 0, 0)`: the 00:00 instant of the day `t` falls on. */
  function Midnight(t: int): (m: int)
    ensures m <= t < m + MS_PER_DAY
    ensures m % MS_PER_DAY == 0
  {
    DayNumber(t) * MS_PER_DAY
  }

  ghost predicate IsSaturdayMidnight(t: int) {
    t % MS_PER_DAY == 0 && Weekday(t) == SATURDAY
  }

  /** The accounting week containing `t` starts at the 00:00 of the latest Saturday on or before t's day;
      that Saturday lies (Weekday(t) + 1) % 7 days back. The window is seven days long, starts on a
      Saturday at 00:00 and contains `t`. */
  function AccountingWeekStart(t: int): (s: int)
    ensures IsSaturdayMidnight(s)
    ensures s <= t < s + MS_PER_WEEK
  {
    var back := (Weekday(t) + 1) % 7;
    ShiftDays(Midnight(t), -back);
    assert DayNumber(Midnight(t)) == DayNumber(t);
    Midnight(t) - back * MS_PER_DAY
  }

  /** The first instant after the accounting week containing `t`. */
  function AccountingWeekEnd(t: int): int {
    AccountingWeekStart(t) + MS_PER_WEEK
  }

  /** Moving an instant by whole days moves its day number and weekday accordingly. */
  lemma ShiftDays(t: int, k: int)
    ensures DayNumber(t + k * MS_PER_DAY) == DayNumber(t) + k
    ensures Weekday(t + k * MS_PER_DAY) == (Weekday(t) + k) % 7
  {
  }

  /** At most one Saturday 00:00 lies within any seven days: the window containing `t` is unique. */
  lemma {:induction false} WindowUnique(t: int, s: int)
    requires IsSaturdayMidnight(s)
    requires s <= t < s + MS_PER_WEEK
    ensures s == AccountingWeekStart(t)
  {
    var a := AccountingWeekStart(t);
    var ds, da := DayNumber(s), DayNumber(a);
    assert s == ds * MS_PER_DAY && a == da * MS_PER_DAY;
    assert (ds + 4) % 7 == (da + 4) % 7;
    assert -7 < ds - da < 7;
  }

  /** An instant is counted in the week of `now` exactly when it has the same accounting week:
      records from an earlier (or later) week never count. */
  lemma InWindowIffSameWeek(now: int, t: int)
    ensures AccountingWeekStart(now) <= t < AccountingWeekStart(now) + MS_PER_WEEK
        <==> AccountingWeekStart(t) == AccountingWeekStart(now)
  {
    if AccountingWeekStart(now) <= t < AccountingWeekStart(now) + MS_PER_WEEK {
      WindowUnique(t, AccountingWeekStart(now));
    }
  }

  /** At exactly Saturday 00:00 the window starts at that instant, not a week earlier. */
  lemma SaturdayMidnightStartsWindow(t: int)
    requires IsSaturdayMidnight(t)
    ensures AccountingWeekStart(t) == t
  {
    WindowUnique(t, t);
  }

  /** On Sunday through Friday the window started at the 00:00 of the Saturday before t's day,
      Weekday(t) + 1 days back; on Saturday it started at t's own midnight. */
  lemma WindowStartByWeekday(t: int)
    ensures Weekday(t) == SATURDAY ==> AccountingWeekStart(t) == Midnight(t)
    ensures Weekday(t) != SATURDAY ==>
      AccountingWeekStart(t) == Midnight(t) - (Weekday(t) + 1) * MS_PER_DAY
      && AccountingWeekStart(t) < Midnight(t)
  {
  }

  /** One instant before a Saturday 00:00 belongs to the previous week, which ends at that Saturday. */
  lemma LastInstantBeforeSaturday(s: int)
    requires IsSaturdayMidnight(s)
    ensures AccountingWeekStart(s - 1) == s - MS_PER_WEEK
  {
    ShiftDays(s, -7);
    WindowUnique(s - 1, s - MS_PER_WEEK);
  }

  /** Later instants never have an earlier accounting week. */
  lemma {:induction false} WindowMonotone(t1: int, t2: int)
    requires t1 <= t2
    ensures AccountingWeekStart(t1) <= AccountingWeekStart(t2)
  {
    var a1, a2 := AccountingWeekStart(t1), AccountingWeekStart(t2);
    if a2 < a1 {
      assert a1 <= t1 <= t2 < a2 + MS_PER_WEEK;
      WindowUnique(t2, a1);
    }
  }

  /** `weekWindow(d)` as written: truncate to midnight, step back to Monday, forward to Saturday,
      back one week when `d` is before that Saturday, and end seven days later. */
  method WeekWindow(d: int) returns (start: int, end: int)
    ensures IsSaturdayMidnight(start)
    ensures start <= d < end
    ensures end - start == MS_PER_WEEK
    ensures start == AccountingWeekStart(d)
    ensures end == AccountingWeekEnd(d)
  {
    var base := d;
    var day := Weekday(base);
    base := Midnight(base);
    var diffToMonday := (day + 6) % 7;
    base := base - diffToMonday * MS_PER_DAY;
    var satStart := base;
    satStart := satStart + 5 * MS_PER_DAY;
    if d < satStart {
      satStart := satStart - 7 * MS_PER_DAY;
    }
    end := satStart;
    end := end + 7 * MS_PER_DAY;
    start := satStart;
    ShiftDays(Midnight(d), 5 - diffToMonday);
    ShiftDays(Midnight(d), -2 - diffToMonday);
    WindowUnique(d, start);
  }
}
