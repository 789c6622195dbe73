/**
 * Calendar dates as the client's `datetime` and `QDate` values use them: the
 * proleptic Gregorian calendar, day stepping (for the calendar's week
 * navigation), the ordinal day number Python's `date.toordinal` counts, and
 * the `timedelta.days` of a deadline minus the current moment.
 */
module Dates {
  import opened Text

  datatype Date = Date(year: int, month: int, day: int)

  predicate IsLeap(y: int)
  {
    y % 4 == 0 && (y % 100 != 0 || y % 400 == 0)
  }

  function DaysInMonth(y: int, m: int): (n: int)
    requires 1 <= m <= 12
    ensures 28 <= n <= 31
  {
    if m == 2 then (if IsLeap(y) then 29 else 28)
    else if m == 4 || m == 6 || m == 9 || m == 11 then 30
    else 31
  }

  /** A day that exists in the calendar (any year; QDate has no year bound here). */
  predicate Valid(d: Date)
  {
    1 <= d.month <= 12 && 1 <= d.day <= DaysInMonth(d.year, d.month)
  }

  /** What Python's `datetime(year, month, day)` accepts: a valid day in years 1 to 9999. */
  predicate PyValid(d: Date)
  {
    Valid(d) && 1 <= d.year <= 9999
  }

  function NextDay(d: Date): (r: Date)
    requires Valid(d)
    ensures Valid(r)
  {
    if d.day < DaysInMonth(d.year, d.month) then Date(d.year, d.month, d.day + 1)
    else if d.month < 12 then Date(d.year, d.month + 1, 1)
    else Date(d.year + 1, 1, 1)
  }

  function PrevDay(d: Date): (r: Date)
    requires Valid(d)
    ensures Valid(r)
  {
    if d.day > 1 then Date(d.year, d.month, d.day - 1)
    else if d.month > 1 then Date(d.year, d.month - 1, DaysInMonth(d.year, d.month - 1))
    else Date(d.year - 1, 12, 31)
  }

  /** Stepping forward then back, or back then forward, returns to the same day. */
  lemma NextPrev(d: Date)
    requires Valid(d)
    ensures PrevDay(NextDay(d)) == d && NextDay(PrevDay(d)) == d
  {
  }

  /** `addDays(n)` for n >= 0. */
  function Forward(d: Date, n: nat): (r: Date)
    requires Valid(d)
    ensures Valid(r)
    decreases n
  {
    if n == 0 then d else Forward(NextDay(d), n - 1)
  }

  /** `addDays(-n)` for n >= 0. */
  function Backward(d: Date, n: nat): (r: Date)
    requires Valid(d)
    ensures Valid(r)
    decreases n
  {
    if n == 0 then d else Backward(PrevDay(d), n - 1)
  }

  /** `addDays(n)` for any whole number of days. */
  function AddDays(d: Date, n: int): (r: Date)
    requires Valid(d)
    ensures Valid(r)
  {
    if n >= 0 then Forward(d, n) else Backward(d, -n)
  }

  lemma {:induction false} ForwardLast(d: Date, n: nat)
    requires Valid(d)
    ensures Forward(d, n + 1) == NextDay(Forward(d, n))
    decreases n
  {
    if n > 0 {
      ForwardLast(NextDay(d), n - 1);
    }
  }

  lemma {:induction false} BackwardLast(d: Date, n: nat)
    requires Valid(d)
    ensures Backward(d, n + 1) == PrevDay(Backward(d, n))
    decreases n
  {
    if n > 0 {
      BackwardLast(PrevDay(d), n - 1);
    }
  }

  /** Going back n days and then forward n days is the identity. */
  lemma {:induction false} BackThenForward(d: Date, n: nat)
    requires Valid(d)
    ensures Forward(Backward(d, n), n) == d
    decreases n
  {
    if n > 0 {
      var p := PrevDay(d);
      BackThenForward(p, n - 1);
      ForwardLast(Backward(p, n - 1), n - 1);
      NextPrev(d);
    }
  }

  /** Going forward n days and then back n days is the identity. */
  lemma {:induction false} ForwardThenBack(d: Date, n: nat)
    requires Valid(d)
    ensures Backward(Forward(d, n), n) == d
    decreases n
  {
    if n > 0 {
      var q := NextDay(d);
      ForwardThenBack(q, n - 1);
      BackwardLast(Forward(q, n - 1), n - 1);
      NextPrev(d);
    }
  }

  /** Adding n days and then -n days restores the date, for every n. */
  lemma AddDaysInverse(d: Date, n: int)
    requires Valid(d)
    ensures AddDays(AddDays(d, n), -n) == d
  {
    if n > 0 {
      ForwardThenBack(d, n);
    } else if n < 0 {
      BackThenForward(d, -n);
    }
  }

  /** Days in the years before `y`, as CPython's `_days_before_year` counts them. */
  function DaysBeforeYear(y: int): int
  {
    var p := y - 1;
    p * 365 + p / 4 - p / 100 + p / 400
  }

  /** Days in the months of year `y` before month `m`. */
  function DaysBeforeMonth(y: int, m: int): (n: int)
    requires 1 <= m <= 12
    ensures 28 * (m - 1) <= n <= 31 * (m - 1)
  {
    if m == 1 then 0 else DaysBeforeMonth(y, m - 1) + DaysInMonth(y, m - 1)
  }

  /** `date.toordinal()`: 0001-01-01 is day 1. */
  function Ordinal(d: Date): int
    requires Valid(d)
  {
    DaysBeforeYear(d.year) + DaysBeforeMonth(d.year, d.month) + d.day
  }

  lemma YearLength(y: int)
    ensures DaysBeforeYear(y + 1) == DaysBeforeYear(y) + (if IsLeap(y) then 366 else 365)
  {
    var p := y - 1;
    assert y / 4 == p / 4 + (if y % 4 == 0 then 1 else 0);
    assert y / 100 == p / 100 + (if y % 100 == 0 then 1 else 0);
    assert y / 400 == p / 400 + (if y % 400 == 0 then 1 else 0);
    if y % 100 == 0 {
      assert y % 4 == 0;
    }
    if y % 400 == 0 {
      assert y % 100 == 0;
    }
  }

  lemma DaysBeforeDecember(y: int)
    ensures DaysBeforeMonth(y, 12) + 31 == (if IsLeap(y) then 366 else 365)
  {
    var f := DaysInMonth(y, 2);
    assert DaysBeforeMonth(y, 2) == 31;
    assert DaysBeforeMonth(y, 3) == 31 + f;
    assert DaysBeforeMonth(y, 4) == 31 + f + 31;
    assert DaysBeforeMonth(y, 5) == 31 + f + 31 + 30;
    assert DaysBeforeMonth(y, 6) == 31 + f + 31 + 30 + 31;
    assert DaysBeforeMonth(y, 7) == 31 + f + 31 + 30 + 31 + 30;
    assert DaysBeforeMonth(y, 8) == 31 + f + 31 + 30 + 31 + 30 + 31;
    assert DaysBeforeMonth(y, 9) == 31 + f + 31 + 30 + 31 + 30 + 31 + 31;
    assert DaysBeforeMonth(y, 10) == 31 + f + 31 + 30 + 31 + 30 + 31 + 31 + 30;
    assert DaysBeforeMonth(y, 11) == 31 + f + 31 + 30 + 31 + 30 + 31 + 31 + 30 + 31;
    assert DaysBeforeMonth(y, 12) == 31 + f + 31 + 30 + 31 + 30 + 31 + 31 + 30 + 31 + 30;
  }

  /** The ordinal counts days: the next day is one more. */
  lemma OrdinalNext(d: Date)
    requires Valid(d)
    ensures Ordinal(NextDay(d)) == Ordinal(d) + 1
  {
    if d.day == DaysInMonth(d.year, d.month) && d.month == 12 {
      YearLength(d.year);
      DaysBeforeDecember(d.year);
    }
  }

  /** The ordinal of a date n days later is n more. */
  lemma {:induction false} OrdinalForward(d: Date, n: nat)
    requires Valid(d)
    ensures Ordinal(Forward(d, n)) == Ordinal(d) + n
    decreases n
  {
    if n > 0 {
      OrdinalNext(d);
      OrdinalForward(NextDay(d), n - 1);
    }
  }

  /** Microseconds in a day: `timedelta` keeps days, seconds and microseconds. */
  const DayMicros: int := 86_400_000_000

  /** A `datetime.now()` reading: a day and the microseconds elapsed since its midnight. */
  datatype Moment = Moment(date: Date, elapsed: int)

  predicate ValidMoment(t: Moment)
  {
    Valid(t.date) && 0 <= t.elapsed < DayMicros
  }

  /**
   * `(due_date - datetime.now()).days` where `due_date` is the deadline at
   * midnight: `timedelta` normalises to a whole number of days rounded toward
   * minus infinity.
   */
  function DaysDiffAsWritten(due: Date, now: Moment): int
    requires Valid(due) && ValidMoment(now)
  {
    ((Ordinal(due) - Ordinal(now.date)) * DayMicros - now.elapsed) / DayMicros
  }

  /** The calendar days from today to the deadline: 0 on the day itself. */
  function DaysUntil(due: Date, now: Moment): (n: int)
    requires Valid(due) && ValidMoment(now)
    ensures n == 0 <==> due == now.date
    ensures n > 0 <==> Ordinal(due) > Ordinal(now.date)
  {
    OrdinalInjective(due, now.date);
    Ordinal(due) - Ordinal(now.date)
  }

  /**
   * The difference as written is one day short of the calendar difference
   * at every moment after midnight: a deadline that is today reads as one
   * day overdue, and "today" is reported only at exactly 00:00:00.000000.
   */
  lemma DaysDiffOneShort(due: Date, now: Moment)
    requires Valid(due) && ValidMoment(now)
    ensures DaysDiffAsWritten(due, now) == DaysUntil(due, now) - (if now.elapsed > 0 then 1 else 0)
  {
    var k := Ordinal(due) - Ordinal(now.date);
    if now.elapsed > 0 {
      assert k * DayMicros - now.elapsed == (k - 1) * DayMicros + (DayMicros - now.elapsed);
    } else {
      assert k * DayMicros - now.elapsed == k * DayMicros + 0;
    }
  }

  /** A deadline of today, read at noon, comes out as -1 (overdue by one day). */
  lemma DueTodayAtNoon()
    ensures var today := Date(2024, 5, 20);
            DaysDiffAsWritten(today, Moment(today, 43_200_000_000)) == -1
            && DaysUntil(today, Moment(today, 43_200_000_000)) == 0
  {
    var today := Date(2024, 5, 20);
    DaysDiffOneShort(today, Moment(today, 43_200_000_000));
  }

  /** Ordinals are ordered like the dates themselves. */
  lemma {:induction false} OrdinalMonthBound(y: int, m: int)
    requires 1 <= m <= 12
    ensures DaysBeforeMonth(y, m) + DaysInMonth(y, m) <= (if IsLeap(y) then 366 else 365)
    ensures m < 12 ==> DaysBeforeMonth(y, m + 1) == DaysBeforeMonth(y, m) + DaysInMonth(y, m)
    decreases 12 - m
  {
    if m < 12 {
      OrdinalMonthBound(y, m + 1);
    } else {
      DaysBeforeDecember(y);
    }
  }

  lemma DaysBeforeMonthMono(y: int, m1: int, m2: int)
    requires 1 <= m1 < m2 <= 12
    ensures DaysBeforeMonth(y, m1) + DaysInMonth(y, m1) <= DaysBeforeMonth(y, m2)
    decreases m2 - m1
  {
    if m1 + 1 < m2 {
      DaysBeforeMonthMono(y, m1, m2 - 1);
    }
  }

  lemma DaysBeforeYearMono(y1: int, y2: int)
    requires y1 < y2
    ensures DaysBeforeYear(y1) + 365 <= DaysBeforeYear(y2)
    decreases y2 - y1
  {
    YearLength(y1);
    if y1 + 1 < y2 {
      DaysBeforeYearMono(y1 + 1, y2);
    }
  }

  /** A date's ordinal lies within its year's span. */
  lemma OrdinalInYear(a: Date)
    requires Valid(a)
    ensures DaysBeforeYear(a.year) < Ordinal(a) <= DaysBeforeYear(a.year + 1)
  {
    OrdinalMonthBound(a.year, a.month);
    YearLength(a.year);
  }

  /** Earlier dates have smaller ordinals. */
  lemma OrdinalOrder(a: Date, b: Date)
    requires Valid(a) && Valid(b)
    requires a.year < b.year || (a.year == b.year && (a.month < b.month || (a.month == b.month && a.day < b.day)))
    ensures Ordinal(a) < Ordinal(b)
  {
    if a.year < b.year {
      OrdinalInYear(a);
      OrdinalInYear(b);
      if a.year + 1 < b.year {
        DaysBeforeYearMono(a.year + 1, b.year);
      }
    } else if a.month < b.month {
      DaysBeforeMonthMono(a.year, a.month, b.month);
    }
  }

  /** Distinct valid dates have distinct ordinals. */
  lemma OrdinalInjective(a: Date, b: Date)
    requires Valid(a) && Valid(b)
    ensures Ordinal(a) == Ordinal(b) <==> a == b
  {
    if a != b {
      if a.year < b.year || (a.year == b.year && (a.month < b.month || (a.month == b.month && a.day < b.day))) {
        OrdinalOrder(a, b);
      } else {
        OrdinalOrder(b, a);
      }
    }
  }

  function Pow10(k: nat): nat
  {
    if k == 0 then 1 else 10 * Pow10(k - 1)
  }

  /** A number below 10^k has at most k digits. */
  lemma {:induction false} NatToStringShort(n: nat, k: nat)
    requires n < Pow10(k)
    ensures |NatToString(n)| <= if k == 0 then 1 else k
  {
    if n >= 10 {
      NatToStringShort(n / 10, k - 1);
    }
  }

  /** `QDate.toString("yyyy-MM-dd")`. */
  function IsoText(d: Date): (s: string)
    requires Valid(d)
    ensures 1 <= d.year <= 9999 ==> |s| == 10 && s[4] == '-' && s[7] == '-'
  {
    assert Pow10(2) == 100 && Pow10(4) == 10000;
    NatToStringShort(d.month, 2);
    NatToStringShort(d.day, 2);
    NatToStringShort(if 0 <= d.year < 10000 then d.year else 0, 4);
    ZFill(IntToString(d.year), 4) + "-" + ZFill(NatToString(d.month), 2) + "-" + ZFill(NatToString(d.day), 2)
  }
}
