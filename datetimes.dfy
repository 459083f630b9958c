/**
 * A local date and time with minute resolution, in the field order of JavaScript's
 * `new Date(year, month, day, hours, minutes)`: `month` is 0-based.
 */
module DateTimes {

  datatype DateTime = DateTime(year: int, month: int, day: int, hour: int, minute: int)

  /** The calendar day of a date and time, as `(year, month, day)`. */
  datatype Day = Day(year: int, month: int, day: int)

  predicate InRange(dt: DateTime)
  {
    0 <= dt.month < 12 && 1 <= dt.day <= 31 && 0 <= dt.hour < 24 && 0 <= dt.minute < 60
  }

  /**
   * The instant of a date and time, in minutes: stands in for `getTime()`. It orders
   * in-range values exactly as the calendar does (`TimestampOrder`).
   */
  function Timestamp(dt: DateTime): int
  {
    (((dt.year * 12 + dt.month) * 32 + dt.day) * 24 + dt.hour) * 60 + dt.minute
  }

  function StartOfDay(d: Day): DateTime
  {
    DateTime(d.year, d.month, d.day, 0, 0)
  }

  function EndOfDay(d: Day): DateTime
  {
    DateTime(d.year, d.month, d.day, 23, 59)
  }

  function DayOf(dt: DateTime): Day
  {
    Day(dt.year, dt.month, dt.day)
  }

  /** Calendar order: year, then month, day, hour and minute. */
  predicate Earlier(a: DateTime, b: DateTime)
  {
    a.year < b.year
    || (a.year == b.year && (a.month < b.month
    || (a.month == b.month && (a.day < b.day
    || (a.day == b.day && (a.hour < b.hour
    || (a.hour == b.hour && a.minute < b.minute)))))))
  }

  /** Mixed-radix comparison: `hi * base + lo` with `0 <= lo < base` orders by `hi`, then by `lo`. */
  lemma MixedRadix(hi1: int, lo1: int, hi2: int, lo2: int, base: int)
    requires 0 <= lo1 < base && 0 <= lo2 < base
    ensures hi1 * base + lo1 < hi2 * base + lo2 <==> hi1 < hi2 || (hi1 == hi2 && lo1 < lo2)
  {
    if hi1 < hi2 {
      Gap(hi1, hi2, base);
    } else if hi1 > hi2 {
      Gap(hi2, hi1, base);
    }
  }

  lemma Gap(lo: int, hi: int, base: int)
    requires lo < hi && 0 < base
    ensures lo * base + base <= hi * base
  {
    var d := hi - lo - 1;
    assert d * base >= 0;
    assert hi * base == lo * base + base + d * base;
  }

  /** For in-range values, `Timestamp` order is calendar order. */
  lemma TimestampOrder(a: DateTime, b: DateTime)
    requires InRange(a) && InRange(b)
    ensures Timestamp(a) < Timestamp(b) <==> Earlier(a, b)
  {
    MixedRadix(a.year, a.month, b.year, b.month, 12);
    var ma, mb := a.year * 12 + a.month, b.year * 12 + b.month;
    MixedRadix(ma, a.day, mb, b.day, 32);
    var da, db := ma * 32 + a.day, mb * 32 + b.day;
    MixedRadix(da, a.hour, db, b.hour, 24);
    var ha, hb := da * 24 + a.hour, db * 24 + b.hour;
    MixedRadix(ha, a.minute, hb, b.minute, 60);
    assert ma == mb <==> a.year == b.year && a.month == b.month by {
      MixedRadix(a.year, a.month, b.year, b.month, 12);
      MixedRadix(b.year, b.month, a.year, a.month, 12);
    }
    assert da == db <==> ma == mb && a.day == b.day by {
      MixedRadix(ma, a.day, mb, b.day, 32);
      MixedRadix(mb, b.day, ma, a.day, 32);
    }
    assert ha == hb <==> da == db && a.hour == b.hour by {
      MixedRadix(da, a.hour, db, b.hour, 24);
      MixedRadix(db, b.hour, da, a.hour, 24);
    }
  }

  /**
   * The calendar of JavaScript's `Date`: ECMAScript's `DayFromYear`, `MakeDay` and
   * `MakeDate` with local time taken as UTC (no time-zone offset, no daylight saving).
   */
  const MS_PER_MINUTE := 60000
  const MS_PER_DAY := 86400000

  predicate IsLeap(y: int)
  {
    y % 4 == 0 && (y % 100 != 0 || y % 400 == 0)
  }

  function DaysInYear(y: int): int
  {
    if IsLeap(y) then 366 else 365
  }

  function DaysInMonth(y: int, m: int): int
    requires 0 <= m < 12
  {
    if m == 1 then (if IsLeap(y) then 29 else 28)
    else if m == 3 || m == 5 || m == 8 || m == 10 then 30
    else 31
  }

  /** Days of the year `y` before the first of the 0-based month `m`. */
  function DaysBeforeMonth(y: int, m: int): int
    requires 0 <= m < 12
  {
    [0, 31, 59, 90, 120, 151, 181, 212, 243, 273, 304, 334][m] + (if m >= 2 && IsLeap(y) then 1 else 0)
  }

  /** `DayFromYear(y)`: the day number of January 1 of `y`, day 0 being January 1, 1970. */
  function DayFromYear(y: int): int
  {
    365 * (y - 1970) + (y - 1969) / 4 - (y - 1901) / 100 + (y - 1601) / 400
  }

  /** `MakeDay(year, month, date)`: a month outside 0..11 carries into the year, and the date counts on from the first. */
  function MakeDay(year: int, month: int, date: int): int
  {
    var ym, mn := year + month / 12, month % 12;
    DayFromYear(ym) + DaysBeforeMonth(ym, mn) + date - 1
  }

  /** `new Date(year, month, …)` reads a year argument of 0 to 99 as 1900 to 1999 (`MakeFullYear`). */
  function JsYear(y: int): (r: int)
    ensures 0 <= y <= 99 ==> r == 1900 + y
    ensures !(0 <= y <= 99) ==> r == y
  {
    if 0 <= y <= 99 then 1900 + y else y
  }

  /** Minutes since 1970-01-01 00:00 of `new Date(year, month, day, hours, minutes)`. */
  function EpochMinutes(dt: DateTime): int
  {
    MakeDay(dt.year, dt.month, dt.day) * 1440 + dt.hour * 60 + dt.minute
  }

  /** The time value (`getTime()`, milliseconds) of `new Date(year, month, day, hours, minutes)`. */
  function EpochMillis(dt: DateTime): int
  {
    EpochMinutes(dt) * MS_PER_MINUTE
  }

  /** A date that exists in the calendar: its day lies within its month. */
  predicate ValidDate(dt: DateTime)
  {
    0 <= dt.month < 12 && 1 <= dt.day <= DaysInMonth(dt.year, dt.month) && 0 <= dt.hour < 24 && 0 <= dt.minute < 60
  }

  /** The same clock time on the next calendar day. */
  function NextDay(dt: DateTime): DateTime
    requires ValidDate(dt)
  {
    if dt.day < DaysInMonth(dt.year, dt.month) then dt.(day := dt.day + 1)
    else if dt.month < 11 then dt.(month := dt.month + 1, day := 1)
    else dt.(year := dt.year + 1, month := 0, day := 1)
  }

  /** The time value 0 is midnight of January 1, 1970. */
  lemma EpochOrigin()
    ensures EpochMillis(DateTime(1970, 0, 1, 0, 0)) == 0
  {
  }

  /** Euclidean quotient and remainder are the unique `q`, `r` with `n == q * k + r` and `0 <= r < k`. */
  lemma DivModUnique(n: int, k: int, q: int, r: int)
    requires 0 < k && n == q * k + r && 0 <= r < k
    ensures n / k == q && n % k == r
  {
    var q', r' := n / k, n % k;
    assert n == q' * k + r';
    if q' < q {
      Gap(q', q, k);
    } else if q < q' {
      Gap(q, q', k);
    }
  }

  /** One more day in the numerator raises the floor quotient exactly when it lands on a multiple. */
  lemma FloorStep(x: int, k: int)
    requires 0 < k
    ensures (x + 1) / k == x / k + (if (x + 1) % k == 0 then 1 else 0)
  {
    var q, r := x / k, x % k;
    if r + 1 < k {
      DivModUnique(x + 1, k, q, r + 1);
    } else {
      DivModUnique(x + 1, k, q + 1, 0);
    }
  }

  /** Shifting by a multiple of `k` keeps the remainder. */
  lemma ShiftMod(x: int, c: int, k: int)
    requires 0 < k
    ensures (x + c * k) % k == x % k
  {
    DivModUnique(x + c * k, k, x / k + c, x % k);
  }

  /** January 1 of the next year is a year length later, 366 days after a leap year and 365 otherwise. */
  lemma YearLength(y: int)
    ensures DayFromYear(y + 1) == DayFromYear(y) + DaysInYear(y)
  {
    FloorStep(y - 1969, 4);
    FloorStep(y - 1901, 100);
    FloorStep(y - 1601, 400);
    ShiftMod(y, -492, 4);
    ShiftMod(y, -19, 100);
    ShiftMod(y, -4, 400);
  }

  /** The cumulative table agrees with the month lengths, and the twelve months fill the year. */
  lemma MonthTable(y: int, m: int)
    requires 0 <= m < 12
    ensures m < 11 ==> DaysBeforeMonth(y, m + 1) == DaysBeforeMonth(y, m) + DaysInMonth(y, m)
    ensures m == 11 ==> DaysBeforeMonth(y, m) + DaysInMonth(y, m) == DaysInYear(y)
  {
  }

  /** For a date in the calendar, `MakeDay` is the day of the year counted from January 1. */
  lemma MakeDayOfValid(dt: DateTime)
    requires ValidDate(dt)
    ensures MakeDay(dt.year, dt.month, dt.day) == DayFromYear(dt.year) + DaysBeforeMonth(dt.year, dt.month) + dt.day - 1
  {
    DivModUnique(dt.month, 12, 0, dt.month);
  }

  /** Day numbers of the first of a month and of the first of the next year, from the end of the month before. */
  lemma MonthEnds(y: int, m: int)
    requires 0 <= m < 12
    ensures m < 11 ==> DayFromYear(y) + DaysBeforeMonth(y, m + 1) == DayFromYear(y) + DaysBeforeMonth(y, m) + DaysInMonth(y, m)
    ensures m == 11 ==> DayFromYear(y + 1) == DayFromYear(y) + DaysBeforeMonth(y, m) + DaysInMonth(y, m)
  {
    MonthTable(y, m);
    if m == 11 {
      YearLength(y);
    }
  }

  /** The day number of the next calendar day is one more. */
  lemma NextDayNumber(dt: DateTime)
    requires ValidDate(dt)
    ensures ValidDate(NextDay(dt))
    ensures MakeDay(NextDay(dt).year, NextDay(dt).month, NextDay(dt).day) == MakeDay(dt.year, dt.month, dt.day) + 1
  {
    var n := NextDay(dt);
    MakeDayOfValid(dt);
    var last := DaysInMonth(dt.year, dt.month);
    if dt.day < last {
      assert n == dt.(day := dt.day + 1);
      MakeDayOfValid(n);
    } else if dt.month < 11 {
      assert n == dt.(month := dt.month + 1, day := 1);
      MakeDayOfValid(n);
      MonthEnds(dt.year, dt.month);
    } else {
      assert n == dt.(year := dt.year + 1, month := 0, day := 1);
      MakeDayOfValid(n);
      MonthEnds(dt.year, dt.month);
    }
  }

  /** The next calendar day, across month and year ends, is exactly 24 hours later. */
  lemma NextDayIsOneDayLater(dt: DateTime)
    requires ValidDate(dt)
    ensures ValidDate(NextDay(dt))
    ensures EpochMillis(NextDay(dt)) == EpochMillis(dt) + MS_PER_DAY
  {
    NextDayNumber(dt);
    var n := NextDay(dt);
    assert n.hour == dt.hour && n.minute == dt.minute;
  }

  /** The days of the year of a date in the calendar lie in `[0, DaysInYear)`, in month-then-day order. */
  lemma DayOfYearOrder(y: int, m1: int, d1: int, m2: int, d2: int)
    requires ValidDate(DateTime(y, m1, d1, 0, 0)) && ValidDate(DateTime(y, m2, d2, 0, 0))
    ensures 0 <= DaysBeforeMonth(y, m1) + d1 - 1 < DaysInYear(y)
    ensures DaysBeforeMonth(y, m1) + d1 < DaysBeforeMonth(y, m2) + d2 <==> m1 < m2 || (m1 == m2 && d1 < d2)
  {
  }

  /** Later years start after every day of earlier ones. */
  lemma {:induction false} YearsAscend(y1: int, y2: int)
    requires y1 < y2
    ensures DayFromYear(y1) + DaysInYear(y1) <= DayFromYear(y2)
    decreases y2 - y1
  {
    YearLength(y1);
    if y1 + 1 < y2 {
      YearsAscend(y1 + 1, y2);
      YearLength(y1 + 1);
    }
  }

  /** Day numbers are ordered by year, then by day of the year, when each day of the year lies within its year. */
  lemma YearThenDay(ya: int, yb: int, fa: int, fb: int)
    requires 0 <= fa < DaysInYear(ya) && 0 <= fb < DaysInYear(yb)
    ensures DayFromYear(ya) + fa < DayFromYear(yb) + fb <==> ya < yb || (ya == yb && fa < fb)
    ensures DayFromYear(ya) + fa == DayFromYear(yb) + fb <==> ya == yb && fa == fb
  {
    if ya < yb {
      YearsAscend(ya, yb);
    } else if yb < ya {
      YearsAscend(yb, ya);
    }
  }

  /** For dates in the calendar, day numbers follow calendar order of the days. */
  lemma DayNumberOrder(a: DateTime, b: DateTime)
    requires ValidDate(a) && ValidDate(b)
    ensures MakeDay(a.year, a.month, a.day) < MakeDay(b.year, b.month, b.day) <==>
      a.year < b.year || (a.year == b.year && (a.month < b.month || (a.month == b.month && a.day < b.day)))
    ensures MakeDay(a.year, a.month, a.day) == MakeDay(b.year, b.month, b.day) <==>
      a.year == b.year && a.month == b.month && a.day == b.day
  {
    MakeDayOfValid(a);
    MakeDayOfValid(b);
    var fa, fb := DaysBeforeMonth(a.year, a.month) + a.day - 1, DaysBeforeMonth(b.year, b.month) + b.day - 1;
    DayOfYearOrder(a.year, a.month, a.day, a.month, a.day);
    DayOfYearOrder(b.year, b.month, b.day, b.month, b.day);
    YearThenDay(a.year, b.year, fa, fb);
    if a.year == b.year {
      DayOfYearOrder(a.year, a.month, a.day, b.month, b.day);
      DayOfYearOrder(a.year, b.month, b.day, a.month, a.day);
    }
  }

  /** Minutes since the epoch are the day number and the minute of the day in mixed radix. */
  lemma MinuteOrder(da: int, db: int, a: DateTime, b: DateTime)
    requires 0 <= a.hour < 24 && 0 <= a.minute < 60 && 0 <= b.hour < 24 && 0 <= b.minute < 60
    ensures da * 1440 + a.hour * 60 + a.minute < db * 1440 + b.hour * 60 + b.minute <==>
      da < db || (da == db && (a.hour < b.hour || (a.hour == b.hour && a.minute < b.minute)))
  {
    MixedRadix(da, a.hour * 60 + a.minute, db, b.hour * 60 + b.minute, 1440);
    MixedRadix(a.hour, a.minute, b.hour, b.minute, 60);
  }

  /** For dates in the calendar, the time value orders them as the calendar does. */
  lemma EpochOrder(a: DateTime, b: DateTime)
    requires ValidDate(a) && ValidDate(b)
    ensures EpochMillis(a) < EpochMillis(b) <==> Earlier(a, b)
  {
    DayNumberOrder(a, b);
    MinuteOrder(MakeDay(a.year, a.month, a.day), MakeDay(b.year, b.month, b.day), a, b);
    assert EpochMillis(a) < EpochMillis(b) <==> EpochMinutes(a) < EpochMinutes(b);
  }

  /** On dates in the calendar the `Timestamp` rank and the time value agree on order. */
  lemma TimestampAgreesWithEpoch(a: DateTime, b: DateTime)
    requires ValidDate(a) && ValidDate(b)
    ensures Timestamp(a) < Timestamp(b) <==> EpochMillis(a) < EpochMillis(b)
  {
    TimestampOrder(a, b);
    EpochOrder(a, b);
  }
}
