/** The proleptic Gregorian calendar behind JavaScript's `Date`, reduced to
    what the charting code reads from it: the civil fields, the day count
    used for day differences, and the normalisation `new Date(y, m, d)`
    applies to an out-of-range month or day. Time is counted in minutes;
    there is no time zone and no daylight-saving shift. */
module Civil {

  predicate IsLeapYear(y: int)
  {
    (y % 4 == 0 && y % 100 != 0) || y % 400 == 0
  }

  function DaysInMonth(y: int, m: int): (n: int)
    requires 1 <= m <= 12
    ensures 28 <= n <= 31
    ensures m == 2 ==> (n == 29 <==> IsLeapYear(y))
  {
    if m == 2 then (if IsLeapYear(y) then 29 else 28)
    else if m == 4 || m == 6 || m == 9 || m == 11 then 30
    else 31
  }

  /** Days of year `y` before the first of month `m`; month 13 closes the year. */
  function DaysBeforeMonth(y: int, m: int): (n: int)
    requires 1 <= m <= 13
    ensures 0 <= n <= 31 * (m - 1)
    ensures m >= 2 ==> n >= 28 * (m - 1)
  {
    if m == 1 then 0 else DaysBeforeMonth(y, m - 1) + DaysInMonth(y, m - 1)
  }

  function YearLength(y: int): int
  {
    if IsLeapYear(y) then 366 else 365
  }

  /** Days from 0001-01-01 to the first of January of year `y`. */
  function DaysBeforeYear(y: int): int
  {
    365 * (y - 1) + (y - 1) / 4 - (y - 1) / 100 + (y - 1) / 400
  }

  /** Consecutive years are one year length apart. */
  lemma DaysBeforeNextYear(y: int)
    ensures DaysBeforeYear(y + 1) == DaysBeforeYear(y) + YearLength(y)
  {
    DivStep4(y - 1);
    DivStep100(y - 1);
    DivStep400(y - 1);
    CenturyDivides(y);
  }

  /** A multiple of 400 is a multiple of 100, and a multiple of 100 is a
      multiple of 4. */
  lemma CenturyDivides(y: int)
    ensures y % 400 == 0 ==> y % 100 == 0
    ensures y % 100 == 0 ==> y % 4 == 0
  {
    if y % 400 == 0 {
      var k := y / 400;
      assert y == 100 * (4 * k);
    }
    if y % 100 == 0 {
      var k := y / 100;
      assert y == 4 * (25 * k);
    }
  }

  /** Counting multiples of 4, 100 and 400 one year further. */
  lemma DivStep4(a: int)
    ensures (a + 1) / 4 == a / 4 + (if (a + 1) % 4 == 0 then 1 else 0)
  {
  }

  lemma DivStep100(a: int)
    ensures (a + 1) / 100 == a / 100 + (if (a + 1) % 100 == 0 then 1 else 0)
  {
  }

  lemma DivStep400(a: int)
    ensures (a + 1) / 400 == a / 400 + (if (a + 1) % 400 == 0 then 1 else 0)
  {
  }

  /** The months of a year add up to its length. */
  lemma MonthsFillYear(y: int)
    ensures DaysBeforeMonth(y, 13) == YearLength(y)
  {
    var feb := DaysInMonth(y, 2);
    assert DaysBeforeMonth(y, 3) == 31 + feb;
    assert DaysBeforeMonth(y, 4) == 62 + feb;
    assert DaysBeforeMonth(y, 5) == 92 + feb;
    assert DaysBeforeMonth(y, 6) == 123 + feb;
    assert DaysBeforeMonth(y, 7) == 153 + feb;
    assert DaysBeforeMonth(y, 8) == 184 + feb;
    assert DaysBeforeMonth(y, 9) == 215 + feb;
    assert DaysBeforeMonth(y, 10) == 245 + feb;
    assert DaysBeforeMonth(y, 11) == 276 + feb;
    assert DaysBeforeMonth(y, 12) == 306 + feb;
  }

  predicate ValidDate(y: int, m: int, d: int)
  {
    1 <= m <= 12 && 1 <= d <= DaysInMonth(y, m)
  }

  /** Days from 0001-01-01 to the given civil date. */
  function DayNumber(y: int, m: int, d: int): int
    requires 1 <= m <= 12
  {
    DaysBeforeYear(y) + DaysBeforeMonth(y, m) + d - 1
  }

  /** The day after the last of a month is the first of the next month (or of
      the next year after December). */
  lemma {:induction false} DayNumberMonthEnd(y: int, m: int)
    requires 1 <= m <= 12
    ensures m < 12 ==> DayNumber(y, m, DaysInMonth(y, m)) + 1 == DayNumber(y, m + 1, 1)
    ensures m == 12 ==> DayNumber(y, m, DaysInMonth(y, m)) + 1 == DayNumber(y + 1, 1, 1)
  {
    if m == 12 {
      MonthsFillYear(y);
      DaysBeforeNextYear(y);
    }
  }

  /** Civil dates are numbered in calendar order. */
  lemma {:induction false} DayNumberOrder(y: int, m: int, d: int, y': int, m': int, d': int)
    requires ValidDate(y, m, d) && ValidDate(y', m', d')
    ensures DateBefore(y, m, d, y', m', d') <==> DayNumber(y, m, d) < DayNumber(y', m', d')
  {
    if y < y' {
      YearStartOrder(y, y');
      YearBounds(y, m, d);
      YearBounds(y', m', d');
    } else if y' < y {
      YearStartOrder(y', y);
      YearBounds(y, m, d);
      YearBounds(y', m', d');
    } else if m < m' {
      MonthStartOrder(y, m, m');
    } else if m' < m {
      MonthStartOrder(y, m', m);
    }
  }

  predicate DateBefore(y: int, m: int, d: int, y': int, m': int, d': int)
  {
    y < y' || (y == y' && (m < m' || (m == m' && d < d')))
  }

  lemma {:induction false} YearBounds(y: int, m: int, d: int)
    requires ValidDate(y, m, d)
    ensures DaysBeforeYear(y) <= DayNumber(y, m, d) < DaysBeforeYear(y) + YearLength(y)
  {
    MonthStartOrder(y, m + 1, 13);
    MonthsFillYear(y);
  }

  lemma {:induction false} YearStartOrder(y: int, y': int)
    requires y < y'
    ensures DaysBeforeYear(y) + YearLength(y) <= DaysBeforeYear(y')
    decreases y' - y
  {
    DaysBeforeNextYear(y);
    if y + 1 < y' {
      YearStartOrder(y + 1, y');
      DaysBeforeNextYear(y + 1);
    }
  }

  lemma {:induction false} MonthStartOrder(y: int, m: int, m': int)
    requires 1 <= m <= m' <= 13
    ensures DaysBeforeMonth(y, m') >= DaysBeforeMonth(y, m) + 28 * (m' - m)
    ensures m < m' && m <= 12 ==> DaysBeforeMonth(y, m') >= DaysBeforeMonth(y, m) + DaysInMonth(y, m)
    decreases m' - m
  {
    if m < m' {
      MonthStartOrder(y, m, m' - 1);
    }
  }

  /** A moment as JavaScript's local-time `Date` fields expose it. */
  datatype DateTime = DateTime(year: int, month: int, day: int, hour: int, minute: int)
  {
    predicate Valid()
    {
      ValidDate(year, month, day) && 0 <= hour < 24 && 0 <= minute < 60
    }

    /** Days since 0001-01-01. */
    function Day(): int
      requires Valid()
    {
      DayNumber(year, month, day)
    }

    /** Minutes since 0001-01-01 00:00, the model of `getTime()`. */
    function Instant(): int
      requires Valid()
    {
      Day() * 1440 + hour * 60 + minute
    }
  }

  /** Midnight of a valid civil date. */
  function Midnight(y: int, m: int, d: int): (t: DateTime)
    requires ValidDate(y, m, d)
    ensures t.Valid() && t.Instant() == DayNumber(y, m, d) * 1440
  {
    DateTime(y, m, d, 0, 0)
  }

  /** `Math.floor((a.getTime() - b.getTime()) / 86400000)` for `b` at midnight:
      the difference of their day numbers. */
  lemma {:induction false} FlooredDayDifference(a: DateTime, b: DateTime)
    requires a.Valid() && b.Valid() && b.hour == 0 && b.minute == 0
    ensures (a.Instant() - b.Instant()) / 1440 == a.Day() - b.Day()
  {
    var t := a.hour * 60 + a.minute;
    assert 0 <= t < 1440;
    assert a.Instant() - b.Instant() == (a.Day() - b.Day()) * 1440 + t;
  }

  /** Instants follow the lexicographic order of the fields. */
  lemma {:induction false} InstantOrder(a: DateTime, b: DateTime)
    requires a.Valid() && b.Valid()
    ensures Before(a, b) <==> a.Instant() < b.Instant()
  {
    DayNumberOrder(a.year, a.month, a.day, b.year, b.month, b.day);
    if a.Day() < b.Day() {
      assert a.Instant() < a.Day() * 1440 + 1440 <= b.Instant();
    } else if b.Day() < a.Day() {
      assert b.Instant() < b.Day() * 1440 + 1440 <= a.Instant();
    } else {
      DayNumberOrder(b.year, b.month, b.day, a.year, a.month, a.day);
    }
  }

  predicate Before(a: DateTime, b: DateTime)
  {
    DateBefore(a.year, a.month, a.day, b.year, b.month, b.day)
    || (a.year == b.year && a.month == b.month && a.day == b.day
        && (a.hour < b.hour || (a.hour == b.hour && a.minute < b.minute)))
  }

  /** The year `new Date(y, …)` works in: it reads a year 0..99 as
      1900..1999 and every other year as itself. */
  function ConstructorYear(y: int): (r: int)
    ensures r != y <==> 0 <= y <= 99
    ensures 0 <= y <= 99 ==> 1900 <= r <= 1999 && r % 100 == y
  {
    if 0 <= y <= 99 then y + 1900 else y
  }

  /** The day number `new Date(y, monthIndex, d)` stands for: the year is
      read as ConstructorYear does, a month index outside 0..11 carries into
      the year and a day outside the month carries into the neighbouring
      months. */
  function ConstructorDay(y: int, monthIndex: int, d: int): int
  {
    var y' := ConstructorYear(y) + monthIndex / 12;
    var m := monthIndex % 12 + 1;
    DaysBeforeYear(y') + DaysBeforeMonth(y', m) + d - 1
  }

  /** For an in-range date the constructor gives that date's day number. */
  lemma ConstructorDayValid(y: int, m: int, d: int)
    requires 1 <= m <= 12
    ensures ConstructorDay(y, m - 1, d) == DayNumber(ConstructorYear(y), m, d)
  {
    assert (m - 1) / 12 == 0 && (m - 1) % 12 + 1 == m;
  }

  /** `new Date(y, m, 0)` is the last day of month `m` (1-based), so its
      `getDate()` is that month's length. */
  lemma {:induction false} ConstructorDayZero(y: int, m: int)
    requires 1 <= m <= 12
    ensures var y' := ConstructorYear(y);
            ConstructorDay(y, m, 0) == DayNumber(y', m, DaysInMonth(y', m))
  {
    var y' := ConstructorYear(y);
    DayNumberMonthEnd(y', m);
    if m < 12 {
      ConstructorDayValid(y, m + 1, 0);
    } else {
      ConstructorDayDecember(y);
    }
  }

  /** Day 0 of month index 12 is the day before the first of the next year. */
  lemma ConstructorDayDecember(y: int)
    ensures ConstructorDay(y, 12, 0) == DayNumber(ConstructorYear(y) + 1, 1, 1) - 1
  {
    assert 12 / 12 == 1 && 12 % 12 + 1 == 1;
  }
}
