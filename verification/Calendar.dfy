/** The proleptic Gregorian calendar, as days counted from 1 January of year 1. */
module Calendar {

  datatype Date = Date(y: int, m: int, d: int)

  predicate IsLeap(y: int) {
    y % 4 == 0 && (y % 100 != 0 || y % 400 == 0)
  }

  function DaysIn(y: int, m: int): int {
    if m == 2 then (if IsLeap(y) then 29 else 28)
    else if m == 4 || m == 6 || m == 9 || m == 11 then 30
    else 31
  }

  predicate Valid(date: Date) {
    1 <= date.m <= 12 && 1 <= date.d <= DaysIn(date.y, date.m)
  }

  function DaysBeforeYear(y: int): int {
    (y - 1) * 365 + (y - 1) / 4 - (y - 1) / 100 + (y - 1) / 400
  }

  function DaysBeforeMonth(y: int, m: int): int
    requires 1 <= m <= 13
    decreases m
  {
    if m == 1 then 0 else DaysBeforeMonth(y, m - 1) + DaysIn(y, m - 1)
  }

  function Ordinal(date: Date): int
    requires Valid(date)
  {
    DaysBeforeYear(date.y) + DaysBeforeMonth(date.y, date.m) + date.d
  }

  function Next(date: Date): (next: Date)
    requires Valid(date)
    ensures Valid(next)
  {
    if date.d < DaysIn(date.y, date.m) then Date(date.y, date.m, date.d + 1)
    else if date.m < 12 then Date(date.y, date.m + 1, 1)
    else Date(date.y + 1, 1, 1)
  }

  /** The date of day `n`: what adding one day at a time from 0001-01-01 reaches. */
  function DateOf(n: nat): (date: Date)
    requires n >= 1
    ensures Valid(date)
  {
    if n == 1 then Date(1, 1, 1) else Next(DateOf(n - 1))
  }

  /** Weekdays as cron counts them: Sunday is 0. Day 1 was a Monday. */
  function Weekday(n: nat): nat {
    n % 7
  }

  lemma QuotientSteps(y: int)
    ensures y / 4 == (y - 1) / 4 + if y % 4 == 0 then 1 else 0
    ensures y / 100 == (y - 1) / 100 + if y % 100 == 0 then 1 else 0
    ensures y / 400 == (y - 1) / 400 + if y % 400 == 0 then 1 else 0
  {
  }

  lemma CenturiesNest(y: int)
    ensures y % 100 == 0 ==> y % 4 == 0
    ensures y % 400 == 0 ==> y % 100 == 0
  {
    var c, f := y / 100, y / 400;
    FourTimes(25 * c);
    HundredTimes(4 * f);
    assert y % 100 == 0 ==> y == 100 * c;
    assert y % 400 == 0 ==> y == 400 * f;
  }

  lemma FourTimes(q: int)
    ensures (4 * q) % 4 == 0
  {
  }

  lemma HundredTimes(q: int)
    ensures (100 * q) % 100 == 0
  {
  }

  lemma LeapDay(four: bool, hundred: bool, fourHundred: bool)
    requires (fourHundred ==> hundred) && (hundred ==> four)
    ensures (if four then 1 else 0) - (if hundred then 1 else 0) + (if fourHundred then 1 else 0)
            == if four && (!hundred || fourHundred) then 1 else 0
  {
  }

  lemma YearLength(y: int)
    ensures DaysBeforeYear(y + 1) == DaysBeforeYear(y) + if IsLeap(y) then 366 else 365
  {
    QuotientSteps(y);
    CenturiesNest(y);
    LeapDay(y % 4 == 0, y % 100 == 0, y % 400 == 0);
  }

  lemma MonthsFillYear(y: int)
    ensures DaysBeforeMonth(y, 13) == if IsLeap(y) then 366 else 365
  {
    assert DaysBeforeMonth(y, 4) == DaysIn(y, 1) + DaysIn(y, 2) + DaysIn(y, 3);
    assert DaysBeforeMonth(y, 7) == DaysBeforeMonth(y, 4) + DaysIn(y, 4) + DaysIn(y, 5) + DaysIn(y, 6);
    assert DaysBeforeMonth(y, 10) == DaysBeforeMonth(y, 7) + DaysIn(y, 7) + DaysIn(y, 8) + DaysIn(y, 9);
    assert DaysBeforeMonth(y, 13) == DaysBeforeMonth(y, 10) + DaysIn(y, 10) + DaysIn(y, 11) + DaysIn(y, 12);
  }

  lemma NextIsOneLater(date: Date)
    requires Valid(date)
    ensures Ordinal(Next(date)) == Ordinal(date) + 1
  {
    hide DaysBeforeYear, IsLeap;
    YearLength(date.y);
    MonthsFillYear(date.y);
  }

  lemma {:induction false} OrdinalOfDate(n: nat)
    requires n >= 1
    ensures Ordinal(DateOf(n)) == n
  {
    if n > 1 {
      OrdinalOfDate(n - 1);
      NextIsOneLater(DateOf(n - 1));
    } else {
      assert DaysBeforeMonth(1, 1) == 0;
    }
  }

  lemma {:induction false} MonthsGrow(y: int, a: int, b: int)
    requires 1 <= a < b <= 13
    ensures DaysBeforeMonth(y, a) + DaysIn(y, a) <= DaysBeforeMonth(y, b)
    decreases b
  {
    if a + 1 < b {
      MonthsGrow(y, a, b - 1);
    }
  }

  lemma {:induction false} YearsGrow(a: int, b: int)
    requires a <= b
    ensures DaysBeforeYear(a) + 365 * (b - a) <= DaysBeforeYear(b) <= DaysBeforeYear(a) + 366 * (b - a)
    decreases b - a
  {
    if a < b {
      YearsGrow(a, b - 1);
      YearLength(b - 1);
    }
  }

  lemma WithinYear(date: Date)
    requires Valid(date)
    ensures DaysBeforeYear(date.y) < Ordinal(date) <= DaysBeforeYear(date.y + 1)
    ensures DaysBeforeMonth(date.y, date.m) >= 0
  {
    MonthsFillYear(date.y);
    YearLength(date.y);
    MonthsGrow(date.y, date.m, 13);
    if date.m > 1 {
      MonthsGrow(date.y, 1, date.m);
    }
  }

  predicate Earlier(a: Date, b: Date) {
    a.y < b.y || (a.y == b.y && (a.m < b.m || (a.m == b.m && a.d < b.d)))
  }

  /** Dates are ordered by year, month and day, and so are their day numbers. */
  lemma OrdinalOrders(a: Date, b: Date)
    requires Valid(a) && Valid(b) && Earlier(a, b)
    ensures Ordinal(a) < Ordinal(b)
  {
    hide DaysIn, DaysBeforeYear, DaysBeforeMonth;
    if a.y < b.y {
      WithinYear(a);
      WithinYear(b);
      YearsGrow(a.y + 1, b.y);
    } else if a.m < b.m {
      MonthsGrow(a.y, a.m, b.m);
    }
  }

  lemma DateOfOrdinal(date: Date)
    requires Valid(date) && Ordinal(date) >= 1
    ensures DateOf(Ordinal(date)) == date
  {
    var other := DateOf(Ordinal(date));
    OrdinalOfDate(Ordinal(date));
    if other != date {
      if Earlier(other, date) {
        OrdinalOrders(other, date);
      } else {
        OrdinalOrders(date, other);
      }
    }
  }

  /** The longest a month ever gets. */
  function Longest(m: int): int {
    if m == 2 then 29 else if m == 4 || m == 6 || m == 9 || m == 11 then 30 else 31
  }

  lemma FourthYear(y: int) returns (first: int)
    ensures y < first <= y + 4 && first % 4 == 0
  {
    first := y + 4 - y % 4;
  }

  lemma FourLater(first: int)
    requires first % 100 == 0
    ensures (first + 4) % 100 == 4
  {
  }

  /** Two leap years are never more than eight years apart. */
  lemma LeapWithinEight(y: int) returns (leap: int)
    ensures y < leap <= y + 8 && IsLeap(leap)
  {
    var first := FourthYear(y);
    if IsLeap(first) {
      leap := first;
    } else {
      FourLater(first);
      leap := first + 4;
    }
  }

  /** Every day that some month can have comes round again within nine years. */
  lemma DayComesRound(n: nat, m: int, d: int) returns (date: Date)
    requires n >= 1 && 1 <= m <= 12 && 1 <= d <= Longest(m)
    ensures Valid(date) && date.m == m && date.d == d
    ensures n < Ordinal(date) <= n + 9 * 366 - 3
  {
    var today := DateOf(n);
    OrdinalOfDate(n);
    var year: int;
    if d <= DaysIn(today.y + 1, m) {
      year := today.y + 1;
    } else {
      year := LeapWithinEight(today.y);
    }
    date := Date(year, m, d);
    OrdinalOrders(today, date);
    LateInYear(n, date);
  }

  lemma LateInYear(n: nat, date: Date)
    requires n >= 1 && Valid(date)
    requires DateOf(n).y < date.y <= DateOf(n).y + 1 || (date.y <= DateOf(n).y + 8 && date.m == 2)
    ensures Ordinal(date) <= n + 9 * 366 - 3
  {
    var today := DateOf(n);
    OrdinalOfDate(n);
    WithinYear(today);
    WithinYear(date);
    YearLength(date.y);
    if date.y <= today.y {
      YearsGrow(date.y, today.y);
    } else {
      YearsGrow(today.y, date.y);
    }
    if date.m == 2 {
      assert DaysBeforeMonth(date.y, 2) == 31;
    }
  }

  lemma RoundUpToWeekday(a: int, w: int) returns (k: int)
    requires 0 <= w < 7
    ensures 0 <= k < 7 && (a + k) % 7 == w
  {
    k := (w - a) % 7;
  }

  /** Next year's first week of a month has every day of the week. */
  lemma FirstWeek(n: nat, m: int, w: int) returns (date: Date)
    requires n >= 1 && 1 <= m <= 12 && 0 <= w < 7
    ensures Valid(date) && date.m == m
    ensures n < Ordinal(date) <= n + 9 * 366 - 3 && Weekday(Ordinal(date)) == w
  {
    hide DaysBeforeYear, DaysBeforeMonth, DateOf;
    var today := DateOf(n);
    OrdinalOfDate(n);
    var k := RoundUpToWeekday(Ordinal(Date(today.y + 1, m, 1)), w);
    date := Date(today.y + 1, m, 1 + k);
    OrdinalOrders(today, date);
    LateInYear(n, date);
  }

  /** A year for each way a common year can begin, and for each way a leap year can. */
  function CommonYear(r: int): int {
    if r == 0 then 2001 else if r == 1 then 2002 else if r == 2 then 2003 else if r == 3 then 2009
    else if r == 4 then 2010 else if r == 5 then 2005 else 2006
  }

  function LeapYear(r: int): int {
    if r == 0 then 2024 else if r == 1 then 2008 else if r == 2 then 2020 else if r == 3 then 2004
    else if r == 4 then 2016 else if r == 5 then 2000 else 2012
  }

  lemma {:induction false} MonthsAlike(y: int, z: int, m: int)
    requires 1 <= m <= 13 && IsLeap(y) == IsLeap(z)
    ensures DaysBeforeMonth(y, m) == DaysBeforeMonth(z, m)
    decreases m
  {
    if m > 1 {
      MonthsAlike(y, z, m - 1);
    }
  }

  lemma AddModSeven(a: int, b: int, w: int)
    requires 0 <= w < 7 && a % 7 == (w - b) % 7
    ensures (a + b) % 7 == w
  {
  }

  /** Every day that some month can have falls on every day of the week in some year. */
  lemma DayOnWeekday(m: int, d: int, w: int) returns (date: Date)
    requires 1 <= m <= 12 && 1 <= d <= Longest(m) && 0 <= w < 7
    ensures Valid(date) && date.m == m && date.d == d
    ensures Ordinal(date) >= 1 && Weekday(Ordinal(date)) == w
  {
    hide DaysBeforeYear, DaysBeforeMonth;
    var leap := d > DaysIn(2001, m);
    var y0 := if leap then 2024 else 2001;
    var b := DaysBeforeMonth(y0, m) + d;
    var r := (w - b) % 7;
    var year := if leap then LeapYear(r) else CommonYear(r);
    YearsBegin(r);
    MonthsAlike(year, y0, m);
    date := Date(year, m, d);
    assert Valid(date);
    WithinYear(date);
    hide DaysIn;
    AddModSeven(DaysBeforeYear(year), b, w);
  }

  lemma YearStarts()
    ensures DaysBeforeYear(2000) == 730119 == 7 * 104302 + 5
    ensures DaysBeforeYear(2001) == 730485 == 7 * 104355 + 0
    ensures DaysBeforeYear(2002) == 730850 == 7 * 104407 + 1
    ensures DaysBeforeYear(2003) == 731215 == 7 * 104459 + 2
    ensures DaysBeforeYear(2004) == 731580 == 7 * 104511 + 3
    ensures DaysBeforeYear(2005) == 731946 == 7 * 104563 + 5
    ensures DaysBeforeYear(2006) == 732311 == 7 * 104615 + 6
    ensures DaysBeforeYear(2008) == 733041 == 7 * 104720 + 1
    ensures DaysBeforeYear(2009) == 733407 == 7 * 104772 + 3
    ensures DaysBeforeYear(2010) == 733772 == 7 * 104824 + 4
    ensures DaysBeforeYear(2012) == 734502 == 7 * 104928 + 6
    ensures DaysBeforeYear(2016) == 735963 == 7 * 105137 + 4
    ensures DaysBeforeYear(2020) == 737424 == 7 * 105346 + 2
    ensures DaysBeforeYear(2024) == 738885 == 7 * 105555 + 0
  {
  }

  lemma SevenTimes(q: int, r: int)
    requires 0 <= r < 7
    ensures (7 * q + r) % 7 == r
  {
  }

  lemma YearsBegin(r: int)
    requires 0 <= r < 7
    ensures DaysBeforeYear(CommonYear(r)) % 7 == r && !IsLeap(CommonYear(r))
    ensures DaysBeforeYear(LeapYear(r)) % 7 == r && IsLeap(LeapYear(r))
    ensures DaysBeforeYear(CommonYear(r)) >= 0 && DaysBeforeYear(LeapYear(r)) >= 0
  {
    hide DaysBeforeYear;
    YearStarts();
    SevenTimes(DaysBeforeYear(CommonYear(r)) / 7, r);
    SevenTimes(DaysBeforeYear(LeapYear(r)) / 7, r);
  }

}
