/**
  * The proleptic Gregorian calendar of ECMA-262 section 21.4.1: day numbers since 1970-01-01, civil
  * dates, and the proof that they are each other's inverse.
  */
module Calendar {
  datatype Civil = Civil(year: int, month: int, day: int)

  predicate IsLeap(y: int) {
    y % 4 == 0 && (y % 100 != 0 || y % 400 == 0)
  }

  function DaysInYear(y: int): int {
    if IsLeap(y) then 366 else 365
  }

  function DaysInMonth(y: int, m: int): int {
    if m == 2 then (if IsLeap(y) then 29 else 28)
    else if m == 4 || m == 6 || m == 9 || m == 11 then 30
    else 31
  }

  predicate ValidCivil(c: Civil) {
    1 <= c.month <= 12 && 1 <= c.day <= DaysInMonth(c.year, c.month)
  }

  /** The number of the first day of a year. */
  function DayFromYear(y: int): int {
    365 * (y - 1970) + (y - 1969) / 4 - (y - 1901) / 100 + (y - 1601) / 400
  }

  lemma YearStep(y: int)
    ensures DayFromYear(y + 1) == DayFromYear(y) + DaysInYear(y)
  {
    Fourths(y);
    Hundredths(y);
    FourHundredths(y);
    LeapRules(y);
  }

  lemma LeapRules(y: int)
    ensures y % 400 == 0 ==> y % 100 == 0
    ensures y % 100 == 0 ==> y % 4 == 0
  {
    HundredIsFourth(y);
    FourHundredIsHundred(y);
  }

  lemma HundredIsFourth(y: int)
    ensures y % 100 == 0 ==> y % 4 == 0
  {
    assert y % 100 == 0 ==> y == 4 * (25 * (y / 100));
  }

  lemma FourHundredIsHundred(y: int)
    ensures y % 400 == 0 ==> y % 100 == 0
  {
    assert y % 400 == 0 ==> y == 100 * (4 * (y / 400));
  }

  lemma Fourths(y: int)
    ensures (y + 1 - 1969) / 4 - (y - 1969) / 4 == if y % 4 == 0 then 1 else 0
  {
  }

  lemma Hundredths(y: int)
    ensures (y + 1 - 1901) / 100 - (y - 1901) / 100 == if y % 100 == 0 then 1 else 0
  {
    var q, r := (y - 1901) / 100, (y - 1901) % 100;
    assert y - 1900 == 100 * q + (r + 1) && y == 100 * (q + 19) + (r + 1);
    if r == 99 {
      assert (y - 1900) / 100 == q + 1 && y == 100 * (q + 20);
    } else {
      assert (y - 1900) / 100 == q && y % 100 == r + 1;
    }
  }

  lemma FourHundredths(y: int)
    ensures (y + 1 - 1601) / 400 - (y - 1601) / 400 == if y % 400 == 0 then 1 else 0
  {
    var q, r := (y - 1601) / 400, (y - 1601) % 400;
    assert y - 1600 == 400 * q + (r + 1) && y == 400 * (q + 4) + (r + 1);
    if r == 399 {
      assert (y - 1600) / 400 == q + 1 && y == 400 * (q + 5);
    } else {
      assert (y - 1600) / 400 == q && y % 400 == r + 1;
    }
  }

  /** The days of a year before its month m. */
  function DaysBefore(y: int, m: int): (d: int)
    requires 1 <= m <= 13
    decreases m
  {
    if m == 1 then 0 else DaysBefore(y, m - 1) + DaysInMonth(y, m - 1)
  }

  lemma MonthsFillYear(y: int)
    ensures DaysBefore(y, 13) == DaysInYear(y)
  {
    assert DaysBefore(y, 4) == DaysBefore(y, 3) + 31 == DaysInMonth(y, 2) + 62;
    assert DaysBefore(y, 7) == DaysBefore(y, 6) + 30 == DaysBefore(y, 4) + 91;
    assert DaysBefore(y, 10) == DaysBefore(y, 9) + 30 == DaysBefore(y, 7) + 92;
    assert DaysBefore(y, 13) == DaysBefore(y, 12) + 31 == DaysBefore(y, 10) + 92;
  }

  lemma {:induction false} MonthsAscend(y: int, m: int, n: int)
    requires 1 <= m <= n <= 13
    ensures DaysBefore(y, m) + 28 * (n - m) <= DaysBefore(y, n)
    decreases n
  {
    if m < n { MonthsAscend(y, m, n - 1); }
  }

  function DayNumber(c: Civil): int
    requires 1 <= c.month <= 12
  {
    DayFromYear(c.year) + DaysBefore(c.year, c.month) + c.day - 1
  }

  // ---------------------------------------------------------------- back to civil dates

  /** The largest year below `y` that has begun by `day`. */
  function YearBelow(day: int, y: int): (r: int)
    requires day < DayFromYear(y)
    ensures DayFromYear(r) <= day < DayFromYear(r + 1)
    decreases DayFromYear(y) - day
  {
    YearStep(y - 1);
    if DayFromYear(y - 1) <= day then y - 1 else YearBelow(day, y - 1)
  }

  function YearOf(day: int): (y: int)
    ensures DayFromYear(y) <= day < DayFromYear(y + 1)
  {
    if day < 0 then YearBelow(day, 1970) else YearBelow(day, 1970 + day / 365 + 1)
  }

  lemma {:induction false} YearsAscend(a: int, b: int)
    requires a <= b
    ensures DayFromYear(a) + 365 * (b - a) <= DayFromYear(b)
    decreases b - a
  {
    if a < b {
      YearsAscend(a, b - 1);
      YearStep(b - 1);
    }
  }

  /** A day lies in one year only. */
  lemma YearIsUnique(day: int, y: int)
    requires DayFromYear(y) <= day < DayFromYear(y + 1)
    ensures YearOf(day) == y
  {
    hide DayFromYear, YearOf;
    var r := YearOf(day);
    if r < y { YearsAscend(r + 1, y); } else if y < r { YearsAscend(y + 1, r); }
  }

  function MonthBelow(y: int, dayOfYear: int, m: int): (r: int)
    requires 2 <= m <= 13 && 0 <= dayOfYear < DaysBefore(y, m)
    ensures 1 <= r < m && DaysBefore(y, r) <= dayOfYear < DaysBefore(y, r + 1)
    decreases m
  {
    if DaysBefore(y, m - 1) <= dayOfYear then m - 1 else MonthBelow(y, dayOfYear, m - 1)
  }

  function CivilOf(day: int): (c: Civil)
    ensures ValidCivil(c)
  {
    var y := YearOf(day);
    YearStep(y);
    MonthsFillYear(y);
    var m := MonthBelow(y, day - DayFromYear(y), 13);
    Civil(y, m, day - DayFromYear(y) - DaysBefore(y, m) + 1)
  }

  /** Every day number is the number of its civil date. */
  lemma DayNumberOfCivil(day: int)
    ensures DayNumber(CivilOf(day)) == day
  {
  }

  /** And every civil date is the date of its day number. */
  lemma CivilOfDayNumber(c: Civil)
    requires ValidCivil(c)
    ensures CivilOf(DayNumber(c)) == c
  {
    hide DayFromYear, IsLeap, DaysInMonth, DaysInYear, YearOf;
    var day := DayNumber(c);
    MonthsAscend(c.year, 1, c.month);
    MonthsAscend(c.year, c.month + 1, 13);
    MonthsFillYear(c.year);
    YearStep(c.year);
    YearIsUnique(day, c.year);
    var m := CivilOf(day).month;
    if m < c.month { MonthsAscend(c.year, m + 1, c.month); } else if c.month < m { MonthsAscend(c.year, c.month + 1, m); }
  }

  /** Later days have later dates, so years ascend with days. */
  lemma LaterYear(day: int, y: int)
    ensures DayFromYear(y) <= day <==> y <= YearOf(day)
  {
    hide DayFromYear, YearOf;
    var r := YearOf(day);
    if y <= r { YearsAscend(y, r); } else { YearsAscend(r + 1, y); }
  }

  // ---------------------------------------------------------------- MakeDay and Date.UTC

  /** MakeDay: months and days that overflow carry, the month counted from 0. */
  function MakeDay(year: int, month: int, day: int): int {
    DayNumber(Civil(year + month / 12, month % 12 + 1, 1)) + day - 1
  }

  /** Date.UTC reads years 0 to 99 as 1900 to 1999. */
  function UtcDay(year: int, month: int, day: int): int {
    MakeDay(if 0 <= year <= 99 then 1900 + year else year, month, day)
  }

  /** A date survives Date.UTC and comes back as itself exactly when it is a real date outside years 0 to 99. */
  lemma SurvivesUtc(c: Civil)
    requires 0 <= c.year && 0 <= c.month && 0 <= c.day
    ensures CivilOf(UtcDay(c.year, c.month - 1, c.day)) == c <==> ValidCivil(c) && c.year > 99
  {
    var day := UtcDay(c.year, c.month - 1, c.day);
    if c.year <= 99 {
      RemappedYear(c);
    } else if ValidCivil(c) {
      assert (c.month - 1) / 12 == 0 && (c.month - 1) % 12 == c.month - 1;
      assert day == DayNumber(c);
      CivilOfDayNumber(c);
    }
  }

  lemma RemappedYear(c: Civil)
    requires 0 <= c.year <= 99 && 0 <= c.month && 0 <= c.day
    ensures CivilOf(UtcDay(c.year, c.month - 1, c.day)).year > 99
  {
    var day := UtcDay(c.year, c.month - 1, c.day);
    var y, m := 1900 + c.year + (c.month - 1) / 12, (c.month - 1) % 12 + 1;
    assert y >= 1899 && day == DayFromYear(y) + DaysBefore(y, m) + c.day - 1;
    MonthsAscend(y, 1, m);
    YearsAscend(1899, y);
    YearsAscend(1898, 1899);
    LaterYear(day, 1898);
  }
}
