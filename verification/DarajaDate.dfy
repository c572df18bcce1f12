/**
  * TransactionDate, yyyyMMddHHmmss as a number: how FakeAdapter writes it and how the callback path
  * reads it. They disagree by the Nairobi offset, because one writes UTC and the other reads EAT.
  */
module DarajaDate {
  import opened Common
  import opened Calendar
  import opened BusinessDay
  import Fake

  function Pack(c: Civil, hours: int, minutes: int, seconds: int): int {
    c.year * 10_000_000_000 + c.month * 100_000_000 + c.day * 1_000_000 + hours * 10_000 + minutes * 100 + seconds
  }

  /** formatDarajaDate, in UTC: the fields one after the other, read as a number; a sign comes first. */
  function Format(at: Instant): int {
    var c, time := CivilOf(at / DAY), at % DAY;
    var hours, minutes, seconds := time / 3_600_000, time / 60_000 % 60, time / 1000 % 60;
    if c.year < 0 then -Pack(c.(year := -c.year), hours, minutes, seconds) else Pack(c, hours, minutes, seconds)
  }

  /** parseDarajaDate of a number: Date.UTC with three hours taken off. */
  function Parse(v: int): Option<Instant> {
    if !(10_000_000_000_000 <= v < 100_000_000_000_000) then None
    else
      var hours, minutes, seconds := v / 10_000 % 100, v / 100 % 100, v % 100;
      Some(UtcDay(v / 10_000_000_000, v / 100_000_000 % 100 - 1, v / 1_000_000 % 100) * DAY
        + (hours - 3) * 3_600_000 + minutes * 60_000 + seconds * 1000)
  }

  lemma Split2(a: int, b: int)
    requires 0 <= b < 100
    ensures (a * 100 + b) / 100 == a && (a * 100 + b) % 100 == b
  {
  }

  lemma Split4(a: int, b: int)
    requires 0 <= b < 10_000
    ensures (a * 10_000 + b) / 10_000 == a
  {
  }

  lemma Split6(a: int, b: int)
    requires 0 <= b < 1_000_000
    ensures (a * 1_000_000 + b) / 1_000_000 == a
  {
  }

  lemma Split8(a: int, b: int)
    requires 0 <= b < 100_000_000
    ensures (a * 100_000_000 + b) / 100_000_000 == a
  {
  }

  lemma Split10(a: int, b: int)
    requires 0 <= b < 10_000_000_000
    ensures (a * 10_000_000_000 + b) / 10_000_000_000 == a
  {
  }

  /** The fields of a packed date come apart again. */
  lemma Unpack(c: Civil, hours: int, minutes: int, seconds: int)
    requires 1000 <= c.year <= 9999 && 0 <= c.month <= 99 && 0 <= c.day <= 99
    requires 0 <= hours <= 99 && 0 <= minutes <= 99 && 0 <= seconds <= 99
    ensures var v := Pack(c, hours, minutes, seconds);
      && 10_000_000_000_000 <= v < 100_000_000_000_000
      && v / 10_000_000_000 == c.year && v / 100_000_000 % 100 == c.month && v / 1_000_000 % 100 == c.day
      && v / 10_000 % 100 == hours && v / 100 % 100 == minutes && v % 100 == seconds
  {
    var ym := c.year * 100 + c.month;
    var ymd := ym * 100 + c.day;
    var ymdh := ymd * 100 + hours;
    var ymdhm := ymdh * 100 + minutes;
    Split2(ymdhm, seconds);
    Split4(ymdh, minutes * 100 + seconds);
    Split6(ymd, hours * 10_000 + minutes * 100 + seconds);
    Split8(ym, c.day * 1_000_000 + hours * 10_000 + minutes * 100 + seconds);
    Split10(c.year, c.month * 100_000_000 + c.day * 1_000_000 + hours * 10_000 + minutes * 100 + seconds);
    Split2(ymdh, minutes);
    Split2(ymd, hours);
    Split2(ym, c.day);
    Split2(c.year, c.month);
  }

  lemma ClockParts(time: int)
    requires 0 <= time < DAY
    ensures var h, m, s := time / 3_600_000, time / 60_000 % 60, time / 1000 % 60;
      && 0 <= h <= 23 && 0 <= m <= 59 && 0 <= s <= 59
      && h * 3_600_000 + m * 60_000 + s * 1000 == time - time % 1000
  {
    var seconds := time / 1000;
    assert time / 60_000 == seconds / 60 && time / 3_600_000 == seconds / 60 / 60;
  }

  lemma WithinSecond(day: int, time: int)
    requires 0 <= time < DAY
    ensures (day * DAY + time) % 1000 == time % 1000
  {
    var q, r := day * 86_400 + time / 1000, time % 1000;
    assert day * DAY + time == 1000 * q + r;
    Remainder(q, r);
  }

  lemma Remainder(q: int, r: int)
    requires 0 <= r < 1000
    ensures (1000 * q + r) % 1000 == r
  {
  }

  lemma ParsesFields(v: int, c: Civil, hours: int, minutes: int, seconds: int)
    requires 10_000_000_000_000 <= v < 100_000_000_000_000
    requires v / 10_000_000_000 == c.year && v / 100_000_000 % 100 == c.month && v / 1_000_000 % 100 == c.day
    requires v / 10_000 % 100 == hours && v / 100 % 100 == minutes && v % 100 == seconds
    ensures Parse(v) == Some(UtcDay(c.year, c.month - 1, c.day) * DAY
      + hours * 3_600_000 + minutes * 60_000 + seconds * 1000 - EAT_OFFSET)
  {
    hide UtcDay;
  }

  /**
    * What the fake writes reads back to the second, three hours early, exactly when the year has four
    * digits as a number; any other date does not parse, and the callback's own time is taken instead.
    */
  lemma ReadsThreeHoursEarly(at: Instant)
    ensures Parse(Format(at)) ==
      if 1000 <= CivilOf(at / DAY).year <= 9999 then Some(Fake.ReportedPaidAt(at)) else None
    ensures Fake.ReportedPaidAt(at) == at - at % 1000 - EAT_OFFSET
  {
    hide CivilOf, UtcDay, ValidCivil, Pack, Parse;
    var c, time := CivilOf(at / DAY), at % DAY;
    var h, m, s := time / 3_600_000, time / 60_000 % 60, time / 1000 % 60;
    ClockParts(time);
    DaysFit(c);
    if 1000 <= c.year <= 9999 {
      Unpack(c, h, m, s);
      ParsesFields(Pack(c, h, m, s), c, h, m, s);
      PlainUtc(at / DAY);
      WithinSecond(at / DAY, time);
    } else {
      NotFourteenDigits(c, h, m, s);
    }
  }

  lemma NotFourteenDigits(c: Civil, hours: int, minutes: int, seconds: int)
    requires !(1000 <= c.year <= 9999) && 1 <= c.month <= 12 && 1 <= c.day <= 31
    requires 0 <= hours <= 23 && 0 <= minutes <= 59 && 0 <= seconds <= 59
    ensures c.year >= 0 ==> Parse(Pack(c, hours, minutes, seconds)).None?
    ensures c.year < 0 ==> Parse(-Pack(c.(year := -c.year), hours, minutes, seconds)).None?
  {
  }

  lemma DaysFit(c: Civil)
    requires ValidCivil(c)
    ensures 1 <= c.month <= 12 && 1 <= c.day <= 31
  {
  }

  lemma PlainUtc(day: int)
    requires 1000 <= CivilOf(day).year
    ensures var c := CivilOf(day); UtcDay(c.year, c.month - 1, c.day) == day
  {
    hide CivilOf, DayFromYear, DaysBefore, ValidCivil;
    var c := CivilOf(day);
    DaysFit(c);
    assert (c.month - 1) / 12 == 0 && (c.month - 1) % 12 == c.month - 1;
    DayNumberOfCivil(day);
  }
}
