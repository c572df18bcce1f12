/** Business days in Africa/Nairobi: the day strings, their bounds, and the proof that they tile time. */
module BusinessDay {
  import opened Common
  import opened Calendar

  const DAY: int := 86_400_000
  const EAT_OFFSET: int := 180 * MINUTE
  const DEADLINE: int := 390 * MINUTE  // 06:30

  // ---------------------------------------------------------------- YYYY-MM-DD

  predicate IsDigit(c: char) { '0' <= c <= '9' }

  function Digit(n: int): (c: char)
    requires 0 <= n <= 9
    ensures IsDigit(c)
  {
    ('0' as int + n) as char
  }

  function Value(c: char): (n: int)
    requires IsDigit(c)
    ensures 0 <= n <= 9
  {
    c as int - '0' as int
  }

  // /^\d{4}-\d{2}-\d{2}$/
  predicate DayShape(s: string) {
    && |s| == 10 && s[4] == '-' && s[7] == '-'
    && IsDigit(s[0]) && IsDigit(s[1]) && IsDigit(s[2]) && IsDigit(s[3])
    && IsDigit(s[5]) && IsDigit(s[6]) && IsDigit(s[8]) && IsDigit(s[9])
  }

  function Fields(s: string): (c: Civil)
    requires DayShape(s)
    ensures 0 <= c.year <= 9999 && 0 <= c.month <= 99 && 0 <= c.day <= 99
  {
    Civil(Value(s[0]) * 1000 + Value(s[1]) * 100 + Value(s[2]) * 10 + Value(s[3]),
      Value(s[5]) * 10 + Value(s[6]), Value(s[8]) * 10 + Value(s[9]))
  }

  function Two(n: int): (s: string)
    requires 0 <= n <= 99
    ensures |s| == 2 && IsDigit(s[0]) && IsDigit(s[1])
  {
    [Digit(n / 10), Digit(n % 10)]
  }

  function Written(c: Civil): (s: string)
    requires 0 <= c.year <= 9999 && 0 <= c.month <= 99 && 0 <= c.day <= 99
    ensures DayShape(s)
  {
    Two(c.year / 100) + Two(c.year % 100) + "-" + Two(c.month) + "-" + Two(c.day)
  }

  /** Writing and reading a day are inverse, both ways round. */
  lemma ReadsWhatIsWritten(c: Civil, s: string)
    requires 0 <= c.year <= 9999 && 0 <= c.month <= 99 && 0 <= c.day <= 99 && DayShape(s)
    ensures Fields(Written(c)) == c
    ensures Written(Fields(s)) == s
  {
    var t := Written(c);
    assert t[0] == Digit(c.year / 100 / 10) && t[1] == Digit(c.year / 100 % 10);
    assert t[2] == Digit(c.year % 100 / 10) && t[3] == Digit(c.year % 100 % 10);
    assert t[5] == Digit(c.month / 10) && t[6] == Digit(c.month % 10);
    assert t[8] == Digit(c.day / 10) && t[9] == Digit(c.day % 10);
    WritesWhatIsRead(s);
  }

  lemma WritesWhatIsRead(s: string)
    requires DayShape(s)
    ensures Written(Fields(s)) == s
  {
    var c := Fields(s);
    assert c.year / 100 == Value(s[0]) * 10 + Value(s[1]) && c.year % 100 == Value(s[2]) * 10 + Value(s[3]);
    TwoDigits(s[0], s[1]);
    TwoDigits(s[2], s[3]);
    TwoDigits(s[5], s[6]);
    TwoDigits(s[8], s[9]);
    assert s == [s[0], s[1]] + [s[2], s[3]] + "-" + [s[5], s[6]] + "-" + [s[8], s[9]];
  }

  lemma TwoDigits(a: char, b: char)
    requires IsDigit(a) && IsDigit(b)
    ensures Two(Value(a) * 10 + Value(b)) == [a, b]
  {
  }

  // ---------------------------------------------------------------- isBusinessDay

  predicate IsBusinessDay(s: string) {
    DayShape(s) && var c := Fields(s); CivilOf(UtcDay(c.year, c.month - 1, c.day)) == c
  }

  predicate PlainDate(c: Civil) {
    ValidCivil(c) && 100 <= c.year <= 9999
  }

  /** The accepted strings are the real dates of years 100 to 9999, written out. */
  lemma BusinessDaysAreDates(s: string)
    ensures IsBusinessDay(s) <==> DayShape(s) && PlainDate(Fields(s))
    ensures IsBusinessDay(s) ==>
      s == Written(Fields(s))
      && UtcDay(Fields(s).year, Fields(s).month - 1, Fields(s).day) == DayNumber(Fields(s))
  {
    if DayShape(s) {
      var c := Fields(s);
      SurvivesUtc(c);
      WritesWhatIsRead(s);
      assert ValidCivil(c) && c.year > 99 ==> UtcDay(c.year, c.month - 1, c.day) == DayNumber(c);
    }
  }

  // ---------------------------------------------------------------- instants and days

  // 0100-01-01 and the day after 9999-12-31.
  const FIRST_PLAIN: int := -683_003
  const END_PLAIN: int := 2_932_897

  // The instants whose ISO date is a plain YYYY-MM-DD that Date.UTC reads back.
  predicate Plain(at: Instant) {
    FIRST_PLAIN * DAY <= at < END_PLAIN * DAY
  }

  lemma PlainYears(day: int)
    ensures FIRST_PLAIN <= day < END_PLAIN <==> 100 <= CivilOf(day).year <= 9999
  {
    assert DayFromYear(100) == FIRST_PLAIN && DayFromYear(10_000) == END_PLAIN;
    LaterYear(day, 100);
    LaterYear(day, 10_000);
  }

  lemma PlainDay(at: Instant)
    ensures Plain(at) <==> 100 <= CivilOf(at / DAY).year <= 9999
  {
    PlainYears(at / DAY);
    hide CivilOf;
    WithinDay(at, at / DAY);
  }

  // The instants a Date can hold.
  const MAX_TIME: int := 100_000_000 * DAY

  predicate ValidTime(at: Instant) {
    -MAX_TIME <= at <= MAX_TIME
  }

  lemma YearsFit(at: Instant)
    requires ValidTime(at)
    ensures -999_999 <= CivilOf(at / DAY).year <= 999_999
  {
    assert DayFromYear(-999_999) < -100_000_000 && 100_000_000 < DayFromYear(1_000_000);
    LaterYear(at / DAY, -999_999);
    LaterYear(at / DAY, 1_000_000);
    hide CivilOf, YearOf;
    WithinDay(at, at / DAY);
  }

  function Six(n: int): (s: string)
    requires 0 <= n <= 999_999
    ensures |s| == 6
  {
    Two(n / 10_000) + Two(n / 100 % 100) + Two(n % 100)
  }

  /** The first ten characters of an ISO date: a year outside 0 to 9999 is written with a sign and six digits. */
  function IsoText(c: Civil): (s: string)
    requires ValidCivil(c) && -999_999 <= c.year <= 999_999
    ensures |s| == 10 && (DayShape(s) <==> 0 <= c.year <= 9999)
  {
    if 0 <= c.year <= 9999 then Written(c)
    else if c.year < 0 then "-" + Six(-c.year) + "-" + Two(c.month)
    else "+" + Six(c.year) + "-" + Two(c.month)
  }

  /** toISOString().slice(0, 10); None: a RangeError. */
  function IsoDate(at: Instant): Option<string> {
    if !ValidTime(at) then None
    else
      YearsFit(at);
      Some(IsoText(CivilOf(at / DAY)))
  }

  function NairobiDate(at: Instant): Option<string> {
    IsoDate(at + EAT_OFFSET)
  }

  function BusinessDayToClose(at: Instant): Option<string> {
    IsoDate(at + EAT_OFFSET - DAY)
  }

  function StartOf(day: string): Instant
    requires DayShape(day)
  {
    UtcDay(Fields(day).year, Fields(day).month - 1, Fields(day).day) * DAY - EAT_OFFSET
  }

  function EndOf(day: string): Instant
    requires DayShape(day)
  {
    StartOf(day) + DAY
  }

  function PayoutDeadline(day: string): Instant
    requires DayShape(day)
  {
    EndOf(day) + DEADLINE
  }

  // Which day in sequence a business day is.
  function Index(day: string): int
    requires IsBusinessDay(day)
  {
    BusinessDaysAreDates(day);
    DayNumber(Fields(day))
  }

  /** An instant's ISO date is a business day exactly when the instant is plain, and then it is its own day. */
  lemma IsoDateIsDay(at: Instant)
    ensures (IsoDate(at).Some? && IsBusinessDay(IsoDate(at).value)) <==> Plain(at)
    ensures Plain(at) ==> IsoDate(at) == Some(Written(CivilOf(at / DAY))) && Index(IsoDate(at).value) == at / DAY
  {
    if ValidTime(at) {
      var c := CivilOf(at / DAY);
      PlainDay(at);
      YearsFit(at);
      DayNumberOfCivil(at / DAY);
      hide CivilOf, UtcDay;
      IsoTextIsDay(c);
    }
  }

  lemma IsoTextIsDay(c: Civil)
    requires ValidCivil(c) && -999_999 <= c.year <= 999_999
    ensures IsBusinessDay(IsoText(c)) <==> 100 <= c.year <= 9999
    ensures 100 <= c.year <= 9999 ==> IsoText(c) == Written(c) && Fields(IsoText(c)) == c
  {
    BusinessDaysAreDates(IsoText(c));
    if 0 <= c.year <= 9999 {
      ReadsWhatIsWritten(c, Written(c));
    }
  }

  lemma IndexIsInjective(a: string, b: string)
    requires IsBusinessDay(a) && IsBusinessDay(b) && Index(a) == Index(b)
    ensures a == b
  {
    BusinessDaysAreDates(a);
    BusinessDaysAreDates(b);
    CivilOfDayNumber(Fields(a));
    CivilOfDayNumber(Fields(b));
  }

  lemma BoundsByIndex(day: string)
    requires IsBusinessDay(day)
    ensures StartOf(day) == Index(day) * DAY - EAT_OFFSET && EndOf(day) == (Index(day) + 1) * DAY - EAT_OFFSET
  {
    hide UtcDay, DayNumber, CivilOf, ValidCivil, Written;
    BusinessDaysAreDates(day);
  }

  lemma WithinDay(at: Instant, n: int)
    ensures at / DAY == n <==> n * DAY <= at < n * DAY + DAY
  {
  }

  lemma DateByIndex(day: string, n: int)
    requires IsBusinessDay(day)
    ensures CivilOf(n) == Fields(day) <==> n == Index(day)
    ensures 100 <= Fields(day).year <= 9999 && Written(Fields(day)) == day
  {
    BusinessDaysAreDates(day);
    CivilOfDayNumber(Fields(day));
    DayNumberOfCivil(n);
  }

  /** An instant has a business day's date exactly when it lies in that day's bounds. */
  lemma DaysTileTime(day: string, at: Instant)
    requires IsBusinessDay(day)
    ensures StartOf(day) <= at < EndOf(day) <==> NairobiDate(at) == Some(day)
  {
    hide IsBusinessDay, DayShape, Fields, Written, CivilOf, StartOf, EndOf, Index, IsoDate;
    var shifted := at + EAT_OFFSET;
    BoundsByIndex(day);
    WithinDay(shifted, Index(day));
    DateByIndex(day, shifted / DAY);
    PlainDay(shifted);
    IsoDateIsDay(shifted);
  }

  /** Days follow one another without gap or overlap. */
  lemma DaysAdjoin(a: string, b: string)
    requires IsBusinessDay(a) && IsBusinessDay(b)
    ensures EndOf(a) == StartOf(b) <==> Index(b) == Index(a) + 1
    ensures EndOf(a) <= StartOf(b) <==> Index(a) < Index(b)
  {
    hide IsBusinessDay, StartOf, EndOf, Index;
    BoundsByIndex(a);
    BoundsByIndex(b);
  }

  /**
    * The day a close settles is a business day exactly when its instant is plain, and then it has ended,
    * and less than a day ago.
    */
  lemma ClosesEndedDay(at: Instant)
    ensures var day := BusinessDayToClose(at);
      && ((day.Some? && IsBusinessDay(day.value)) <==> Plain(at + EAT_OFFSET - DAY))
      && (day.Some? && IsBusinessDay(day.value) ==>
            EndOf(day.value) <= at < EndOf(day.value) + DAY && Index(day.value) == (at + EAT_OFFSET) / DAY - 1)
  {
    IsoDateIsDay(at + EAT_OFFSET - DAY);
    var day := BusinessDayToClose(at);
    hide IsBusinessDay, StartOf, EndOf, Index, IsoDate;
    if day.Some? && IsBusinessDay(day.value) {
      BoundsByIndex(day.value);
      WithinDay(at + EAT_OFFSET - DAY, Index(day.value));
      WithinDay(at + EAT_OFFSET, Index(day.value) + 1);
    }
  }

  /** The deadline is 06:30 the next morning, Nairobi time. */
  lemma DeadlineIsNextMorning(day: string)
    requires IsBusinessDay(day)
    ensures (PayoutDeadline(day) + EAT_OFFSET) / DAY == Index(day) + 1
    ensures (PayoutDeadline(day) + EAT_OFFSET) % DAY == DEADLINE
  {
    BoundsByIndex(day);
    hide IsBusinessDay, StartOf, EndOf, Index;
    var at := PayoutDeadline(day) + EAT_OFFSET;
    assert at == (Index(day) + 1) * DAY + DEADLINE;
    WithinDay(at, Index(day) + 1);
  }
}
