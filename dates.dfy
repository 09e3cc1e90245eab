/**
 * Calendar arithmetic of Python's `datetime`: leap years, month lengths,
 * proleptic Gregorian ordinals, and day numbers and midnights counted
 * from 1970-01-01.
 */
module Dates {
  import opened Basics

  /** Gregorian leap years, as `datetime` counts them. */
  predicate IsLeap(year: int) {
    year % 4 == 0 && (year % 100 != 0 || year % 400 == 0)
  }

  function DaysInMonth(year: int, month: int): (n: int)
    requires 1 <= month <= 12
    ensures 28 <= n <= 31
  {
    if month == 2 then (if IsLeap(year) then 29 else 28)
    else if month == 4 || month == 6 || month == 9 || month == 11 then 30
    else 31
  }

  function DaysBeforeMonth(year: int, month: int): int
    requires 1 <= month <= 12
  {
    if month == 1 then 0 else DaysBeforeMonth(year, month - 1) + DaysInMonth(year, month - 1)
  }

  /** Days before January 1st of a year, counted from 0001-01-01. */
  function DaysBeforeYear(year: int): int {
    var y := year - 1;
    y * 365 + y / 4 - y / 100 + y / 400
  }

  /** The proleptic Gregorian ordinal of `date.toordinal()`: 0001-01-01 is day 1. */
  function Ordinal(year: int, month: int, day: int): int
    requires 1 <= month <= 12
  {
    DaysBeforeYear(year) + DaysBeforeMonth(year, month) + day
  }

  /** 1970-01-01, where the seconds count from. */
  const EpochOrdinal := 719163

  lemma EpochIsNewYear1970()
    ensures Ordinal(1970, 1, 1) == EpochOrdinal
  {
  }

  /** Midnight at the start of a day, in seconds. */
  function Midnight(year: int, month: int, day: int): int
    requires 1 <= month <= 12
  {
    (Ordinal(year, month, day) - EpochOrdinal) * SecondsPerDay
  }

  lemma {:induction false} MulAtLeast(k: int, n: int)
    requires k > 0 && n >= 1
    ensures k * n >= k
    decreases n
  {
    if n > 1 {
      MulAtLeast(k, n - 1);
      assert k * n == k * (n - 1) + k;
    }
  }

  lemma DivUnique(y: int, k: int, a: int, b: int)
    requires k > 0 && y == k * a + b && 0 <= b < k
    ensures y / k == a
  {
    var q := y / k;
    var r := y % k;
    assert k * (a - q) == r - b;
    if a - q >= 1 {
      MulAtLeast(k, a - q);
    } else if a - q <= -1 {
      MulAtLeast(k, q - a);
    }
  }

  lemma DivStep(y: int, k: int)
    requires k > 0
    ensures y / k - (y - 1) / k == if y % k == 0 then 1 else 0
  {
    var q := (y - 1) / k;
    var r := (y - 1) % k;
    if r == k - 1 {
      DivUnique(y, k, q + 1, 0);
    } else {
      DivUnique(y, k, q, r + 1);
    }
  }

  /** A year holds 366 days when it is a leap year and 365 otherwise. */
  lemma YearLength(year: int)
    ensures DaysBeforeYear(year + 1) == DaysBeforeYear(year) + (if IsLeap(year) then 366 else 365)
  {
    DivStep(year, 4);
    DivStep(year, 100);
    DivStep(year, 400);
    var y := year - 1;
    assert year * 365 == y * 365 + 365;
    assert DaysBeforeYear(year + 1) - DaysBeforeYear(year) ==
      365 + (year / 4 - y / 4) - (year / 100 - y / 100) + (year / 400 - y / 400);
    assert year % 400 == 0 ==> year % 100 == 0 && year % 4 == 0;
    assert year % 100 == 0 ==> year % 4 == 0;
  }

  /** The first of the next month follows the last day of this one; December rolls into January. */
  lemma NextMonthFollows(year: int, month: int)
    requires 1 <= month <= 12
    ensures month < 12 ==> Ordinal(year, month + 1, 1) == Ordinal(year, month, DaysInMonth(year, month)) + 1
    ensures month == 12 ==> Ordinal(year + 1, 1, 1) == Ordinal(year, 12, 31) + 1
  {
    if month == 12 {
      YearLength(year);
      DaysBeforeDecember(year);
    }
  }

  /** January to November hold 334 days, one more in a leap year. */
  lemma DaysBeforeDecember(year: int)
    ensures DaysBeforeMonth(year, 12) == if IsLeap(year) then 335 else 334
  {
    var feb := DaysInMonth(year, 2);
    assert DaysBeforeMonth(year, 2) == 31;
    assert DaysBeforeMonth(year, 3) == 31 + feb;
    assert DaysBeforeMonth(year, 4) == 62 + feb;
    assert DaysBeforeMonth(year, 5) == 92 + feb;
    assert DaysBeforeMonth(year, 6) == 123 + feb;
    assert DaysBeforeMonth(year, 7) == 153 + feb;
    assert DaysBeforeMonth(year, 8) == 184 + feb;
    assert DaysBeforeMonth(year, 9) == 215 + feb;
    assert DaysBeforeMonth(year, 10) == 245 + feb;
    assert DaysBeforeMonth(year, 11) == 276 + feb;
  }

  /** The day number (days since 1970-01-01) of a date. */
  function DayNumber(year: int, month: int, day: int): int
    requires 1 <= month <= 12
  {
    Ordinal(year, month, day) - EpochOrdinal
  }

  /**
   * The first and last day of a month as `date(year, month, 1)` and the
   * first of the next month minus one day give them; `date` refuses a month
   * outside 1..12 and a year outside 1..9999, December 9999 included
   * because its next month is out of range (None).
   */
  function MonthDays(year: int, month: int): (r: Option<(int, int)>)
    ensures r.None? <==> !(1 <= year <= 9999 && 1 <= month <= 12) || (year == 9999 && month == 12)
    ensures r.Some? ==> r.value.0 == DayNumber(year, month, 1) && r.value.1 == DayNumber(year, month, DaysInMonth(year, month))
  {
    if !(1 <= year <= 9999 && 1 <= month <= 12) || (year == 9999 && month == 12) then None
    else
      NextMonthFollows(year, month);
      var next := if month == 12 then DayNumber(year + 1, 1, 1) else DayNumber(year, month + 1, 1);
      Some((DayNumber(year, month, 1), next - 1))
  }

  /** A `datetime` broken into the fields `strftime` prints. */
  datatype DateTime = DateTime(year: int, month: int, day: int, hour: int, minute: int, second: int)

  predicate ValidDateTime(d: DateTime) {
    1 <= d.month <= 12 && 1 <= d.day <= DaysInMonth(d.year, d.month) &&
    0 <= d.hour < 24 && 0 <= d.minute < 60 && 0 <= d.second < 60
  }

  function YearDays(year: int): int {
    if IsLeap(year) then 366 else 365
  }

  /** Seconds since 1970-01-01 00:00:00 of a date and time. */
  function SecondsOf(d: DateTime): int
    requires 1 <= d.month <= 12
  {
    Midnight(d.year, d.month, d.day) + d.hour * 3600 + d.minute * 60 + d.second
  }

  /** The year holding the day `offset` days after January 1st of `year`, and that day's place in it. */
  function SplitYear(year: int, offset: int): (r: (int, int))
    ensures 0 <= r.1 < YearDays(r.0)
    ensures DaysBeforeYear(r.0) + r.1 == DaysBeforeYear(year) + offset
    decreases if offset < 0 then 366 - offset else offset
  {
    if offset < 0 then
      YearLength(year - 1);
      SplitYear(year - 1, offset + YearDays(year - 1))
    else if offset >= YearDays(year) then
      YearLength(year);
      SplitYear(year + 1, offset - YearDays(year))
    else (year, offset)
  }

  /** The month and day of the month of the day `offset` days after the first of `month`. */
  function SplitMonth(year: int, month: int, offset: int): (r: (int, int))
    requires 1 <= month <= 12 && 0 <= offset
    requires DaysBeforeMonth(year, month) + offset < YearDays(year)
    ensures 1 <= r.0 <= 12 && 1 <= r.1 <= DaysInMonth(year, r.0)
    ensures DaysBeforeMonth(year, r.0) + r.1 - 1 == DaysBeforeMonth(year, month) + offset
    decreases 12 - month
  {
    if offset < DaysInMonth(year, month) then (month, offset + 1)
    else
      assert month < 12 by { DaysBeforeDecember(year); }
      SplitMonth(year, month + 1, offset - DaysInMonth(year, month))
  }

  /** The naive `datetime` that lies `t` seconds after 1970-01-01 00:00:00. */
  function DateTimeOf(t: int): (d: DateTime)
    ensures ValidDateTime(d) && SecondsOf(d) == t
  {
    var days := t / SecondsPerDay;
    var secs := t % SecondsPerDay;
    var (year, offset) := SplitYear(1970, days);
    var (month, day) := SplitMonth(year, 1, offset);
    var d := DateTime(year, month, day, secs / 3600, secs % 3600 / 60, secs % 60);
    assert Ordinal(year, month, day) == EpochOrdinal + days;
    ClockSplits(secs);
    d
  }

  lemma ClockSplits(secs: int)
    requires 0 <= secs < SecondsPerDay
    ensures 0 <= secs / 3600 < 24 && 0 <= secs % 3600 / 60 < 60
    ensures secs / 3600 * 3600 + secs % 3600 / 60 * 60 + secs % 60 == secs
  {
  }

  /** Two decimal digits, as `%m`, `%d`, `%H`, `%M` and `%S` print them. */
  function TwoDigits(n: int): (r: string)
    requires 0 <= n < 100
  {
    [DigitChar(n / 10), DigitChar(n % 10)]
  }

  /** Four decimal digits, as `%Y` prints a year. */
  function FourDigits(n: int): (r: string)
    requires 0 <= n < 10000
  {
    TwoDigits(n / 100) + TwoDigits(n % 100)
  }

  /** `strftime('%Y-%m-%d %H:%M:%S')`. */
  function Strftime(d: DateTime): (r: string)
    requires ValidDateTime(d) && 1 <= d.year <= 9999
  {
    FourDigits(d.year) + "-" + TwoDigits(d.month) + "-" + TwoDigits(d.day) + " " +
    TwoDigits(d.hour) + ":" + TwoDigits(d.minute) + ":" + TwoDigits(d.second)
  }

  /** Text of the `YYYY-MM-DD HH:MM:SS` shape: nineteen characters, digits between the separators. */
  predicate DateTimeShaped(s: string) {
    |s| == 19 && s[4] == '-' && s[7] == '-' && s[10] == ' ' && s[13] == ':' && s[16] == ':' &&
    AllDigits(s[0..4]) && AllDigits(s[5..7]) && AllDigits(s[8..10]) &&
    AllDigits(s[11..13]) && AllDigits(s[14..16]) && AllDigits(s[17..19])
  }

  /** The fields a reader of the text takes back from it. */
  function ReadBack(s: string): (d: DateTime)
    requires DateTimeShaped(s)
  {
    DateTime(DigitsValue(s[0..4]), DigitsValue(s[5..7]), DigitsValue(s[8..10]),
             DigitsValue(s[11..13]), DigitsValue(s[14..16]), DigitsValue(s[17..19]))
  }

  lemma TwoDigitsReadBack(n: int)
    requires 0 <= n < 100
    ensures |TwoDigits(n)| == 2 && AllDigits(TwoDigits(n)) && DigitsValue(TwoDigits(n)) == n
  {
    var s := TwoDigits(n);
    var hi := [DigitChar(n / 10)];
    assert s[..1] == hi;
    assert hi[..0] == [];
    assert DigitsValue(hi) == n / 10;
    assert DigitsValue(s) == DigitsValue(hi) * 10 + n % 10;
  }

  lemma FourDigitsReadBack(n: int)
    requires 0 <= n < 10000
    ensures |FourDigits(n)| == 4 && AllDigits(FourDigits(n)) && DigitsValue(FourDigits(n)) == n
  {
    var hi, lo := TwoDigits(n / 100), TwoDigits(n % 100);
    TwoDigitsReadBack(n / 100);
    TwoDigitsReadBack(n % 100);
    var s := hi + lo;
    assert s[..3] == hi + lo[..1];
    assert s[..3][..2] == hi;
    assert DigitsValue(s[..3]) == DigitsValue(hi) * 10 + (lo[0] as int - '0' as int);
    assert DigitsValue(lo) == (lo[0] as int - '0' as int) * 10 + (lo[1] as int - '0' as int) by {
      assert lo[..1][..0] == [];
    }
  }

  /** The printed text has the `YYYY-MM-DD HH:MM:SS` shape and its fields read back as the datetime's. */
  lemma StrftimeReadsBack(d: DateTime)
    requires ValidDateTime(d) && 1 <= d.year <= 9999
    ensures DateTimeShaped(Strftime(d)) && ReadBack(Strftime(d)) == d
  {
    FourDigitsReadBack(d.year);
    TwoDigitsReadBack(d.month);
    TwoDigitsReadBack(d.day);
    TwoDigitsReadBack(d.hour);
    TwoDigitsReadBack(d.minute);
    TwoDigitsReadBack(d.second);
    var s := Strftime(d);
    assert s[0..4] == FourDigits(d.year);
    assert s[5..7] == TwoDigits(d.month);
    assert s[8..10] == TwoDigits(d.day);
    assert s[11..13] == TwoDigits(d.hour);
    assert s[14..16] == TwoDigits(d.minute);
    assert s[17..19] == TwoDigits(d.second);
  }

  /**
   * What a `datetime` held as `t` seconds prints as, or `None` when its
   * year lies outside 1..9999, where no `datetime` exists.
   */
  function FormatSeconds(t: int): (r: Option<string>)
    ensures r.Some? <==> 1 <= DateTimeOf(t).year <= 9999
    ensures r.Some? ==> DateTimeShaped(r.value) && ValidDateTime(ReadBack(r.value)) && SecondsOf(ReadBack(r.value)) == t
  {
    var d := DateTimeOf(t);
    if 1 <= d.year <= 9999 then
      StrftimeReadsBack(d);
      Some(Strftime(d))
    else None
  }
}
