/** Calendar dates as Python's `datetime` sees them: the `%Y-%m-%d` parse
    that `datetime.strptime` performs (used by the crypto input validator and
    by the historical price lookup), the proleptic Gregorian leap-year rule,
    and the conversion of a date at UTC midnight to POSIX seconds since the
    epoch (section 4.16 of POSIX.1-2017, "Seconds Since the Epoch"). */
module Calendar {
  import opened Common

  datatype Date = Date(year: int, month: int, day: int)

  /** Gregorian rule: every fourth year, except centuries not divisible by 400. */
  predicate IsLeapYear(y: int)
  {
    y % 4 == 0 && (y % 100 != 0 || y % 400 == 0)
  }

  function DaysInMonth(y: int, m: int): (n: int)
    requires 1 <= m <= 12
    ensures 28 <= n <= 31
    ensures m == 2 ==> (n == 29 <==> IsLeapYear(y))
  {
    if m == 2 then (if IsLeapYear(y) then 29 else 28)
    else if m == 4 || m == 6 || m == 9 || m == 11 then 30
    else 31
  }

  /** The dates `datetime.date` can represent: years 1 to 9999, real months and days. */
  predicate ValidDate(d: Date)
  {
    1 <= d.year <= 9999 && 1 <= d.month <= 12 && 1 <= d.day <= DaysInMonth(d.year, d.month)
  }

  // ---------------------------------------------------------------------
  // datetime.strptime(s, "%Y-%m-%d")

  predicate IsDigit(c: char)
  {
    '0' <= c <= '9'
  }

  function DigitValue(c: char): (n: nat)
    requires IsDigit(c)
    ensures n <= 9
  {
    c as int - '0' as int
  }

  predicate AllDigits(s: string)
  {
    forall i :: 0 <= i < |s| ==> IsDigit(s[i])
  }

  /** The number a string of decimal digits spells. */
  function DigitsValue(s: string): nat
    requires AllDigits(s)
  {
    if s == [] then 0 else DigitsValue(s[..|s| - 1]) * 10 + DigitValue(s[|s| - 1])
  }

  /** A matched field: how many characters it took and the number it spells. */
  datatype Field = Field(length: nat, value: int)

  /** The month field `1[0-2]|0[1-9]|[1-9]`, which must be followed by `-`; CPython's regex
      backtracks from the two-character alternatives to the one-character one. */
  function MonthField(rest: string): (f: Option<Field>)
    ensures f.Some? ==> 1 <= f.value.length <= 2 && |rest| > f.value.length
                        && rest[f.value.length] == '-' && 1 <= f.value.value <= 12
  {
    if |rest| >= 3 && rest[2] == '-' && rest[0] == '1' && '0' <= rest[1] <= '2' then
      Some(Field(2, 10 + DigitValue(rest[1])))
    else if |rest| >= 3 && rest[2] == '-' && rest[0] == '0' && '1' <= rest[1] <= '9' then
      Some(Field(2, DigitValue(rest[1])))
    else if |rest| >= 2 && rest[1] == '-' && '1' <= rest[0] <= '9' then
      Some(Field(1, DigitValue(rest[0])))
    else None
  }

  /** The first alternative of `3[01]|[12]\d|0[1-9]|[1-9]| [1-9]` that matches at the start of
      `rest`; the day is the last field, so the regex takes that alternative and stops. */
  function DayField(rest: string): (f: Option<Field>)
    ensures f.Some? ==> 1 <= f.value.length <= 2 && f.value.length <= |rest| && 1 <= f.value.value <= 31
  {
    if |rest| >= 2 && rest[0] == '3' && '0' <= rest[1] <= '1' then
      Some(Field(2, 30 + DigitValue(rest[1])))
    else if |rest| >= 2 && '1' <= rest[0] <= '2' && IsDigit(rest[1]) then
      Some(Field(2, DigitValue(rest[0]) * 10 + DigitValue(rest[1])))
    else if |rest| >= 2 && rest[0] == '0' && '1' <= rest[1] <= '9' then
      Some(Field(2, DigitValue(rest[1])))
    else if |rest| >= 1 && '1' <= rest[0] <= '9' then
      Some(Field(1, DigitValue(rest[0])))
    else if |rest| >= 2 && rest[0] == ' ' && '1' <= rest[1] <= '9' then
      Some(Field(2, DigitValue(rest[1])))
    else None
  }

  /** `datetime.strptime(s, "%Y-%m-%d")`: the date, or the text of the `ValueError` CPython
      raises. `%Y` is exactly four digits; after the regex matches, the leftover text and the
      date's range are checked. */
  function Strptime(s: string): (r: Result<Date, string>)
    ensures r.Ok? ==> ValidDate(r.value)
  {
    var noMatch := "time data " + Repr(s) + " does not match format '%Y-%m-%d'";
    if !(|s| >= 5 && IsDigit(s[0]) && IsDigit(s[1]) && IsDigit(s[2]) && IsDigit(s[3]) && s[4] == '-') then
      Err(noMatch)
    else
      var year := DigitValue(s[0]) * 1000 + DigitValue(s[1]) * 100 + DigitValue(s[2]) * 10 + DigitValue(s[3]);
      match MonthField(s[5..])
      case None => Err(noMatch)
      case Some(month) =>
        var dayPart := s[5 + month.length + 1..];
        match DayField(dayPart)
        case None => Err(noMatch)
        case Some(day) =>
          if day.length < |dayPart| then Err("unconverted data remains: " + dayPart[day.length..])
          else if year < 1 then Err("year 0 is out of range")
          else if day.value > DaysInMonth(year, month.value) then Err("day is out of range for month")
          else Ok(Date(year, month.value, day.value))
  }

  function Digit(n: int): (c: char)
    requires 0 <= n <= 9
    ensures IsDigit(c) && DigitValue(c) == n
  {
    ('0' as int + n) as char
  }

  /** The zero-padded `YYYY-MM-DD` text of a date. */
  function FormatDate(d: Date): (s: string)
    requires ValidDate(d)
    ensures |s| == 10
  {
    var y := d.year;
    [Digit(y / 1000), Digit(y / 100 % 10), Digit(y / 10 % 10), Digit(y % 10), '-',
     Digit(d.month / 10), Digit(d.month % 10), '-',
     Digit(d.day / 10), Digit(d.day % 10)]
  }

  lemma FourDigits(y: int)
    requires 0 <= y <= 9999
    ensures y / 1000 * 1000 + y / 100 % 10 * 100 + y / 10 % 10 * 10 + y % 10 == y
    ensures 0 <= y / 1000 <= 9
  {
    var q1 := y / 10;
    var q2 := q1 / 10;
    var q3 := q2 / 10;
    assert y == 10 * q1 + y % 10;
    assert q1 == 10 * q2 + q1 % 10;
    assert q2 == 10 * q3 + q2 % 10;
    assert y / 100 == q2;
    assert y / 10 % 10 == q1 % 10;
    assert y / 1000 == q3;
  }

  lemma MonthFieldOfFormat(m: int, rest: string)
    requires 1 <= m <= 12 && |rest| >= 3
    requires rest[0] == Digit(m / 10) && rest[1] == Digit(m % 10) && rest[2] == '-'
    ensures MonthField(rest) == Some(Field(2, m))
  {
    if m >= 10 {
      assert rest[0] == '1';
    } else {
      assert rest[0] == '0' && rest[1] != '0';
    }
  }

  lemma DayFieldOfFormat(d: int, rest: string)
    requires 1 <= d <= 31 && |rest| == 2
    requires rest[0] == Digit(d / 10) && rest[1] == Digit(d % 10)
    ensures DayField(rest) == Some(Field(2, d))
  {
    if d >= 30 {
      assert rest[0] == '3';
    } else if d >= 10 {
      assert '1' <= rest[0] <= '2';
    } else {
      assert rest[0] == '0' && rest[1] != '0';
    }
  }

  /** Every representable date, written `YYYY-MM-DD`, parses back to itself. */
  lemma StrptimeFormatDate(d: Date)
    requires ValidDate(d)
    ensures Strptime(FormatDate(d)) == Ok(d)
  {
    var s := FormatDate(d);
    FourDigits(d.year);
    MonthFieldOfFormat(d.month, s[5..]);
    var dayPart := s[8..];
    assert s[5 + 2 + 1..] == dayPart;
    DayFieldOfFormat(d.day, dayPart);
  }

  /** 29 February exists in 2024 ... */
  lemma LeapDayAccepted()
    ensures Strptime("2024-02-29") == Ok(Date(2024, 2, 29))
  {
    var s := "2024-02-29";
    assert s[5..] == "02-29" && s[8..] == "29";
  }

  /** ... but not in 2023. */
  lemma LeapDayRejected()
    ensures Strptime("2023-02-29") == Err("day is out of range for month")
  {
    var s := "2023-02-29";
    assert s[5..] == "02-29" && s[8..] == "29";
  }

  /** Text that does not fit the pattern is quoted in the message as `repr` quotes it ... */
  lemma NoMatchQuoting()
    ensures Strptime("yesterday") == Err("time data " + Repr("yesterday") + " does not match format '%Y-%m-%d'")
    ensures Strptime("2024-01-0'") == Err("time data " + Repr("2024-01-0'") + " does not match format '%Y-%m-%d'")
  {
    assert "2024-01-0'"[5..] == "01-0'" && "2024-01-0'"[8..] == "0'";
  }

  /** ... in single quotes, or in double quotes when the text holds a single quote. */
  lemma NoMatchQuotes()
    ensures Repr("yesterday") == "'yesterday'"
    ensures Repr("2024-01-0'") == "\"2024-01-0'\""
  {
    assert '\'' !in "yesterday";
    assert "2024-01-0'"[9] == '\'';
  }

  /** CPython's `%m` and `%d` also take unpadded and blank-padded numbers ... */
  lemma LooseFieldsAccepted()
    ensures Strptime("2024-1-5") == Ok(Date(2024, 1, 5))
    ensures Strptime("2024-01- 5") == Ok(Date(2024, 1, 5))
  {
    assert "2024-1-5"[5..] == "1-5" && "2024-1-5"[7..] == "5";
    assert "2024-01- 5"[5..] == "01- 5" && "2024-01- 5"[8..] == " 5";
  }

  /** ... but no day 32 and no month 13. */
  lemma OutOfRangeFieldsRejected()
    ensures Strptime("2024-01-32").Err?
    ensures Strptime("2024-13-01").Err?
  {
    assert "2024-01-32"[5..] == "01-32" && "2024-01-32"[8..] == "32";
    assert "2024-13-01"[5..] == "13-01";
  }

  // ---------------------------------------------------------------------
  // Seconds since the epoch, as `int(datetime(y, m, d, tzinfo=UTC).timestamp())`

  /** Days in the years before `y` (Python's `_days_before_year`). */
  function DaysBeforeYear(y: int): int
    requires y >= 1
  {
    var n := y - 1;
    n * 365 + n / 4 - n / 100 + n / 400
  }

  /** Days in the months before `m` of year `y` (Python's `_days_before_month` table). */
  function DaysBeforeMonth(y: int, m: int): int
    requires 1 <= m <= 12
  {
    var table := [0, 31, 59, 90, 120, 151, 181, 212, 243, 273, 304, 334];
    table[m - 1] + (if m > 2 && IsLeapYear(y) then 1 else 0)
  }

  /** Proleptic Gregorian ordinal: 0001-01-01 is day 1 (`date.toordinal()`). */
  function Ordinal(d: Date): int
    requires ValidDate(d)
  {
    DaysBeforeYear(d.year) + DaysBeforeMonth(d.year, d.month) + d.day
  }

  const EpochOrdinal: int := 719163

  /** Seconds from 1970-01-01T00:00Z to the given date's UTC midnight. */
  function EpochSeconds(d: Date): (t: int)
    requires ValidDate(d)
    ensures t % 86400 == 0
    ensures d == Date(1970, 1, 1) ==> t == 0
  {
    (Ordinal(d) - EpochOrdinal) * 86400
  }

  function YearLength(y: int): int
  {
    if IsLeapYear(y) then 366 else 365
  }

  /** Reference count: the lengths of years 1 .. y-1 added one by one. */
  function DaysBeforeYearCounted(y: int): int
    requires y >= 1
  {
    if y == 1 then 0 else DaysBeforeYearCounted(y - 1) + YearLength(y - 1)
  }

  /** Reference count: the lengths of months 1 .. m-1 of year y added one by one. */
  function DaysBeforeMonthCounted(y: int, m: int): int
    requires 1 <= m <= 13
  {
    if m == 1 then 0 else DaysBeforeMonthCounted(y, m - 1) + DaysInMonth(y, m - 1)
  }

  lemma DivSteps(n: int)
    requires n >= 0
    ensures (n + 1) / 4 == n / 4 + (if (n + 1) % 4 == 0 then 1 else 0)
    ensures (n + 1) / 100 == n / 100 + (if (n + 1) % 100 == 0 then 1 else 0)
    ensures (n + 1) / 400 == n / 400 + (if (n + 1) % 400 == 0 then 1 else 0)
  {
  }

  /** A multiple of 400 is a multiple of 100, and a multiple of 100 a multiple of 4. */
  lemma LeapDivisors(x: int)
    ensures x % 400 == 0 ==> x % 100 == 0
    ensures x % 100 == 0 ==> x % 4 == 0
  {
    if x % 400 == 0 {
      var q := x / 400;
      assert x == 100 * (4 * q);
      assert x / 100 == 4 * q;
    }
    if x % 100 == 0 {
      var q := x / 100;
      assert x == 4 * (25 * q);
      assert x / 4 == 25 * q;
    }
  }

  /** The closed form Python uses agrees with counting the years one by one. */
  lemma {:induction false} DaysBeforeYearIsCount(y: int)
    requires y >= 1
    ensures DaysBeforeYear(y) == DaysBeforeYearCounted(y)
  {
    if y > 1 {
      DaysBeforeYearIsCount(y - 1);
      var n := y - 2;
      DivSteps(n);
      LeapDivisors(y - 1);
    }
  }

  /** The month table agrees with counting the month lengths one by one. */
  lemma {:induction false} DaysBeforeMonthIsCount(y: int, m: int)
    requires 1 <= m <= 12
    ensures DaysBeforeMonth(y, m) == DaysBeforeMonthCounted(y, m)
  {
    if m > 1 {
      DaysBeforeMonthIsCount(y, m - 1);
    }
  }

  /** A whole year is the twelve months counted one by one. */
  lemma YearIsTwelveMonths(y: int)
    ensures DaysBeforeMonthCounted(y, 13) == YearLength(y)
  {
    DaysBeforeMonthIsCount(y, 12);
  }

  /** The calendar day after `d`. */
  function NextDay(d: Date): (n: Date)
    requires ValidDate(d)
  {
    if d.day < DaysInMonth(d.year, d.month) then Date(d.year, d.month, d.day + 1)
    else if d.month < 12 then Date(d.year, d.month + 1, 1)
    else Date(d.year + 1, 1, 1)
  }

  /** Consecutive days are exactly 86400 seconds apart. */
  lemma NextDayAddsOneDay(d: Date)
    requires ValidDate(d) && (d.year < 9999 || !(d.month == 12 && d.day == 31))
    ensures ValidDate(NextDay(d))
    ensures EpochSeconds(NextDay(d)) == EpochSeconds(d) + 86400
  {
    var n := NextDay(d);
    if d.day == DaysInMonth(d.year, d.month) && d.month == 12 {
      DaysBeforeYearIsCount(d.year);
      DaysBeforeYearIsCount(d.year + 1);
      assert DaysBeforeYear(d.year + 1) == DaysBeforeYear(d.year) + YearLength(d.year);
    }
  }

  /** Concrete anchor: 2024-01-01 is 1704067200 seconds after the epoch. */
  lemma EpochSecondsExample()
    ensures EpochSeconds(Date(2024, 1, 1)) == 1704067200
    ensures EpochSeconds(Date(2023, 2, 28)) == 1677542400
  {
  }
}
