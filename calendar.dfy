/** The calendar arithmetic behind `datetime.strptime(s, "%Y-%m-%d")`,
    `date.weekday()` and `int(s.split("-")[1])`, as the predictor and the
    request view use them.

    `strptime` with this format accepts exactly: four digits, `-`, a month
    token (`10`-`12`, `01`-`09` or `1`-`9`), `-`, a day token (`30`, `31`,
    `10`-`29`, `01`-`09`, `1`-`9`, or a space followed by `1`-`9`), with
    nothing after it; it then rejects the result with a ValueError when the
    year is 0 or the day does not exist in that month (proleptic Gregorian
    calendar). The model reads only ASCII digits; Python's `%Y` and the
    `[12]\d` alternative of `%d` also match other Unicode decimal digits,
    which this model rejects. */
module Calendar {
  import opened Common

  datatype Date = Date(year: int, month: int, day: int)

  predicate IsLeap(y: int) {
    y % 4 == 0 && (y % 100 != 0 || y % 400 == 0)
  }

  function DaysInMonth(y: int, m: int): (n: int)
    requires 1 <= m <= 12
    ensures 28 <= n <= 31
    ensures m == 2 ==> (n == 29 <==> IsLeap(y))
  {
    if m == 2 then (if IsLeap(y) then 29 else 28)
    else if m == 4 || m == 6 || m == 9 || m == 11 then 30
    else 31
  }

  function DaysInYear(y: int): (n: int)
    ensures n == 365 || n == 366
    ensures n == 366 <==> IsLeap(y)
  {
    if IsLeap(y) then 366 else 365
  }

  /** A date that `datetime.date` can represent. */
  predicate ValidDate(d: Date) {
    1 <= d.year <= 9999 && 1 <= d.month <= 12 && 1 <= d.day <= DaysInMonth(d.year, d.month)
  }

  function DigitValue(c: char): int {
    c as int - '0' as int
  }

  /** The value of `%m`'s token, when the token matches that directive. */
  function MonthToken(t: string): (r: Option<int>)
    ensures r.Some? ==> 1 <= r.value <= 12 && 1 <= |t| <= 2
  {
    if |t| == 1 && '1' <= t[0] <= '9' then Some(DigitValue(t[0]))
    else if |t| == 2 && t[0] == '0' && '1' <= t[1] <= '9' then Some(DigitValue(t[1]))
    else if |t| == 2 && t[0] == '1' && '0' <= t[1] <= '2' then Some(10 + DigitValue(t[1]))
    else None
  }

  /** The value of `%d`'s token when the token is, in full, one of the
      directive's alternatives. */
  function DayToken(t: string): (r: Option<int>)
    ensures r.Some? ==> 1 <= r.value <= 31 && |t| in {1, 2}
  {
    if |t| == 1 && '1' <= t[0] <= '9' then Some(DigitValue(t[0]))
    else if |t| == 2 && t[0] == '3' && (t[1] == '0' || t[1] == '1') then Some(30 + DigitValue(t[1]))
    else if |t| == 2 && (t[0] == '1' || t[0] == '2') && IsAsciiDigit(t[1]) then Some(10 * DigitValue(t[0]) + DigitValue(t[1]))
    else if |t| == 2 && t[0] == '0' && '1' <= t[1] <= '9' then Some(DigitValue(t[1]))
    else if |t| == 2 && t[0] == ' ' && '1' <= t[1] <= '9' then Some(DigitValue(t[1]))
    else None
  }

  function Year4(s: string): int
    requires |s| >= 4
  {
    1000 * DigitValue(s[0]) + 100 * DigitValue(s[1]) + 10 * DigitValue(s[2]) + DigitValue(s[3])
  }

  /** Length of the month token: the characters between the first two dashes. */
  function MonthTokenLength(s: string): (n: nat)
    requires |s| >= 5
    ensures n == 0 || (n in {1, 2} && 5 + n < |s| && s[5 + n] == '-')
  {
    if |s| > 6 && s[6] == '-' then 1
    else if |s| > 7 && s[7] == '-' && s[5] != '-' && s[6] != '-' then 2
    else 0
  }

  /** `datetime.strptime(s, "%Y-%m-%d")`: the date, or None where it raises. */
  function ParseDate(s: string): (r: Option<Date>)
    ensures r.Some? ==> ValidDate(r.value)
  {
    if |s| < 5 || !IsDigits(s[..4]) || s[4] != '-' then None
    else
      var n := MonthTokenLength(s);
      if n == 0 then None
      else
        var m := MonthToken(s[5..5 + n]);
        var d := DayToken(s[6 + n..]);
        var y := Year4(s);
        if m.None? || d.None? then None
        else if !(1 <= m.value <= 12) || !(1 <= y <= 9999) then None
        else if !(1 <= d.value <= DaysInMonth(y, m.value)) then None
        else Some(Date(y, m.value, d.value))
  }

  /** The text between the first and the second dash (`s.split("-")[1]`). */
  function SecondDashField(s: string): (r: string)
    requires |s| >= 5
  {
    s[5..5 + MonthTokenLength(s)]
  }

  /** `int(s)` for a token of one or two ASCII digits. */
  function SmallDecimal(t: string): int
    requires 1 <= |t| <= 2
  {
    if |t| == 1 then DigitValue(t[0]) else 10 * DigitValue(t[0]) + DigitValue(t[1])
  }

  /** `int(flight_date.split("-")[1])` once `strptime` has accepted the date:
      it is always the parsed month. */
  function MonthField(s: string): (m: int)
    requires ParseDate(s).Some?
    ensures m == ParseDate(s).value.month
  {
    SmallDecimal(SecondDashField(s))
  }

  /** Days before the first of January of year `y` (`date.toordinal` prefix). */
  function DaysBeforeYear(y: int): (n: int)
    requires y >= 1
    ensures 365 * (y - 1) <= n <= 366 * (y - 1)
  {
    var p := y - 1;
    365 * p + p / 4 - p / 100 + p / 400
  }

  /** Days in the months of year `y` before month `m`: Python's cumulative
      table `_DAYS_BEFORE_MONTH` plus one after February of a leap year. */
  function DaysBeforeMonth(y: int, m: int): (n: int)
    requires 1 <= m <= 12
    ensures 0 <= n <= 31 * (m - 1)
    ensures n == [0, 31, 59, 90, 120, 151, 181, 212, 243, 273, 304, 334][m - 1] + (if m > 2 && IsLeap(y) then 1 else 0)
    ensures n + DaysInMonth(y, m) <= DaysInYear(y)
    decreases m
  {
    if m == 1 then 0 else DaysBeforeMonth(y, m - 1) + DaysInMonth(y, m - 1)
  }

  /** `date.toordinal()`: 0001-01-01 is day 1. */
  function Ordinal(d: Date): (n: int)
    requires ValidDate(d)
    ensures DaysBeforeYear(d.year) < n <= DaysBeforeYear(d.year) + DaysInYear(d.year)
  {
    DaysBeforeYear(d.year) + DaysBeforeMonth(d.year, d.month) + d.day
  }

  /** A year holds its own number of days: the ordinals of consecutive
      years are consecutive. */
  lemma DaysBeforeNextYear(y: int)
    requires y >= 1
    ensures DaysBeforeYear(y + 1) == DaysBeforeYear(y) + DaysInYear(y)
  {
    var p := y - 1;
    QuotientStep(y, 4);
    QuotientStep(y, 100);
    QuotientStep(y, 400);
    DivisorChain(y);
    assert DaysBeforeYear(y + 1) == 365 * y + y / 4 - y / 100 + y / 400;
    assert DaysBeforeYear(y) == 365 * p + p / 4 - p / 100 + p / 400;
  }

  /** 400 is a multiple of 100, and 100 of 4. */
  lemma DivisorChain(y: int)
    ensures y % 400 == 0 ==> y % 100 == 0
    ensures y % 100 == 0 ==> y % 4 == 0
  {
    if y % 400 == 0 {
      var k := y / 400;
      assert y == 400 * k;
      assert y / 100 == 4 * k;
    }
    if y % 100 == 0 {
      var k := y / 100;
      assert y == 100 * k;
      assert y / 4 == 25 * k;
    }
  }

  /** Going from `y - 1` to `y`, the quotient by `k` grows by one exactly
      when `k` divides `y`. */
  lemma QuotientStep(y: int, k: int)
    requires k in {4, 100, 400}
    ensures y / k - (y - 1) / k == if y % k == 0 then 1 else 0
  {
    var q, r := y / k, y % k;
    if r == 0 {
      assert y - 1 == k * (q - 1) + (k - 1);
    } else {
      assert y - 1 == k * q + (r - 1);
    }
  }

  /** Every day of a later year has a larger ordinal. */
  lemma {:induction false} LaterYearLargerOrdinal(a: Date, b: Date)
    requires ValidDate(a) && ValidDate(b) && a.year < b.year
    ensures Ordinal(a) < Ordinal(b)
    decreases b.year - a.year
  {
    DaysBeforeNextYear(a.year);
    if a.year + 1 < b.year {
      LaterYearLargerOrdinal(Date(a.year + 1, 1, 1), b);
    }
  }

  /** Ordinals order dates as (year, month, day) does. */
  lemma OrdinalOrder(a: Date, b: Date)
    requires ValidDate(a) && ValidDate(b)
    ensures Ordinal(a) < Ordinal(b) <==>
      a.year < b.year || (a.year == b.year && (a.month < b.month || (a.month == b.month && a.day < b.day)))
  {
    if a.year < b.year {
      LaterYearLargerOrdinal(a, b);
    } else if b.year < a.year {
      LaterYearLargerOrdinal(b, a);
    } else if a.month < b.month {
      MonthsBefore(a.year, a.month, b.month);
    } else if b.month < a.month {
      MonthsBefore(a.year, b.month, a.month);
    }
  }

  /** A later month starts after the whole of an earlier one. */
  lemma MonthsBefore(y: int, m: int, k: int)
    requires 1 <= m < k <= 12
    ensures DaysBeforeMonth(y, m) + DaysInMonth(y, m) <= DaysBeforeMonth(y, k)
  {
  }

  /** `date.weekday()`: Monday is 0 and Sunday is 6. */
  function Weekday(d: Date): (w: int)
    requires ValidDate(d)
    ensures 0 <= w < 7
  {
    (Ordinal(d) + 6) % 7
  }

  /** The day after a date inside the same month falls on the next weekday. */
  lemma WeekdayNextDay(d: Date)
    requires ValidDate(d) && d.day < DaysInMonth(d.year, d.month)
    ensures ValidDate(d.(day := d.day + 1))
    ensures Weekday(d.(day := d.day + 1)) == (Weekday(d) + 1) % 7
  {
    var o := Ordinal(d) + 6;
    assert Ordinal(d.(day := d.day + 1)) + 6 == o + 1;
    ModSevenNext(o);
  }

  lemma ModSevenNext(o: int)
    ensures (o + 1) % 7 == (o % 7 + 1) % 7
  {
    var q, r := o / 7, o % 7;
    assert o == 7 * q + r;
    if r < 6 {
      assert o + 1 == 7 * q + (r + 1);
    } else {
      assert o + 1 == 7 * (q + 1);
    }
  }

  /** The first of a month follows the last day of the previous month. */
  lemma {:induction false} OrdinalAcrossMonth(y: int, m: int)
    requires 1 <= y <= 9999 && 1 <= m < 12
    ensures Ordinal(Date(y, m + 1, 1)) == Ordinal(Date(y, m, DaysInMonth(y, m))) + 1
  {
  }

  /** The canonical `YYYY-MM-DD` writing of a date. */
  function DigitChar(k: int): (c: char)
    requires 0 <= k <= 9
    ensures IsAsciiDigit(c) && DigitValue(c) == k
  {
    ('0' as int + k) as char
  }

  function Format(d: Date): (s: string)
    requires ValidDate(d)
    ensures |s| == 10
  {
    var r := d.year / 10;
    var r2 := r / 10;
    [DigitChar(r2 / 10), DigitChar(r2 % 10), DigitChar(r % 10), DigitChar(d.year % 10), '-',
     DigitChar(d.month / 10), DigitChar(d.month % 10), '-',
     DigitChar(d.day / 10), DigitChar(d.day % 10)]
  }

  /** Every representable date, written `YYYY-MM-DD`, is accepted by
      `strptime` and read back unchanged. */
  lemma FormatParses(d: Date)
    requires ValidDate(d)
    ensures ParseDate(Format(d)) == Some(d)
  {
    var s := Format(d);
    YearDigits(d.year);
    assert Year4(s) == d.year;
    assert IsDigits(s[..4]);
    assert MonthTokenLength(s) == 2;
    TwoDigitMonth(d.month);
    assert s[5..7] == [DigitChar(d.month / 10), DigitChar(d.month % 10)];
    TwoDigitDay(d.day);
    assert s[8..] == [DigitChar(d.day / 10), DigitChar(d.day % 10)];
  }

  lemma YearDigits(y: int)
    requires 1 <= y <= 9999
    ensures var r := y / 10; var r2 := r / 10;
      r2 / 10 <= 9 && y == 1000 * (r2 / 10) + 100 * (r2 % 10) + 10 * (r % 10) + y % 10
  {
    var r := y / 10;
    var r2 := r / 10;
    assert y == 10 * r + y % 10;
    assert r == 10 * r2 + r % 10;
    assert r2 == 10 * (r2 / 10) + r2 % 10;
  }

  lemma TwoDigitMonth(m: int)
    requires 1 <= m <= 12
    ensures MonthToken([DigitChar(m / 10), DigitChar(m % 10)]) == Some(m)
  {
  }

  lemma TwoDigitDay(d: int)
    requires 1 <= d <= 31
    ensures DayToken([DigitChar(d / 10), DigitChar(d % 10)]) == Some(d)
  {
  }

  /** The weekday of 2024-03-10 is Sunday. */
  lemma SundayExample()
    ensures ParseDate("2024-03-10") == Some(Date(2024, 3, 10))
    ensures Weekday(Date(2024, 3, 10)) == 6
  {
    assert MonthTokenLength("2024-03-10") == 2;
  }

  /** `strptime` rejects the 29th of February outside leap years and accepts it in them. */
  lemma LeapDayExamples()
    ensures ParseDate("2023-02-29") == None
    ensures ParseDate("2024-02-29") == Some(Date(2024, 2, 29))
    ensures ParseDate("1900-02-29") == None
    ensures ParseDate("2023-02-30") == None
  {
    assert MonthTokenLength("2023-02-29") == 2;
    assert MonthTokenLength("2024-02-29") == 2;
    assert MonthTokenLength("1900-02-29") == 2;
    assert MonthTokenLength("2023-02-30") == 2;
  }
}
