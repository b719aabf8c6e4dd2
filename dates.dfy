/** Proleptic Gregorian dates as Python's `datetime.date` has them: the
    calendar, `date + timedelta(days=n)`, `str(date)` and
    `datetime.strptime(s, "%Y-%m-%d")`. */
module Dates {
  import opened Wrappers
  import opened Text

  datatype Date = Date(year: int, month: int, day: int)

  predicate IsLeap(y: int) {
    y % 4 == 0 && (y % 100 != 0 || y % 400 == 0)
  }

  function DaysInMonth(y: int, m: int): int {
    if m == 2 then (if IsLeap(y) then 29 else 28)
    else if m == 4 || m == 6 || m == 9 || m == 11 then 30
    else 31
  }

  /** The dates `datetime.date` can represent (MINYEAR 1 to MAXYEAR 9999). */
  predicate ValidDate(d: Date) {
    1 <= d.year <= 9999 && 1 <= d.month <= 12 && 1 <= d.day <= DaysInMonth(d.year, d.month)
  }

  /** Days in the years before `y`. */
  function DaysBeforeYear(y: int): int {
    var p := y - 1;
    365 * p + p / 4 - p / 100 + p / 400
  }

  /** Days in the months of year `y` before month `m`. */
  function DaysBeforeMonth(y: int, m: int): int
    requires 1 <= m <= 13
    decreases m
  {
    if m == 1 then 0 else DaysBeforeMonth(y, m - 1) + DaysInMonth(y, m - 1)
  }

  /** `date.toordinal()`: day 1 is 0001-01-01. */
  function Ordinal(d: Date): int
    requires 1 <= d.month <= 12
  {
    DaysBeforeYear(d.year) + DaysBeforeMonth(d.year, d.month) + d.day
  }

  /** The calendar day after `d`; `None` past 9999-12-31 (Python's OverflowError). */
  function NextDay(d: Date): Option<Date>
    requires ValidDate(d)
  {
    if d.day < DaysInMonth(d.year, d.month) then Some(Date(d.year, d.month, d.day + 1))
    else if d.month < 12 then Some(Date(d.year, d.month + 1, 1))
    else if d.year < 9999 then Some(Date(d.year + 1, 1, 1))
    else None
  }

  /** `d + timedelta(days=n)`; `None` when the result leaves the representable range. */
  function AddDays(d: Date, n: nat): (r: Option<Date>)
    requires ValidDate(d)
    ensures r.Some? ==> ValidDate(r.value)
    decreases n
  {
    if n == 0 then Some(d)
    else match NextDay(d)
      case None => None
      case Some(e) => AddDays(e, n - 1)
  }

  lemma DaysInYear(y: int)
    requires y >= 1
    ensures DaysBeforeMonth(y, 13) == if IsLeap(y) then 366 else 365
  {
  }

  lemma YearLength(y: int)
    requires y >= 1
    ensures DaysBeforeYear(y + 1) - DaysBeforeYear(y) == if IsLeap(y) then 366 else 365
  {
    var p := y - 1;
    assert (p + 1) / 4 - p / 4 == (if y % 4 == 0 then 1 else 0);
    assert (p + 1) / 100 - p / 100 == (if y % 100 == 0 then 1 else 0);
    assert (p + 1) / 400 - p / 400 == (if y % 400 == 0 then 1 else 0);
  }

  /** `NextDay` moves exactly one day forward on the ordinal scale. */
  lemma NextDayOrdinal(d: Date)
    requires ValidDate(d) && NextDay(d).Some?
    ensures ValidDate(NextDay(d).value)
    ensures Ordinal(NextDay(d).value) == Ordinal(d) + 1
  {
    if d.day == DaysInMonth(d.year, d.month) && d.month == 12 {
      DaysInYear(d.year);
      YearLength(d.year);
    }
  }

  /** `d + timedelta(days=n)` lies exactly `n` days after `d`. */
  lemma {:induction false} AddDaysOrdinal(d: Date, n: nat)
    requires ValidDate(d) && AddDays(d, n).Some?
    ensures Ordinal(AddDays(d, n).value) == Ordinal(d) + n
    decreases n
  {
    if n > 0 {
      NextDayOrdinal(d);
      AddDaysOrdinal(NextDay(d).value, n - 1);
    }
  }

  /** Two decimal digits, zero-padded (`%02d`). */
  function Pad2(n: int): (s: string)
    requires 0 <= n < 100
    ensures |s| == 2 && IsDigit(s[0]) && IsDigit(s[1])
  {
    [DigitChar(n / 10), DigitChar(n % 10)]
  }

  /** Four decimal digits, zero-padded (`%04d`). */
  function Pad4(n: int): (s: string)
    requires 0 <= n < 10000
    ensures |s| == 4 && forall i :: 0 <= i < 4 ==> IsDigit(s[i])
  {
    [DigitChar(n / 1000), DigitChar(n / 100 % 10), DigitChar(n / 10 % 10), DigitChar(n % 10)]
  }

  /** `str(date)`, which is `date.isoformat()`: `YYYY-MM-DD`. */
  function IsoFormat(d: Date): (s: string)
    requires ValidDate(d)
    ensures |s| == 10
  {
    Pad4(d.year) + "-" + Pad2(d.month) + "-" + Pad2(d.day)
  }

  function Number2(a: char, b: char): int
    requires IsDigit(a) && IsDigit(b)
  {
    10 * DigitValue(a) + DigitValue(b)
  }

  /** The `%m` directive of `strptime`, regex `1[0-2]|0[1-9]|[1-9]`, followed by
      the literal `-` of the format: the month and the text after the `-`. */
  function MonthField(t: string): Option<(int, string)> {
    if |t| >= 3 && t[2] == '-'
       && ((t[0] == '1' && '0' <= t[1] <= '2') || (t[0] == '0' && '1' <= t[1] <= '9'))
    then Some((Number2(t[0], t[1]), t[3..]))
    else if |t| >= 2 && '1' <= t[0] <= '9' && t[1] == '-'
    then Some((DigitValue(t[0]), t[2..]))
    else None
  }

  /** The `%d` directive, regex `3[01]|[12]\d|0[1-9]|[1-9]| [1-9]`, which must
      consume the rest of the input ("unconverted data remains" otherwise). */
  function DayField(t: string): Option<int> {
    if |t| == 2 && ((t[0] == '3' && '0' <= t[1] <= '1')
                    || ('1' <= t[0] <= '2' && IsDigit(t[1]))
                    || (t[0] == '0' && '1' <= t[1] <= '9'))
    then Some(Number2(t[0], t[1]))
    else if |t| == 2 && t[0] == ' ' && '1' <= t[1] <= '9'
    then Some(DigitValue(t[1]))
    else if |t| == 1 && '1' <= t[0] <= '9'
    then Some(DigitValue(t[0]))
    else None
  }

  /** `datetime.strptime(s, "%Y-%m-%d")`: `%Y` is exactly four digits, and the
      fields must name a real calendar day (ValueError otherwise, here `None`). */
  function ParseIsoDate(s: string): (r: Option<Date>)
    ensures r.Some? ==> ValidDate(r.value)
  {
    if |s| < 5 || !(IsDigit(s[0]) && IsDigit(s[1]) && IsDigit(s[2]) && IsDigit(s[3])) || s[4] != '-'
    then None
    else
      var year := 100 * Number2(s[0], s[1]) + Number2(s[2], s[3]);
      match MonthField(s[5..])
      case None => None
      case Some((month, rest)) =>
        match DayField(rest)
        case None => None
        case Some(day) =>
          if ValidDate(Date(year, month, day)) then Some(Date(year, month, day)) else None
  }

  lemma Pad2Value(n: int)
    requires 0 <= n < 100
    ensures Number2(Pad2(n)[0], Pad2(n)[1]) == n
  {
  }

  lemma Pad4Value(n: int)
    requires 0 <= n < 10000
    ensures 100 * Number2(Pad4(n)[0], Pad4(n)[1]) + Number2(Pad4(n)[2], Pad4(n)[3]) == n
  {
    var s := Pad4(n);
    assert Number2(s[0], s[1]) == n / 100 by {
      assert 10 * (n / 1000) + n / 100 % 10 == n / 100;
    }
    assert Number2(s[2], s[3]) == n % 100 by {
      assert 10 * (n / 10 % 10) + n % 10 == n % 100;
    }
  }

  /** `%m-` reads a zero-padded month back, leaving the text after the `-`. */
  lemma MonthFieldOfPad(month: int, rest: string)
    requires 1 <= month <= 12
    ensures MonthField(Pad2(month) + "-" + rest) == Some((month, rest))
  {
    var t := Pad2(month) + "-" + rest;
    Pad2Value(month);
    assert t[0] == Pad2(month)[0] && t[1] == Pad2(month)[1] && t[2] == '-';
    assert t[3..] == rest;
  }

  /** `%d` reads a zero-padded day back. */
  lemma DayFieldOfPad(day: int)
    requires 1 <= day <= 31
    ensures DayField(Pad2(day)) == Some(day)
  {
    Pad2Value(day);
  }

  /** Parsing what `str(date)` prints gives the date back. */
  lemma {:induction false} ParseFormatRoundTrip(d: Date)
    requires ValidDate(d)
    ensures ParseIsoDate(IsoFormat(d)) == Some(d)
  {
    var s := IsoFormat(d);
    var y, m, dd := Pad4(d.year), Pad2(d.month), Pad2(d.day);
    assert s == y + ("-" + m + "-" + dd);
    assert s[0] == y[0] && s[1] == y[1] && s[2] == y[2] && s[3] == y[3] && s[4] == '-';
    Pad4Value(d.year);
    assert s[5..] == m + "-" + dd;
    MonthFieldOfPad(d.month, dd);
    DayFieldOfPad(d.day);
  }
}
