/**
 * The parts of Python's `datetime` the pipeline uses: proleptic Gregorian dates, day
 * differences (`(a - b).days` through `toordinal`), `date.isoformat()` and
 * `datetime.strptime` for the numeric directives `%Y`, `%m` and `%d`.
 */
module Calendar {
  import opened Strings
  import opened Wrappers

  datatype Date = Date(year: int, month: int, day: int)

  predicate IsLeap(y: int) {
    y % 4 == 0 && (y % 100 != 0 || y % 400 == 0)
  }

  function DaysInMonth(y: int, m: int): int
    requires 1 <= m <= 12
  {
    if m == 2 then (if IsLeap(y) then 29 else 28)
    else if m == 4 || m == 6 || m == 9 || m == 11 then 30
    else 31
  }

  /** A date `datetime.date` accepts: years 1 to 9999 and a day that exists in its month. */
  predicate Valid(d: Date) {
    1 <= d.year <= 9999 && 1 <= d.month <= 12 && 1 <= d.day <= DaysInMonth(d.year, d.month)
  }

  function DaysBeforeYear(y: int): int
    requires y >= 1
  {
    var z := y - 1;
    z * 365 + z / 4 - z / 100 + z / 400
  }

  function DaysBeforeMonth(y: int, m: int): int
    requires 1 <= m <= 12
  {
    [0, 31, 59, 90, 120, 151, 181, 212, 243, 273, 304, 334][m - 1]
      + (if m > 2 && IsLeap(y) then 1 else 0)
  }

  /** `date.toordinal()`: day 1 is 0001-01-01. */
  function Ordinal(d: Date): int
    requires Valid(d)
  {
    DaysBeforeYear(d.year) + DaysBeforeMonth(d.year, d.month) + d.day
  }

  /** `(later - earlier).days`. */
  function DaysBetween(later: Date, earlier: Date): int
    requires Valid(later) && Valid(earlier)
  {
    Ordinal(later) - Ordinal(earlier)
  }

  /** `max(0, (today - d).days)`: the age of a date in days, 0 for a future date. */
  function DaysOld(today: Date, d: Date): (n: nat)
    requires Valid(today) && Valid(d)
    ensures n == 0 <==> DaysBetween(today, d) <= 0
    ensures n > 0 ==> n == DaysBetween(today, d)
  {
    var diff := DaysBetween(today, d);
    if diff > 0 then diff else 0
  }

  // ---------------------------------------------------------------------------
  // Decimal digits
  // ---------------------------------------------------------------------------

  function DigitChar(n: int): (c: char)
    requires 0 <= n <= 9
    ensures IsDigit(c)
  {
    ('0' as int + n) as char
  }

  function DigitValue(c: char): (n: nat)
    requires IsDigit(c)
    ensures n <= 9
  {
    c as int - '0' as int
  }

  function Pow10(w: nat): (p: nat)
    ensures p >= 1
  {
    if w == 0 then 1 else 10 * Pow10(w - 1)
  }

  /** The `width` lowest decimal digits of `n`, zero-padded (`"%0*d"` for small `n`). */
  function Digits(n: nat, width: nat): (s: string)
    ensures |s| == width && AllDigits(s)
  {
    if width == 0 then "" else Digits(n / 10, width - 1) + [DigitChar(n % 10)]
  }

  /** `int(s)` for a string of ASCII digits. */
  function DigitsValue(s: string): (n: nat)
    requires AllDigits(s)
    ensures n < Pow10(|s|)
  {
    if s == [] then 0 else DigitsValue(s[..|s| - 1]) * 10 + DigitValue(s[|s| - 1])
  }

  /** Reading back a zero-padded number gives the number. */
  lemma {:induction false} DigitsRoundTrip(n: nat, width: nat)
    requires n < Pow10(width)
    ensures DigitsValue(Digits(n, width)) == n
  {
    if width > 0 {
      DigitsRoundTrip(n / 10, width - 1);
      var s := Digits(n, width);
      assert s[..|s| - 1] == Digits(n / 10, width - 1);
      assert DigitValue(s[|s| - 1]) == n % 10;
    }
  }

  /** The number of decimal digits of `n`, one for zero. */
  function DigitCount(n: nat): (w: nat)
    ensures w >= 1 && n < Pow10(w)
    decreases n
  {
    if n < 10 then 1 else 1 + DigitCount(n / 10)
  }

  /** `str(n)` for an int: its decimal digits, after a minus sign when negative. */
  function IntToString(n: int): string {
    if n < 0 then "-" + Digits(-n, DigitCount(-n)) else Digits(n, DigitCount(n))
  }

  /**
   * `str(n)` of a non-negative number is all digits and reads back as `n`; a negative
   * number gets a minus sign in front of the digits of its magnitude.
   */
  lemma IntToStringRoundTrip(n: int)
    ensures n >= 0 ==> AllDigits(IntToString(n)) && DigitsValue(IntToString(n)) == n
    ensures n < 0 ==> IntToString(n)[0] == '-' && DigitsValue(IntToString(n)[1..]) == -n
  {
    var m := if n < 0 then -n else n;
    DigitsRoundTrip(m, DigitCount(m));
    if n < 0 {
      assert IntToString(n)[1..] == Digits(m, DigitCount(m));
    }
  }

  /** `date.isoformat()`: `YYYY-MM-DD`. */
  function IsoFormat(d: Date): (s: string)
    requires Valid(d)
    ensures |s| == 10
  {
    Digits(d.year, 4) + "-" + Digits(d.month, 2) + "-" + Digits(d.day, 2)
  }

  // ---------------------------------------------------------------------------
  // strptime for all-numeric formats
  // ---------------------------------------------------------------------------

  datatype FieldOrder = MonthDayYear | YearMonthDay | DayMonthYear

  /** A format such as `%m/%d/%Y`: the field order and the one separator between fields. */
  datatype DateFormat = DateFormat(order: FieldOrder, sep: char)

  /** What `%m` accepts: `1`-`9`, `01`-`09`, `10`-`12`. */
  predicate MonthField(f: string) {
    1 <= |f| <= 2 && AllDigits(f) && 1 <= DigitsValue(f) <= 12
  }

  /** What `%d` accepts: `1`-`9`, `01`-`31`, or a space and `1`-`9`. */
  predicate DayField(f: string) {
    || (1 <= |f| <= 2 && AllDigits(f) && 1 <= DigitsValue(f) <= 31)
    || (|f| == 2 && f[0] == ' ' && IsDigit(f[1]) && f[1] != '0')
  }

  function DayFieldValue(f: string): nat
    requires DayField(f)
  {
    if f[0] == ' ' then DigitValue(f[1]) else DigitsValue(f)
  }

  /** What `%Y` accepts: exactly four digits. */
  predicate YearField(f: string) {
    |f| == 4 && AllDigits(f)
  }

  /** The date read from three fields, when each field and the date itself are acceptable. */
  function DateOfFields(y: string, m: string, d: string): (r: Option<Date>)
    ensures r.Some? ==> Valid(r.value)
  {
    if YearField(y) && MonthField(m) && DayField(d) then
      var date := Date(DigitsValue(y), DigitsValue(m), DayFieldValue(d));
      if Valid(date) then Some(date) else None
    else None
  }

  /** `datetime.strptime(text, fmt).date()`, `None` where strptime raises ValueError. */
  function Strptime(text: string, fmt: DateFormat): (r: Option<Date>)
    ensures r.Some? ==> Valid(r.value)
  {
    var f := SplitOn(text, fmt.sep);
    if |f| != 3 then None
    else match fmt.order
      case MonthDayYear => DateOfFields(f[2], f[0], f[1])
      case YearMonthDay => DateOfFields(f[0], f[1], f[2])
      case DayMonthYear => DateOfFields(f[2], f[1], f[0])
  }

  /** The ISO form of a date splits at `-` into its year, month and day. */
  lemma IsoFields(d: Date)
    requires Valid(d)
    ensures SplitOn(IsoFormat(d), '-') == [Digits(d.year, 4), Digits(d.month, 2), Digits(d.day, 2)]
  {
    var y, m, dd := Digits(d.year, 4), Digits(d.month, 2), Digits(d.day, 2);
    var s := IsoFormat(d);
    assert s == y + ['-'] + m + ['-'] + dd;
    SplitNoSep(dd, '-');
    SplitPrefix(m, '-', dd);
    SplitPrefix(y, '-', m + ['-'] + dd);
    assert y + ['-'] + (m + ['-'] + dd) == s;
  }

  /** `strptime(d.isoformat(), "%Y-%m-%d")` gives `d` back. */
  lemma IsoRoundTrip(d: Date)
    requires Valid(d)
    ensures Strptime(IsoFormat(d), DateFormat(YearMonthDay, '-')) == Some(d)
  {
    IsoFields(d);
    DigitsRoundTrip(d.year, 4);
    DigitsRoundTrip(d.month, 2);
    DigitsRoundTrip(d.day, 2);
  }

  /** `d.strftime(fmt)` for an all-numeric format: the zero-padded fields in the format's order. */
  function Strftime(d: Date, fmt: DateFormat): (s: string)
    requires Valid(d)
  {
    var y, m, dd, sep := Digits(d.year, 4), Digits(d.month, 2), Digits(d.day, 2), [fmt.sep];
    match fmt.order
    case MonthDayYear => m + sep + dd + sep + y
    case YearMonthDay => y + sep + m + sep + dd
    case DayMonthYear => dd + sep + m + sep + y
  }

  /** Three digit strings joined by a non-digit separator split back into themselves. */
  lemma SplitThree(a: string, b: string, c: string, sep: char)
    requires AllDigits(a) && AllDigits(b) && AllDigits(c) && !IsDigit(sep)
    ensures SplitOn(a + [sep] + b + [sep] + c, sep) == [a, b, c]
  {
    SplitNoSep(c, sep);
    SplitPrefix(b, sep, c);
    SplitPrefix(a, sep, b + [sep] + c);
    assert a + [sep] + (b + [sep] + c) == a + [sep] + b + [sep] + c;
  }

  /** A valid date's zero-padded fields are read back as that date. */
  lemma FieldsOfDate(d: Date)
    requires Valid(d)
    ensures DateOfFields(Digits(d.year, 4), Digits(d.month, 2), Digits(d.day, 2)) == Some(d)
  {
    var y, m, dd := Digits(d.year, 4), Digits(d.month, 2), Digits(d.day, 2);
    YearFieldOf(d);
    MonthFieldOf(d);
    DayFieldOf(d);
    assert Date(DigitsValue(y), DigitsValue(m), DayFieldValue(dd)) == d;
  }

  lemma YearFieldOf(d: Date)
    requires Valid(d)
    ensures YearField(Digits(d.year, 4)) && DigitsValue(Digits(d.year, 4)) == d.year
  {
    DigitsRoundTrip(d.year, 4);
  }

  lemma MonthFieldOf(d: Date)
    requires Valid(d)
    ensures MonthField(Digits(d.month, 2)) && DigitsValue(Digits(d.month, 2)) == d.month
  {
    DigitsRoundTrip(d.month, 2);
  }

  lemma DayFieldOf(d: Date)
    requires Valid(d)
    ensures DayField(Digits(d.day, 2)) && DayFieldValue(Digits(d.day, 2)) == d.day
  {
    DigitsRoundTrip(d.day, 2);
  }

  /** `strptime(d.strftime(fmt), fmt)` gives `d` back for every numeric format with a non-digit separator. */
  lemma StrftimeRoundTrip(d: Date, fmt: DateFormat)
    requires Valid(d) && !IsDigit(fmt.sep)
    ensures Strptime(Strftime(d, fmt), fmt) == Some(d)
  {
    var y, m, dd, sep := Digits(d.year, 4), Digits(d.month, 2), Digits(d.day, 2), fmt.sep;
    FieldsOfDate(d);
    match fmt.order
    case MonthDayYear =>
      assert Strftime(d, fmt) == m + [sep] + dd + [sep] + y;
      SplitThree(m, dd, y, sep);
    case YearMonthDay =>
      assert Strftime(d, fmt) == y + [sep] + m + [sep] + dd;
      SplitThree(y, m, dd, sep);
    case DayMonthYear =>
      assert Strftime(d, fmt) == dd + [sep] + m + [sep] + y;
      SplitThree(dd, m, y, sep);
  }
}
