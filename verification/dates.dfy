/** Calendar dates as Python's `datetime.date` has them (years 1 to 9999,
    proleptic Gregorian calendar), the day before and after, the ISO text
    form `str(d)`, and the two `strptime` formats the core parses:
    "%Y-%m-%d" and "%Y-%m". */
module Dates {
  import opened Wrappers
  import opened Strings

  datatype Date = Date(year: nat, month: nat, day: nat)

  /** One reading of the server clock: `stamp` is `datetime.now()` counted in
      microseconds, `today` is its calendar date and `hour` its hour (0..23). */
  datatype Clock = Clock(stamp: int, today: Date, hour: int)

  predicate IsLeapYear(y: int) {
    y % 4 == 0 && (y % 100 != 0 || y % 400 == 0)
  }

  function DaysInMonth(y: int, m: int): (n: int)
    requires 1 <= m <= 12
    ensures 28 <= n <= 31
    ensures n == 31 <==> m in {1, 3, 5, 7, 8, 10, 12}
  {
    if m == 2 then (if IsLeapYear(y) then 29 else 28)
    else if m == 4 || m == 6 || m == 9 || m == 11 then 30
    else 31
  }

  /** A value `datetime.date(year, month, day)` accepts. */
  predicate ValidDate(d: Date) {
    1 <= d.year <= 9999 && 1 <= d.month <= 12 && 1 <= d.day <= DaysInMonth(d.year, d.month)
  }

  const FirstDate := Date(1, 1, 1)
  const LastDate := Date(9999, 12, 31)

  /** The date read as the number YYYYMMDD. Dates are stored as ISO text, so
      the database orders them by this number. */
  function Ordinal(d: Date): int {
    d.year * 10000 + d.month * 100 + d.day
  }

  /** `d - timedelta(days=1)` */
  function PrevDay(d: Date): (p: Date)
    requires ValidDate(d) && d != FirstDate
    ensures ValidDate(p) && Ordinal(p) < Ordinal(d) && p != LastDate
  {
    if d.day > 1 then Date(d.year, d.month, d.day - 1)
    else if d.month > 1 then Date(d.year, d.month - 1, DaysInMonth(d.year, d.month - 1))
    else Date(d.year - 1, 12, 31)
  }

  /** `d + timedelta(days=1)` */
  function NextDay(d: Date): (n: Date)
    requires ValidDate(d) && d != LastDate
    ensures ValidDate(n) && Ordinal(d) < Ordinal(n)
  {
    if d.day < DaysInMonth(d.year, d.month) then Date(d.year, d.month, d.day + 1)
    else if d.month < 12 then Date(d.year, d.month + 1, 1)
    else Date(d.year + 1, 1, 1)
  }

  /** `today - timedelta(days=1)`, which overflows (None) on the first representable date. */
  function Yesterday(today: Date): (y: Option<Date>)
    requires ValidDate(today)
    ensures y.None? <==> today == FirstDate
    ensures y.Some? ==> ValidDate(y.value) && y.value != LastDate && NextDay(y.value) == today
  {
    if today == FirstDate then None else Some(PrevDay(today))
  }

  /** The day before is the immediate predecessor: no valid date lies strictly between. */
  lemma PrevDayImmediate(d: Date, x: Date)
    requires ValidDate(d) && ValidDate(x) && d != FirstDate
    ensures !(Ordinal(PrevDay(d)) < Ordinal(x) < Ordinal(d))
  {
    OrdinalIsLexicographic(PrevDay(d), x);
    OrdinalIsLexicographic(x, d);
  }

  /** Comparing ordinals compares year, then month, then day. */
  lemma OrdinalIsLexicographic(a: Date, b: Date)
    requires ValidDate(a) && ValidDate(b)
    ensures Ordinal(a) < Ordinal(b) <==>
      a.year < b.year || (a.year == b.year && (a.month < b.month || (a.month == b.month && a.day < b.day)))
  {
    var ra, rb := a.month * 100 + a.day, b.month * 100 + b.day;
    assert 0 < ra < 10000 && 0 < rb < 10000;
    if a.year < b.year {
      assert a.year * 10000 + 10000 <= b.year * 10000;
    } else if a.year > b.year {
      assert b.year * 10000 + 10000 <= a.year * 10000;
    }
  }

  /** Round trip: the day after the day before is the same day, and back. */
  lemma PrevNextRoundTrip(d: Date)
    requires ValidDate(d)
    ensures d != FirstDate ==> NextDay(PrevDay(d)) == d
    ensures d != LastDate ==> PrevDay(NextDay(d)) == d
  {
  }

  // ------------------------------------------------------------ text forms

  /** `str(d)`: "%04d-%02d-%02d". */
  function DateText(d: Date): string {
    PadNat(d.year, 4) + "-" + PadNat(d.month, 2) + "-" + PadNat(d.day, 2)
  }

  /** The day field of "%Y-%m-%d": Python's pattern `3[01]|[12]\d|0[1-9]|[1-9]| [1-9]`
      matched against the whole remaining text; the range is checked by ValidDate. */
  function DayField(t: string): Option<nat> {
    if |t| == 1 && IsDigit(t[0]) then Some(DigitValue(t[0]))
    else if |t| == 2 && AllDigits(t) then Some(DigitsValue(t))
    else if |t| == 2 && t[0] == ' ' && IsDigit(t[1]) then Some(DigitValue(t[1]))
    else None
  }

  /** The month field of "%Y-%m": one or two digits, `1[0-2]|0[1-9]|[1-9]`. */
  function MonthField(t: string): Option<nat> {
    if 1 <= |t| <= 2 && AllDigits(t) then Some(DigitsValue(t)) else None
  }

  /** `datetime.strptime(s, "%Y-%m-%d").date()`, None where it raises ValueError:
      exactly four year digits, a month of one or two digits, a day of one or
      two digits (or a space and one digit), nothing else, and a real date. */
  function ParseIsoDate(s: string): (r: Option<Date>)
    ensures r.Some? ==> ValidDate(r.value)
  {
    if |s| < 8 || !AllDigits(s[..4]) || s[4] != '-' then None
    else
      var rest := s[5..];
      var k := if rest[1] == '-' then 1 else if rest[2] == '-' then 2 else 0;
      if k == 0 then None
      else
        match (MonthField(rest[..k]), DayField(rest[k + 1..]))
        case (Some(m), Some(day)) =>
          var date := Date(DigitsValue(s[..4]), m, day);
          if ValidDate(date) then Some(date) else None
        case _ => None
  }

  /** `datetime.strptime(s, "%Y-%m")`, as (year, month). */
  function ParseYearMonth(s: string): (r: Option<(nat, nat)>)
    ensures r.Some? ==> 1 <= r.value.0 <= 9999 && 1 <= r.value.1 <= 12
  {
    if |s| < 6 || !AllDigits(s[..4]) || s[4] != '-' then None
    else
      match MonthField(s[5..])
      case Some(m) =>
        var y := DigitsValue(s[..4]);
        DigitsValueBound(s[..4]);
        Pow10Small();
        if 1 <= y && 1 <= m <= 12 then Some((y, m)) else None
      case None => None
  }

  lemma PadNatValue(n: nat, w: nat)
    requires 0 < w && n < Pow10(w)
    ensures PadNat(n, w) == ZeroPad(n, w) && DigitsValue(PadNat(n, w)) == n
  {
    ZeroPadValue(n, w);
  }

  lemma Pow10Small()
    ensures Pow10(2) == 100 && Pow10(4) == 10000
  {
    assert Pow10(1) == 10;
    assert Pow10(3) == 1000;
  }

  /** Round trip: parsing `str(d)` with "%Y-%m-%d" gives `d` back. */
  lemma ParseDateText(d: Date)
    requires ValidDate(d)
    ensures ParseIsoDate(DateText(d)) == Some(d)
  {
    Pow10Small();
    PadNatValue(d.year, 4);
    PadNatValue(d.month, 2);
    PadNatValue(d.day, 2);
    var y, m, dd := PadNat(d.year, 4), PadNat(d.month, 2), PadNat(d.day, 2);
    var s := DateText(d);
    assert s == y + "-" + m + "-" + dd;
    assert s[..4] == y;
    var rest := s[5..];
    assert rest == m + "-" + dd;
    assert rest[1] == m[1] && IsDigit(m[1]);
    assert rest[..2] == m;
    assert rest[3..] == dd;
  }

  /** `"%04d-%02d" % (y, m)`, the month token the monthly query expects. */
  function YearMonthText(y: nat, m: nat): string {
    PadNat(y, 4) + "-" + PadNat(m, 2)
  }

  /** Round trip: parsing the month token with "%Y-%m" gives the year and month back. */
  lemma ParseYearMonthText(y: nat, m: nat)
    requires 1 <= y <= 9999 && 1 <= m <= 12
    ensures ParseYearMonth(YearMonthText(y, m)) == Some((y, m))
  {
    Pow10Small();
    PadNatValue(y, 4);
    PadNatValue(m, 2);
    var s := YearMonthText(y, m);
    assert s[..4] == PadNat(y, 4);
    assert s[5..] == PadNat(m, 2);
  }
}
