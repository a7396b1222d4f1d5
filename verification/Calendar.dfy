/** UTC instants and the texts made from them. An instant is a count of nanoseconds from
    0000-01-01T00:00:00Z in the proleptic Gregorian calendar, in either direction. */
module Calendar {
  import opened Text

  /* ---------- day numbers and dates ---------- */

  datatype Date = Date(year: int, month: int, day: int)

  /** RFC 3339, appendix C */
  predicate IsLeap(y: int) { y % 4 == 0 && (y % 100 != 0 || y % 400 == 0) }

  /** RFC 3339, section 5.7 */
  function DaysInMonth(y: int, m: int): int {
    if m == 2 then (if IsLeap(y) then 29 else 28)
    else if m == 4 || m == 6 || m == 9 || m == 11 then 30 else 31
  }

  predicate ValidDate(d: Date) {
    1 <= d.month <= 12 && 1 <= d.day <= DaysInMonth(d.year, d.month)
  }

  /** Days from 0000-01-01 to the first day of year y, negative for earlier years. */
  function YearStart(y: int): int { 365 * y + (y + 3) / 4 - (y + 99) / 100 + (y + 399) / 400 }

  function MonthStart(y: int, m: int): int
    requires 1 <= m <= 13
  {
    if m == 1 then 0 else MonthStart(y, m - 1) + DaysInMonth(y, m - 1)
  }

  function DayNumber(d: Date): int
    requires ValidDate(d)
  {
    YearStart(d.year) + MonthStart(d.year, d.month) + d.day - 1
  }

  lemma YearLength(y: int)
    ensures YearStart(y + 1) == YearStart(y) + MonthStart(y, 13)
    ensures MonthStart(y, 13) == if IsLeap(y) then 366 else 365
  {
    var feb := DaysInMonth(y, 2);
    assert MonthStart(y, 2) == 31;
    assert MonthStart(y, 3) == 31 + feb;
    assert MonthStart(y, 5) == 92 + feb;
    assert MonthStart(y, 7) == 153 + feb;
    assert MonthStart(y, 9) == 215 + feb;
    assert MonthStart(y, 11) == 276 + feb;
    YearStep(y);
  }

  lemma Every4(y: int)
    ensures (y + 4) / 4 == (y + 3) / 4 + if y % 4 == 0 then 1 else 0
  {
  }

  lemma Every100(y: int)
    ensures (y + 100) / 100 == (y + 99) / 100 + if y % 100 == 0 then 1 else 0
  {
  }

  lemma Every400(y: int)
    ensures (y + 400) / 400 == (y + 399) / 400 + if y % 400 == 0 then 1 else 0
  {
  }

  lemma LeapCenturies(y: int)
    ensures y % 400 == 0 ==> y % 100 == 0
    ensures y % 100 == 0 ==> y % 4 == 0
  {
  }

  lemma YearStep(y: int)
    ensures YearStart(y + 1) == YearStart(y) + if IsLeap(y) then 366 else 365
  {
    Every4(y);
    Every100(y);
    Every400(y);
    LeapCenturies(y);
  }

  /** The year that holds day n, searched upwards from y. */
  function YearFrom(n: int, y: int): (r: int)
    requires YearStart(y) <= n
    ensures YearStart(r) <= n < YearStart(r + 1)
    decreases n - YearStart(y)
  {
    YearStep(y);
    if n < YearStart(y + 1) then y else YearFrom(n, y + 1)
  }

  function MonthFrom(y: int, k: int, m: int): (r: int)
    requires 1 <= m <= 12 && MonthStart(y, m) <= k < MonthStart(y, 13)
    ensures 1 <= r <= 12 && MonthStart(y, r) <= k < MonthStart(y, r + 1)
    decreases 12 - m
  {
    if k < MonthStart(y, m + 1) then m else MonthFrom(y, k, m + 1)
  }

  /** Every 400 years have 146097 days. */
  lemma CycleStart(c: int)
    ensures YearStart(400 * c) == 146097 * c
  {
    assert (400 * c + 3) / 4 == 100 * c;
    assert (400 * c + 99) / 100 == 4 * c;
    assert (400 * c + 399) / 400 == c;
  }

  lemma CycleOf(n: int)
    ensures YearStart(400 * (n / 146097)) <= n
  {
    hide YearStart;
    CycleStart(n / 146097);
  }

  /** The civil date of day n. */
  function DateOf(n: int): (d: Date)
    ensures ValidDate(d) && DayNumber(d) == n
  {
    CycleOf(n);
    var y := YearFrom(n, 400 * (n / 146097));
    YearLength(y);
    var k := n - YearStart(y);
    var m := MonthFrom(y, k, 1);
    Date(y, m, k - MonthStart(y, m) + 1)
  }

  lemma {:induction false} YearStartMonotone(a: int, b: int)
    requires a <= b
    ensures YearStart(a) <= YearStart(b) && (a < b ==> YearStart(a + 1) <= YearStart(b))
    decreases b - a
  {
    if a < b {
      YearStep(a);
      YearStartMonotone(a + 1, b);
    }
  }

  lemma {:induction false} MonthStartMonotone(y: int, a: int, b: int)
    requires 1 <= a <= b <= 13
    ensures MonthStart(y, a) <= MonthStart(y, b) && (a < b ==> MonthStart(y, a) + DaysInMonth(y, a) <= MonthStart(y, b))
    decreases b - a
  {
    if a < b {
      MonthStartMonotone(y, a, b - 1);
    }
  }

  /** The lengths of the months, by the rule that from March on five months have 153 days. */
  lemma MonthRule(y: int, m: int)
    requires 3 <= m <= 12
    ensures MonthStart(y, m) == MonthStart(y, 3) + (153 * (m - 3) + 2) / 5
    ensures MonthStart(y, 2) == 31 && MonthStart(y, 3) == (if IsLeap(y) then 60 else 59)
    ensures MonthStart(y, 13) == if IsLeap(y) then 366 else 365
  {
    YearLength(y);
    assert MonthStart(y, 5) == MonthStart(y, 3) + 61;
    assert MonthStart(y, 7) == MonthStart(y, 3) + 122;
    assert MonthStart(y, 9) == MonthStart(y, 3) + 184;
    assert MonthStart(y, 11) == MonthStart(y, 3) + 245;
  }

  lemma YearStartForms(y: int)
    ensures YearStart(y) == 365 * y + y / 4 - y / 100 + y / 400 + if IsLeap(y) then 0 else 1
    ensures YearStart(y) == 365 * (y - 1) + (y - 1) / 4 - (y - 1) / 100 + (y - 1) / 400 + 366
  {
    Every4(y);
    Every100(y);
    Every400(y);
    LeapCenturies(y);
    Whole(y);
  }

  lemma Whole(y: int)
    ensures (y + 4) / 4 == y / 4 + 1 && (y + 100) / 100 == y / 100 + 1 && (y + 400) / 400 == y / 400 + 1
    ensures (y + 3) / 4 == (y - 1) / 4 + 1 && (y + 99) / 100 == (y - 1) / 100 + 1
        && (y + 399) / 400 == (y - 1) / 400 + 1
  {
  }

  /** The number of a day in closed form: years are counted from March, so that a leap day ends its year. */
  lemma DayNumberFormula(d: Date)
    requires ValidDate(d)
    ensures var y, m := if d.month <= 2 then d.year - 1 else d.year, (d.month + 9) % 12;
            DayNumber(d) == 365 * y + y / 4 - y / 100 + y / 400 + (153 * m + 2) / 5 + d.day + 59
  {
    hide IsLeap, DaysInMonth, YearStart, MonthStart;
    YearStartForms(d.year);
    if d.month <= 2 {
      EarlyMonth(d.year, d.month);
    } else {
      MonthRule(d.year, d.month);
      assert (d.month + 9) % 12 == d.month - 3;
    }
  }

  lemma EarlyMonth(y: int, m: int)
    requires 1 <= m <= 2
    ensures MonthStart(y, m) + 306 == (153 * ((m + 9) % 12) + 2) / 5
  {
    MonthRule(y, 3);
    assert MonthStart(y, 1) == 0;
  }

  predicate DateBefore(a: Date, b: Date) {
    a.year < b.year || (a.year == b.year && (a.month < b.month || (a.month == b.month && a.day < b.day)))
  }

  /** Earlier dates have smaller day numbers. */
  lemma DayNumberOrder(a: Date, b: Date)
    requires ValidDate(a) && ValidDate(b) && DateBefore(a, b)
    ensures DayNumber(a) < DayNumber(b)
  {
    MonthStartMonotone(a.year, a.month, 13);
    MonthStartMonotone(b.year, 1, b.month);
    YearLength(a.year);
    MonthStartMonotone(a.year, a.month, a.month + 1);
    MonthStartMonotone(a.year, a.month + 1, 13);
    if a.year < b.year {
      YearStartMonotone(a.year, b.year);
    } else if a.month < b.month {
      MonthStartMonotone(a.year, a.month, b.month);
    }
  }

  /** Day numbers and valid dates correspond one to one, in the same order. */
  lemma CalendarBijection(d: Date)
    requires ValidDate(d)
    ensures DateOf(DayNumber(d)) == d
  {
    var e := DateOf(DayNumber(d));
    if DateBefore(d, e) { DayNumberOrder(d, e); }
    if DateBefore(e, d) { DayNumberOrder(e, d); }
  }

  /* ---------- date texts ---------- */

  /** A year as Go's layout 2006 prints it: four digits, more when it needs them, a sign when negative. */
  function YearText(y: int): string {
    if y < 0 then "-" + Numeral(-y, 4) else Numeral(y, 4)
  }

  function MonthDayText(d: Date): string
    requires ValidDate(d)
  {
    Numeral(d.month, 2) + ("-" + Numeral(d.day, 2))
  }

  /** Layout 2006-01-02. */
  function DateText(n: int): string {
    YearText(DateOf(n).year) + ("-" + MonthDayText(DateOf(n)))
  }

  /** The regular expression \d{4}-\d{2}-\d{2}. */
  predicate DateShape(s: string) {
    |s| == 10 && AllDigits(s[..4]) && s[4] == '-' && AllDigits(s[5..7]) && s[7] == '-' && AllDigits(s[8..])
  }

  function ParseDate(s: string): Option<int> {
    if !DateShape(s) then None
    else
      var d := Date(Value(s[..4]), Value(s[5..7]), Value(s[8..]));
      if ValidDate(d) then Some(DayNumber(d)) else None
  }

  predicate FourDigitYear(n: int) { 0 <= DateOf(n).year <= 9999 }

  /** The days of the years 0000 to 9999. */
  lemma FourDigitDays(n: int)
    ensures FourDigitYear(n) <==> 0 <= n < 3652425
  {
    hide DateOf;
    CycleStart(0);
    CycleStart(25);
    var d := DateOf(n);
    MonthStartMonotone(d.year, 1, d.month);
    MonthStartMonotone(d.year, d.month, 13);
    MonthStartMonotone(d.year, d.month, d.month + 1);
    MonthStartMonotone(d.year, d.month + 1, 13);
    YearLength(d.year);
    if d.year < 0 { YearStartMonotone(d.year + 1, 0); }
    if 0 <= d.year { YearStartMonotone(0, d.year); }
    if d.year < 10000 { YearStartMonotone(d.year + 1, 10000); } else { YearStartMonotone(10000, d.year); }
  }

  lemma TwoDigits(n: nat)
    ensures n < 100 <==> |Numeral(n, 2)| == 2
    ensures Value(Numeral(n, 2)) == n
  {
    NumeralValue(n, 2);
    assert Pow10(2) == 100;
  }

  lemma TwoDigitText(n: nat)
    requires n < 100
    ensures Numeral(n, 2) == [Digit(n / 10), Digit(n % 10)]
  {
    assert Numeral(n / 10, 1) == [Digit(n / 10)] by { assert Numeral(n / 10 / 10, 0) == ""; }
  }

  lemma FourDigitText(n: nat)
    requires n < 10000
    ensures Numeral(n, 4) == Numeral(n / 100, 2) + Numeral(n % 100, 2)
  {
    TwoDigitText(n % 100);
    assert n / 10 / 10 == n / 100 && n / 10 % 10 == n % 100 / 10 && n % 10 == n % 100 % 10;
    assert Numeral(n / 10, 3) == Numeral(n / 10 / 10, 2) + [Digit(n / 10 % 10)];
  }

  lemma YearTextWidth(y: int)
    ensures |YearText(y)| >= 4 && (AllDigits(YearText(y)) <==> y >= 0)
    ensures |YearText(y)| == 4 && AllDigits(YearText(y)) <==> 0 <= y <= 9999
    ensures y >= 0 ==> Value(YearText(y)) == y
  {
    assert Pow10(4) == 10000 by { assert Pow10(2) == 100; }
    if y >= 0 { NumeralValue(y, 4); } else { NumeralValue(-y, 4); assert !IsDigit(YearText(y)[0]); }
  }

  lemma DateTextParts(n: int)
    ensures var d, s := DateOf(n), DateText(n);
            && |s| == |YearText(d.year)| + 6 && s[..|s| - 6] == YearText(d.year)
            && s[|s| - 5..|s| - 3] == Numeral(d.month, 2) && s[|s| - 2..] == Numeral(d.day, 2)
            && s[|s| - 6] == '-' && s[|s| - 3] == '-'
  {
    hide YearText, Numeral, DateOf;
    var d := DateOf(n);
    TwoDigits(d.month);
    TwoDigits(d.day);
    DateLayout(YearText(d.year), Numeral(d.month, 2), Numeral(d.day, 2));
  }

  lemma DateLayout(y: string, m: string, d: string)
    requires |m| == 2 && |d| == 2
    ensures var s := y + ("-" + (m + ("-" + d)));
            && |s| == |y| + 6 && s[..|s| - 6] == y && s[|s| - 5..|s| - 3] == m && s[|s| - 2..] == d
            && s[|s| - 6] == '-' && s[|s| - 3] == '-'
  {
  }

  lemma YearTextDetermines(y: int, z: int)
    requires YearText(y) == YearText(z)
    ensures y == z
  {
    hide Numeral;
    YearTextWidth(y);
    YearTextWidth(z);
    if y < 0 {
      NumeralValue(-y, 4);
      NumeralValue(-z, 4);
      assert YearText(y)[1..] == Numeral(-y, 4) && YearText(z)[1..] == Numeral(-z, 4);
    }
  }

  /** Different days print differently, in every year. */
  lemma DateTextDetermines(m: int, n: int)
    requires DateText(m) == DateText(n)
    ensures m == n
  {
    hide YearText, Numeral, DateOf, DateText;
    DateTextParts(m);
    DateTextParts(n);
    var d, e := DateOf(m), DateOf(n);
    TwoDigits(d.month);
    TwoDigits(e.month);
    TwoDigits(d.day);
    TwoDigits(e.day);
    var s := DateText(m);
    assert |YearText(d.year)| == |s| - 6 == |YearText(e.year)|;
    YearTextDetermines(d.year, e.year);
  }

  /** A four-digit date is printed as its figures with hyphens between. */
  lemma DatePrinted(d: Date)
    requires ValidDate(d) && 0 <= d.year <= 9999
    ensures DateText(DayNumber(d)) ==
            [Digit(d.year / 1000), Digit(d.year / 100 % 10), Digit(d.year / 10 % 10), Digit(d.year % 10), '-',
             Digit(d.month / 10), Digit(d.month % 10), '-', Digit(d.day / 10), Digit(d.day % 10)]
  {
    hide Numeral, DateOf, Digit;
    CalendarBijection(d);
    FourDigitText(d.year);
    TwoDigitText(d.year / 100);
    TwoDigitText(d.year % 100);
    TwoDigitText(d.month);
    TwoDigitText(d.day);
    YearFigures(d.year);
  }

  lemma YearFigures(y: nat)
    ensures y / 100 / 10 == y / 1000 && y % 100 / 10 == y / 10 % 10 && y % 100 % 10 == y % 10
  {
    var c, r := y / 100, y % 100;
    assert y / 10 == 10 * c + r / 10;
  }

  lemma NewYearText(y: nat)
    requires y <= 9999
    ensures ValidDate(Date(y, 1, 1)) && DayNumber(Date(y, 1, 1)) == 365 * y + (y - 1) / 4 - (y - 1) / 100
        + (y - 1) / 400 + 1
    ensures DateText(DayNumber(Date(y, 1, 1))) ==
            [Digit(y / 1000), Digit(y / 100 % 10), Digit(y / 10 % 10), Digit(y % 10)] + "-01-01"
  {
    hide DateText, DateOf, Numeral, DayNumber;
    var d := Date(y, 1, 1);
    DayNumberFormula(d);
    DatePrinted(d);
    assert Digit(0) == '0' && Digit(1) == '1';
  }

  /** Where the count of days starts, and where it stands at the Unix epoch. */
  lemma EpochTexts()
    ensures DateText(0) == "0000-01-01" && DateText(719528) == "1970-01-01"
  {
    hide DateText, DayNumber, ValidDate;
    NewYearText(0);
    NewYearText(1970);
    assert Digit(0) == '0' && Digit(1) == '1' && Digit(7) == '7' && Digit(9) == '9';
  }

  /** A printed date reads back exactly when its year has four digits; no other day prints the date shape. */
  lemma DateRoundTrip(n: int)
    ensures ParseDate(DateText(n)) == if FourDigitYear(n) then Some(n) else None
    ensures DateShape(DateText(n)) <==> FourDigitYear(n)
  {
    var d, s := DateOf(n), DateText(n);
    DateTextParts(n);
    YearTextWidth(d.year);
    TwoDigits(d.month);
    TwoDigits(d.day);
    if FourDigitYear(n) {
      assert s[..4] == YearText(d.year) && s[5..7] == Numeral(d.month, 2) && s[8..] == Numeral(d.day, 2);
    } else if |s| == 10 {
      assert s[..4] == YearText(d.year);
    }
  }

  /** A date text that parses is the text of the day it denotes. */
  lemma DateTextRoundTrip(s: string)
    requires ParseDate(s).Some?
    ensures DateText(ParseDate(s).value) == s && FourDigitYear(ParseDate(s).value)
  {
    var d := Date(Value(s[..4]), Value(s[5..7]), Value(s[8..]));
    CalendarBijection(d);
    ValueNumeral(s[..4]);
    ValueNumeral(s[5..7]);
    ValueNumeral(s[8..]);
    assert Pow10(4) == 10000 by { assert Pow10(2) == 100; }
    assert s == s[..4] + ("-" + (s[5..7] + ("-" + s[8..])));
  }

  lemma NumeralTail(m: nat, n: nat, w: nat, x: string, y: string)
    requires m < n < Pow10(w)
    ensures Less(Numeral(m, w) + x, Numeral(n, w) + y)
  {
    NumeralOrder(m, n, w);
    NumeralValue(m, w);
    NumeralValue(n, w);
    LessHead(Numeral(m, w), Numeral(n, w), x, y);
  }

  lemma MonthDayOrder(a: Date, b: Date)
    requires ValidDate(a) && ValidDate(b) && a.year == b.year && DateBefore(a, b)
    ensures Less(MonthDayText(a), MonthDayText(b))
  {
    assert Pow10(2) == 100;
    var x, y := Numeral(a.day, 2), Numeral(b.day, 2);
    if a.month < b.month {
      NumeralTail(a.month, b.month, 2, "-" + x, "-" + y);
    } else {
      NumeralOrder(a.day, b.day, 2);
      LessPrefix("-", x, y);
      LessPrefix(Numeral(a.month, 2), "-" + x, "-" + y);
    }
  }

  /** Among four-digit years the text order of dates is the order of days. */
  lemma DateTextOrder(m: int, n: int)
    requires m < n && FourDigitYear(m) && FourDigitYear(n)
    ensures Less(DateText(m), DateText(n))
  {
    var a, b := DateOf(m), DateOf(n);
    if DateBefore(b, a) { DayNumberOrder(b, a); }
    if a.year < b.year {
      assert Pow10(2) == 100 && Pow10(4) == 10000;
      NumeralTail(a.year, b.year, 4, "-" + MonthDayText(a), "-" + MonthDayText(b));
    } else {
      MonthDayOrder(a, b);
      LessPrefix("-", MonthDayText(a), MonthDayText(b));
      LessPrefix(YearText(a.year), "-" + MonthDayText(a), "-" + MonthDayText(b));
    }
  }

  /* ---------- instants ---------- */

  function SecondOf(t: int): int { t / 1_000_000_000 }
  function MinuteOf(t: int): int { SecondOf(t) / 60 }

  /** t.Truncate(time.Hour), as a count of hours. */
  function HourOf(t: int): int { MinuteOf(t) / 60 }
  function DayOfHour(h: int): int { h / 24 }
  function DayOf(t: int): int { DayOfHour(HourOf(t)) }

  function Instant(day: int, h: int, m: int, s: int, nanos: int): int {
    1_000_000_000 * (60 * (60 * (24 * day + h) + m) + s) + nanos
  }

  /** Layout 15. */
  function HourText(h: int): string { Numeral(h % 24, 2) }

  predicate FourDigitHour(h: int) { FourDigitYear(DayOfHour(h)) }
  predicate FourDigitInstant(t: int) { FourDigitHour(HourOf(t)) }

  /** The fraction of layout RFC3339Nano: nine digits with the trailing zeros cut, or nothing. */
  function TrimZeros(s: string): (t: string)
    requires AllDigits(s)
    ensures AllDigits(t) && |t| <= |s|
  {
    if s != "" && s[|s| - 1] == '0' then TrimZeros(s[..|s| - 1]) else s
  }

  function FractionText(nanos: int): string
    requires 0 <= nanos < 1_000_000_000
  {
    var f := TrimZeros(Numeral(nanos, 9));
    if f == "" then "" else "." + f
  }

  function PadZeros(s: string, w: nat): string
    decreases w - |s|
  {
    if |s| < w then PadZeros(s + "0", w) else s
  }

  lemma {:induction false} PadTrim(s: string)
    requires AllDigits(s)
    ensures PadZeros(TrimZeros(s), |s|) == s
  {
    if s != "" && s[|s| - 1] == '0' {
      var r := s[..|s| - 1];
      PadTrim(r);
      PadMore(TrimZeros(r), |r|);
      assert r + "0" == s;
    }
  }

  lemma {:induction false} PadMore(s: string, w: nat)
    requires |s| <= w
    ensures PadZeros(s, w + 1) == PadZeros(s, w) + "0"
    decreases w - |s|
  {
    if |s| < w { PadMore(s + "0", w); } else { assert PadZeros(s + "0", w + 1) == s + "0"; }
  }

  function ClockText(h: nat, m: nat, s: nat): string {
    Numeral(h, 2) + ":" + Numeral(m, 2) + ":" + Numeral(s, 2)
  }

  /** Layout RFC3339Nano for a UTC time. */
  function InstantText(t: int): string {
    DateText(DayOf(t)) + "T" + ClockText(HourOf(t) % 24, MinuteOf(t) % 60, SecondOf(t) % 60)
    + FractionText(t % 1_000_000_000) + "Z"
  }

  predicate ClockShape(s: string) {
    |s| == 8 && AllDigits(s[..2]) && s[2] == ':' && AllDigits(s[3..5]) && s[5] == ':' && AllDigits(s[6..])
  }

  predicate FractionShape(f: string) {
    f == "" || (|f| >= 2 && (f[0] == '.' || f[0] == ',') && AllDigits(f[1..]))
  }

  /** The nanoseconds a fraction denotes; digits past the ninth are dropped. */
  function FractionValue(f: string): int
    requires FractionShape(f)
  {
    if f == "" then 0
    else
      var digits := if |f| > 10 then f[1..10] else f[1..];
      PadDigits(digits, 9);
      Value(PadZeros(digits, 9))
  }

  lemma {:induction false} PadDigits(s: string, w: nat)
    requires AllDigits(s)
    ensures AllDigits(PadZeros(s, w))
    decreases w - |s|
  {
    if |s| < w { PadDigits(s + "0", w); }
  }

  function ParseClock(c: string): Option<(int, int, int)> {
    if !ClockShape(c) then None
    else
      var h, m, s := Value(c[..2]), Value(c[3..5]), Value(c[6..]);
      if h > 23 || m > 59 || s > 59 then None else Some((h, m, s))
  }

  /** time.Parse for RFC 3339 texts that end in Z. */
  function ParseInstant(s: string): Option<int> {
    if |s| < 20 || s[10] != 'T' || s[|s| - 1] != 'Z' || !FractionShape(s[19..|s| - 1]) then None
    else
      match (ParseDate(s[..10]), ParseClock(s[11..19]))
      case (Some(day), Some(c)) => Some(Instant(day, c.0, c.1, c.2, FractionValue(s[19..|s| - 1])))
      case _ => None
  }

  lemma ClockRoundTrip(h: nat, m: nat, s: nat)
    requires h < 24 && m < 60 && s < 60
    ensures |ClockText(h, m, s)| == 8 && ParseClock(ClockText(h, m, s)) == Some((h, m, s))
  {
    TwoDigits(h);
    TwoDigits(m);
    TwoDigits(s);
    var c := ClockText(h, m, s);
    assert c[..2] == Numeral(h, 2) && c[3..5] == Numeral(m, 2) && c[6..] == Numeral(s, 2);
  }

  lemma {:induction false} TrimZerosValue(s: string)
    requires AllDigits(s) && TrimZeros(s) == ""
    ensures Value(s) == 0
  {
    if s != "" { TrimZerosValue(s[..|s| - 1]); }
  }

  lemma Pow10Nine()
    ensures Pow10(9) == 1_000_000_000
  {
    assert Pow10(2) == 100;
    assert Pow10(4) == 10_000;
    assert Pow10(6) == 1_000_000;
    assert Pow10(8) == 100_000_000;
  }

  lemma FractionRoundTrip(nanos: int)
    requires 0 <= nanos < 1_000_000_000
    ensures FractionShape(FractionText(nanos)) && FractionValue(FractionText(nanos)) == nanos
  {
    Pow10Nine();
    NumeralValue(nanos, 9);
    var digits := Numeral(nanos, 9);
    PadTrim(digits);
    if TrimZeros(digits) == "" {
      TrimZerosValue(digits);
    } else {
      assert FractionText(nanos)[1..] == TrimZeros(digits);
    }
  }

  lemma {:induction false} PadValue(s: string, w: nat)
    requires AllDigits(s) && |s| <= w
    ensures AllDigits(PadZeros(s, w)) && Value(PadZeros(s, w)) == Value(s) * Pow10(w - |s|)
    decreases w - |s|
  {
    PadDigits(s, w);
    if |s| < w {
      PadValue(s + "0", w);
      assert (s + "0")[..|s|] == s;
      TenTimes(Value(s), Pow10(w - |s| - 1));
    }
  }

  lemma TenTimes(v: nat, p: nat)
    ensures 10 * v * p == v * (10 * p)
  {
  }

  /** A fraction of up to nine digits counts in units of its last digit; further digits are cut. */
  lemma FractionScaled(f: string)
    requires FractionShape(f) && f != ""
    ensures FractionValue(f) == if |f| <= 10 then Value(f[1..]) * Pow10(10 - |f|) else FractionValue(f[..10])
  {
    if |f| <= 10 {
      PadValue(f[1..], 9);
    } else {
      assert f[..10][1..] == f[1..10] && f[..10][0] == f[0];
    }
  }

  lemma {:induction false} TrimZerosEnd(s: string)
    requires AllDigits(s)
    ensures var t := TrimZeros(s); t != "" ==> t[|t| - 1] != '0'
  {
    if s != "" && s[|s| - 1] == '0' { TrimZerosEnd(s[..|s| - 1]); }
  }

  /** A whole second prints no fraction; any other instant a point and digits of which the last is not zero. */
  lemma FractionForm(nanos: int)
    requires 0 <= nanos < 1_000_000_000
    ensures var f := FractionText(nanos);
            if nanos == 0 then f == ""
            else 2 <= |f| <= 10 && f[0] == '.' && AllDigits(f[1..]) && f[|f| - 1] != '0'
                 && Value(f[1..]) * Pow10(10 - |f|) == nanos
  {
    Pow10Nine();
    NumeralValue(nanos, 9);
    FractionRoundTrip(nanos);
    var digits := Numeral(nanos, 9);
    TrimZerosEnd(digits);
    var f := FractionText(nanos);
    if f != "" {
      assert f[1..] == TrimZeros(digits);
      FractionScaled(f);
      EndValue(f[1..]);
      Positive(Value(f[1..]), Pow10(10 - |f|));
    }
  }

  /** A text of digits that does not end in zero is not worth zero. */
  lemma EndValue(s: string)
    requires AllDigits(s) && s != "" && s[|s| - 1] != '0'
    ensures Value(s) > 0
  {
  }

  lemma Positive(a: nat, b: nat)
    requires a > 0 && b > 0
    ensures a * b > 0
  {
  }

  lemma InstantLayout(date: string, clock: string, f: string)
    requires |clock| == 8
    ensures var s := date + "T" + clock + f + "Z";
            && |s| == |date| + 10 + |f| && s[|s| - 1] == 'Z' && s[..|date|] == date
            && (|date| == 10 ==> s[10] == 'T' && s[11..19] == clock && s[19..|s| - 1] == f)
  {
  }

  lemma ParseLayout(date: string, clock: string, f: string)
    requires |clock| == 8 && ParseClock(clock).Some? && FractionShape(f)
    requires |date| >= 10 && (|date| > 10 ==> date[10] != 'T')
    ensures ParseInstant(date + "T" + clock + f + "Z") ==
            if |date| > 10 || ParseDate(date).None? then None
            else var c := ParseClock(clock).value; Some(Instant(ParseDate(date).value, c.0, c.1, c.2, FractionValue(f)))
  {
    var s := date + "T" + clock + f + "Z";
    InstantLayout(date, clock, f);
    if |date| > 10 {
      assert s[10] == s[..|date|][10];
    }
  }

  lemma InstantParts(t: int)
    ensures Instant(DayOf(t), HourOf(t) % 24, MinuteOf(t) % 60, SecondOf(t) % 60, t % 1_000_000_000) == t
  {
  }

  /** A printed instant reads back exactly when its UTC year has four digits. */
  lemma InstantRoundTrip(t: int)
    ensures ParseInstant(InstantText(t)) == if FourDigitInstant(t) then Some(t) else None
  {
    var day, h, m, s, nanos := DayOf(t), HourOf(t) % 24, MinuteOf(t) % 60, SecondOf(t) % 60, t % 1_000_000_000;
    InstantParts(t);
    ReadBack(day, h, m, s, nanos);
  }

  lemma ReadBack(day: int, h: nat, m: nat, s: nat, nanos: nat)
    requires h < 24 && m < 60 && s < 60 && nanos < 1_000_000_000
    ensures ParseInstant(DateText(day) + "T" + ClockText(h, m, s) + FractionText(nanos) + "Z")
            == if FourDigitYear(day) then Some(Instant(day, h, m, s, nanos)) else None
  {
    ClockRoundTrip(h, m, s);
    DateRoundTrip(day);
    FractionRoundTrip(nanos);
    DateWidth(day);
    ParseLayout(DateText(day), ClockText(h, m, s), FractionText(nanos));
  }

  lemma DateWidth(n: int)
    ensures |DateText(n)| >= 10 && (|DateText(n)| > 10 ==> DateText(n)[10] != 'T')
    ensures FourDigitYear(n) ==> |DateText(n)| == 10
  {
    var d, s := DateOf(n), DateText(n);
    DateTextParts(n);
    YearTextWidth(d.year);
    if |s| > 10 {
      var y := s[..|s| - 6];
      assert 10 < |y| ==> y[10] == s[10] && IsDigit(y[10]);
      assert s[|s| - 5] == Numeral(d.month, 2)[0] && s[|s| - 4] == Numeral(d.month, 2)[1];
      assert s[|s| - 2] == Numeral(d.day, 2)[0] && s[|s| - 1] == Numeral(d.day, 2)[1];
    }
  }
}
