/** The period label `"YYYY-MM"` (companion `periodKey` of StrategyEngine.kt).
    The UTC calendar date of the evaluation instant is supplied by the caller. */
module PeriodKeys {
  import opened Wrappers

  type Month = m: int | 1 <= m <= 12 witness 1
  type DayOfMonth = d: int | 1 <= d <= 31 witness 1

  /** A UTC calendar date. */
  datatype UtcDate = UtcDate(year: int, month: Month, day: DayOfMonth)

  /** A year and month: the period a date belongs to. */
  datatype Period = Period(year: int, month: Month)

  /** The month before (y, m), as `minusMonths(1)` moves it; January rolls
      back to December of the previous year. */
  function PreviousMonth(y: int, m: Month): Period {
    if m == 1 then Period(y - 1, 12) else Period(y, m - 1)
  }

  /** The month after p: the inverse of PreviousMonth. */
  function NextMonth(p: Period): Period {
    if p.month == 12 then Period(p.year + 1, 1) else Period(p.year, p.month + 1)
  }

  /** The period of a date when periods start on `startDay`: a day before the
      start day still belongs to the previous month's period. */
  function PeriodOf(date: UtcDate, startDay: int): (p: Period)
    ensures date.day >= startDay ==> p == Period(date.year, date.month)
    ensures date.day < startDay ==> NextMonth(p) == Period(date.year, date.month)
  {
    if date.day < startDay then PreviousMonth(date.year, date.month)
    else Period(date.year, date.month)
  }

  // ---- formatting, as `"%04d-%02d".format(year, month)` ----

  predicate IsDigit(c: char) {
    '0' <= c <= '9'
  }

  predicate AllDigits(s: string) {
    forall i :: 0 <= i < |s| ==> IsDigit(s[i])
  }

  function DigitChar(d: nat): (c: char)
    requires d < 10
    ensures IsDigit(c) && DigitValue(c) == d
  {
    ('0' as int + d) as char
  }

  function DigitValue(c: char): int {
    c as int - '0' as int
  }

  /** The decimal digits of n, without leading zeros. */
  function Decimal(n: nat): (s: string)
    ensures |s| >= 1 && AllDigits(s)
  {
    if n < 10 then [DigitChar(n)] else Decimal(n / 10) + [DigitChar(n % 10)]
  }

  function Zeros(k: nat): (s: string)
    ensures |s| == k && AllDigits(s)
    ensures forall i :: 0 <= i < k ==> s[i] == '0'
  {
    seq(k, _ => '0')
  }

  /** s preceded by as many zeros as it takes to reach the width: the result
      is exactly the width long, or as long as s when s already fills it. */
  function ZeroPad(s: string, width: nat): (r: string)
    ensures |r| == if |s| >= width then |s| else width
    ensures AllDigits(s) ==> AllDigits(r)
  {
    if |s| >= width then s else Zeros(width - |s|) + s
  }

  /** The padded text is a run of zeros followed by s itself. */
  lemma ZeroPadKeepsText(s: string, width: nat)
    ensures var r := ZeroPad(s, width);
      && r[|r| - |s|..] == s
      && forall i :: 0 <= i < |r| - |s| ==> r[i] == '0'
  {
  }

  function Pow10(w: nat): (r: nat)
    ensures r >= 1
    ensures w >= 1 ==> r >= 10
  {
    if w == 0 then 1 else 10 * Pow10(w - 1)
  }

  /** n is written with at most w digits exactly when n < 10^w. */
  lemma {:induction false} DecimalWidth(n: nat, w: nat)
    requires w >= 1
    ensures |Decimal(n)| <= w <==> n < Pow10(w)
  {
    if n >= 10 {
      if w == 1 {
        assert |Decimal(n)| == |Decimal(n / 10)| + 1;
      } else {
        DecimalWidth(n / 10, w - 1);
        assert |Decimal(n)| == |Decimal(n / 10)| + 1;
        assert n / 10 < Pow10(w - 1) <==> n < 10 * Pow10(w - 1);
      }
    }
  }

  /** Java's `%0<width>d`: a minus sign for negative numbers, then the
      magnitude zero-padded so that the whole text fills the width. */
  function FormatPadded(n: int, width: nat): string {
    if n < 0 then "-" + ZeroPad(Decimal(-n), if width > 0 then width - 1 else 0)
    else ZeroPad(Decimal(n), width)
  }

  function FormatKey(p: Period): string {
    FormatPadded(p.year, 4) + "-" + FormatPadded(p.month, 2)
  }

  /** The period key stored in the state and compared between evaluations. */
  function PeriodKey(date: UtcDate, startDay: int): string {
    FormatKey(PeriodOf(date, startDay))
  }

  // ---- reading a key back ----

  /** The number a string of decimal digits denotes (leading zeros allowed). */
  function ParseDecimal(s: string): nat
    requires AllDigits(s)
  {
    if s == [] then 0 else ParseDecimal(s[..|s| - 1]) * 10 + DigitValue(s[|s| - 1])
  }

  /** Reads a key of the shape FormatKey produces; None for anything else. */
  function ParseKey(key: string): Option<Period> {
    if |key| < 4 || key[|key| - 3] != '-' then None
    else
      var yearText, monthText := key[..|key| - 3], key[|key| - 2..];
      if !AllDigits(monthText) then None
      else
        var m := ParseDecimal(monthText);
        if !(1 <= m <= 12) then None
        else if |yearText| >= 2 && yearText[0] == '-' && AllDigits(yearText[1..]) then
          Some(Period(0 - ParseDecimal(yearText[1..]) as int, m))
        else if |yearText| >= 1 && AllDigits(yearText) then
          Some(Period(ParseDecimal(yearText), m))
        else None
  }

  lemma {:induction false} ParseDecimalOfDecimal(n: nat)
    ensures ParseDecimal(Decimal(n)) == n
  {
    var s := Decimal(n);
    if n >= 10 {
      assert s[..|s| - 1] == Decimal(n / 10);
      ParseDecimalOfDecimal(n / 10);
    }
  }

  lemma {:induction false} ParseDecimalSkipsZeros(k: nat, s: string)
    requires AllDigits(s)
    ensures ParseDecimal(Zeros(k) + s) == ParseDecimal(s)
    decreases |s|, k
  {
    if s == [] {
      assert Zeros(k) + s == Zeros(k);
      if k > 0 {
        assert Zeros(k)[..k - 1] == Zeros(k - 1);
        ParseDecimalSkipsZeros(k - 1, []);
        assert Zeros(k - 1) + [] == Zeros(k - 1);
      }
    } else {
      var t := Zeros(k) + s;
      assert t[..|t| - 1] == Zeros(k) + s[..|s| - 1];
      ParseDecimalSkipsZeros(k, s[..|s| - 1]);
    }
  }

  lemma ParsePadded(n: nat, width: nat)
    ensures ParseDecimal(ZeroPad(Decimal(n), width)) == n
  {
    ParseDecimalOfDecimal(n);
    if |Decimal(n)| < width {
      ParseDecimalSkipsZeros(width - |Decimal(n)|, Decimal(n));
    }
  }

  /** A month is always written with exactly two digits. */
  lemma MonthTextIsTwoDigits(m: Month)
    ensures |FormatPadded(m, 2)| == 2
    ensures AllDigits(FormatPadded(m, 2))
    ensures ParseDecimal(FormatPadded(m, 2)) == m
  {
    ParsePadded(m, 2);
    assert |Decimal(m)| <= 2 by {
      if m >= 10 { assert Decimal(m / 10) == [DigitChar(m / 10)]; }
    }
  }

  /** A year is written as an optional minus sign and at least one digit,
      and the digits read back as its magnitude. */
  lemma YearTextParses(year: int)
    ensures var y := FormatPadded(year, 4);
      if year < 0 then |y| >= 2 && y[0] == '-' && AllDigits(y[1..]) && ParseDecimal(y[1..]) == -year
      else |y| >= 1 && y[0] != '-' && AllDigits(y) && ParseDecimal(y) == year
  {
    var y := FormatPadded(year, 4);
    if year < 0 {
      ParsePadded(-year, 3);
      assert y[1..] == ZeroPad(Decimal(-year), 3);
    } else {
      ParsePadded(year, 4);
      assert IsDigit(y[0]);
    }
  }

  /** `%04d` prints exactly four digits exactly when the year lies in
      0..9999. */
  lemma YearTextShape(year: int)
    ensures var y := FormatPadded(year, 4);
      (|y| == 4 && AllDigits(y)) <==> 0 <= year <= 9999
  {
    var y := FormatPadded(year, 4);
    if year >= 0 {
      DecimalWidth(year, 4);
      assert Pow10(4) == 10000;
    } else {
      assert y[0] == '-';
    }
  }

  /** A key has the "YYYY-MM" shape (four digits, a dash, two digits)
      exactly when the year lies in 0..9999; other years print with a sign or
      with more digits. */
  lemma KeyShape(p: Period)
    ensures var k := FormatKey(p);
      (|k| == 7 && AllDigits(k[..4]) && k[4] == '-' && AllDigits(k[5..])) <==> 0 <= p.year <= 9999
  {
    var y, mt := FormatPadded(p.year, 4), FormatPadded(p.month, 2);
    var k := FormatKey(p);
    MonthTextIsTwoDigits(p.month);
    YearTextShape(p.year);
    assert k == y + "-" + mt;
    if |k| == 7 {
      assert |y| == 4;
      assert k[..4] == y;
      assert k[5..] == mt;
    }
  }

  /** Reading a formatted key gives back the period: a key carries its year
      and month exactly. */
  lemma ParseFormatKey(p: Period)
    ensures ParseKey(FormatKey(p)) == Some(p)
  {
    var y, mt := FormatPadded(p.year, 4), FormatPadded(p.month, 2);
    MonthTextIsTwoDigits(p.month);
    YearTextParses(p.year);
    var key := FormatKey(p);
    assert key == y + "-" + mt;
    assert key[..|key| - 3] == y;
    assert key[|key| - 2..] == mt;
    assert key[|key| - 3] == '-';
  }

  /** Distinct periods never share a key, so comparing keys compares periods. */
  lemma KeysIdentifyPeriods(p1: Period, p2: Period)
    ensures FormatKey(p1) == FormatKey(p2) <==> p1 == p2
  {
    ParseFormatKey(p1);
    ParseFormatKey(p2);
  }

  predicate DateAtOrBefore(d1: UtcDate, d2: UtcDate) {
    d1.year < d2.year
    || (d1.year == d2.year && d1.month < d2.month)
    || (d1.year == d2.year && d1.month == d2.month && d1.day <= d2.day)
  }

  predicate PeriodAtOrBefore(p1: Period, p2: Period) {
    p1.year < p2.year || (p1.year == p2.year && p1.month <= p2.month)
  }

  /** Later dates never fall in earlier periods. */
  lemma PeriodOfIsMonotone(d1: UtcDate, d2: UtcDate, startDay: int)
    requires DateAtOrBefore(d1, d2)
    ensures PeriodAtOrBefore(PeriodOf(d1, startDay), PeriodOf(d2, startDay))
  {
  }

  /** The start day opens a new period: the day before it still belongs to
      the previous month's period, the start day itself to the current one. */
  lemma StartDayOpensPeriod(y: int, m: Month, startDay: int)
    requires 2 <= startDay <= 28
    ensures PeriodKey(UtcDate(y, m, startDay - 1), startDay) == FormatKey(PreviousMonth(y, m))
    ensures PeriodKey(UtcDate(y, m, startDay), startDay) == FormatKey(Period(y, m))
    ensures PeriodKey(UtcDate(y, m, startDay - 1), startDay) != PeriodKey(UtcDate(y, m, startDay), startDay)
  {
    KeysIdentifyPeriods(PreviousMonth(y, m), Period(y, m));
  }

  /** The worked examples: with start day 2, February 1st 2026 still lies in
      "2026-01" and February 2nd opens "2026-02"; January 1st 2026 lies in
      "2025-12". */
  lemma KeyExamples()
    ensures PeriodKey(UtcDate(2026, 2, 1), 2) == "2026-01"
    ensures PeriodKey(UtcDate(2026, 2, 2), 2) == "2026-02"
    ensures PeriodKey(UtcDate(2026, 1, 1), 2) == "2025-12"
    ensures PeriodKey(UtcDate(2026, 1, 2), 2) == "2026-01"
  {
    YearTexts();
    MonthTexts();
  }

  lemma YearTexts()
    ensures FormatPadded(2026, 4) == "2026"
    ensures FormatPadded(2025, 4) == "2025"
  {
    assert Decimal(2026) == "2026";
    assert Decimal(2025) == "2025";
  }

  lemma MonthTexts()
    ensures FormatPadded(1, 2) == "01"
    ensures FormatPadded(2, 2) == "02"
    ensures FormatPadded(12, 2) == "12"
  {
    assert Decimal(1) == "1";
    assert Decimal(2) == "2";
    assert Decimal(12) == "12";
  }
}
