/**
 * Calendar dates as the pages use them: the complete ISO 8601 calendar date
 * `YYYY-MM-DD` (ISO 8601:2004 section 4.1.2.2) that `toISOString().split('T')[0]`
 * produces and `<input type="date">` yields, read back with `new Date(s)` and
 * compared, stepped by a day or a month, and asked for its day of the week.
 * Dates are proleptic Gregorian, as in JavaScript.
 */
module Dates {
  import opened Wrappers
  import opened Text

  /** A calendar date; `month` runs 1..12 (JavaScript's `getMonth()` is `month - 1`). */
  datatype Date = Date(year: int, month: int, day: int)

  predicate IsLeapYear(y: int) {
    y % 4 == 0 && (y % 100 != 0 || y % 400 == 0)
  }

  function YearLength(y: int): int {
    if IsLeapYear(y) then 366 else 365
  }

  function DaysInMonth(y: int, m: int): (n: int)
    requires 1 <= m <= 12
    ensures 28 <= n <= 31
  {
    if m == 2 then (if IsLeapYear(y) then 29 else 28)
    else if m == 4 || m == 6 || m == 9 || m == 11 then 30
    else 31
  }

  /** A date that exists on the calendar. */
  predicate Valid(d: Date) {
    1 <= d.month <= 12 && 1 <= d.day <= DaysInMonth(d.year, d.month)
  }

  // ---------------------------------------------------------------- day numbers

  /** Days from 0000-01-01 to the first of January of year `y` (negative before year 0). */
  function DaysBeforeYear(y: int): int {
    365 * y + (y + 3) / 4 - (y + 99) / 100 + (y + 399) / 400
  }

  /** Days from the first of January of year `y` to the first of month `m`. */
  function DaysBeforeMonth(y: int, m: int): int
    requires 1 <= m <= 12
  {
    var common := if m == 1 then 0 else if m == 2 then 31 else if m == 3 then 59
      else if m == 4 then 90 else if m == 5 then 120 else if m == 6 then 151
      else if m == 7 then 181 else if m == 8 then 212 else if m == 9 then 243
      else if m == 10 then 273 else if m == 11 then 304 else 334;
    if m > 2 && IsLeapYear(y) then common + 1 else common
  }

  /** Days from 0000-01-01 to `d`: the time value JavaScript compares, in days. */
  function DayNumber(d: Date): int
    requires Valid(d)
  {
    DaysBeforeYear(d.year) + DaysBeforeMonth(d.year, d.month) + d.day - 1
  }

  lemma YearStep(y: int)
    ensures DaysBeforeYear(y + 1) == DaysBeforeYear(y) + YearLength(y)
  {
    LeapCountStep(y);
    LeapRules(y);
  }

  /** The multiples of 4, 100 and 400 counted before year `y + 1` exceed those before `y` by the ones dividing `y`. */
  lemma LeapCountStep(y: int)
    ensures (y + 1 + 3) / 4 == (y + 3) / 4 + if y % 4 == 0 then 1 else 0
    ensures (y + 1 + 99) / 100 == (y + 99) / 100 + if y % 100 == 0 then 1 else 0
    ensures (y + 1 + 399) / 400 == (y + 399) / 400 + if y % 400 == 0 then 1 else 0
  {
    StepBy4(y);
    StepBy100(y);
    StepBy400(y);
  }

  lemma StepBy4(y: int)
    ensures (y + 4) / 4 == (y + 3) / 4 + if y % 4 == 0 then 1 else 0
  {
    var q, r := (y + 3) / 4, (y + 3) % 4;
    assert y + 3 == 4 * q + r;
    if r == 3 { assert y + 4 == 4 * (q + 1) && y == 4 * q; }
    else { assert y + 4 == 4 * q + r + 1 && y == 4 * (q - 1) + r + 1; }
  }

  lemma StepBy100(y: int)
    ensures (y + 100) / 100 == (y + 99) / 100 + if y % 100 == 0 then 1 else 0
  {
    var q, r := (y + 99) / 100, (y + 99) % 100;
    assert y + 99 == 100 * q + r;
    if r == 99 { assert y + 100 == 100 * (q + 1) && y == 100 * q; }
    else { assert y + 100 == 100 * q + r + 1 && y == 100 * (q - 1) + r + 1; }
  }

  lemma StepBy400(y: int)
    ensures (y + 400) / 400 == (y + 399) / 400 + if y % 400 == 0 then 1 else 0
  {
    var q, r := (y + 399) / 400, (y + 399) % 400;
    assert y + 399 == 400 * q + r;
    if r == 399 { assert y + 400 == 400 * (q + 1) && y == 400 * q; }
    else { assert y + 400 == 400 * q + r + 1 && y == 400 * (q - 1) + r + 1; }
  }

  /** The Gregorian rule as a count: one day for a multiple of 4, less one for 100, plus one for 400. */
  lemma LeapRules(y: int)
    ensures YearLength(y) == 365 + (if y % 4 == 0 then 1 else 0) - (if y % 100 == 0 then 1 else 0) + (if y % 400 == 0 then 1 else 0)
  {
    if y % 100 == 0 {
      assert y == 4 * (25 * (y / 100));
    }
    if y % 400 == 0 {
      assert y == 100 * (4 * (y / 400));
    }
  }

  lemma MonthStep(y: int, m: int)
    requires 1 <= m < 12
    ensures DaysBeforeMonth(y, m + 1) == DaysBeforeMonth(y, m) + DaysInMonth(y, m)
  {
  }

  lemma DayWithinYear(d: Date)
    requires Valid(d)
    ensures 0 <= DayNumber(d) - DaysBeforeYear(d.year) < YearLength(d.year)
  {
  }

  lemma {:induction false} YearsApart(y: int, z: int)
    requires y <= z
    ensures DaysBeforeYear(y) + 365 * (z - y) <= DaysBeforeYear(z)
    decreases z - y
  {
    if y < z {
      YearStep(y);
      YearsApart(y + 1, z);
    }
  }

  /** Chronological order on (year, month, day). */
  predicate Before(a: Date, b: Date) {
    a.year < b.year || (a.year == b.year && (a.month < b.month || (a.month == b.month && a.day < b.day)))
  }

  /**
   * Comparing time values, as `new Date(a) <= new Date(b)` does, is comparing
   * the dates chronologically.
   */
  lemma DayNumberOrder(a: Date, b: Date)
    requires Valid(a) && Valid(b)
    ensures DayNumber(a) < DayNumber(b) <==> Before(a, b)
    ensures DayNumber(a) == DayNumber(b) <==> a == b
  {
    DayWithinYear(a);
    DayWithinYear(b);
    if a.year < b.year {
      YearsApart(a.year + 1, b.year);
      YearStep(a.year);
    } else if b.year < a.year {
      YearsApart(b.year + 1, a.year);
      YearStep(b.year);
    } else {
      if a.month < b.month {
        MonthsApart(a.year, a.month, b.month);
      } else if b.month < a.month {
        MonthsApart(a.year, b.month, a.month);
      }
    }
  }

  lemma MonthsApart(y: int, m: int, n: int)
    requires 1 <= m < n <= 12
    ensures DaysBeforeMonth(y, m) + DaysInMonth(y, m) <= DaysBeforeMonth(y, n)
  {
  }

  // ---------------------------------------------------------------- stepping

  /** `setDate(getDate() + 1)`: the following calendar day. */
  function NextDay(d: Date): (e: Date)
    requires Valid(d)
    ensures Valid(e)
  {
    if d.day < DaysInMonth(d.year, d.month) then Date(d.year, d.month, d.day + 1)
    else if d.month < 12 then Date(d.year, d.month + 1, 1)
    else Date(d.year + 1, 1, 1)
  }

  /** `setDate(getDate() - 1)`: the preceding calendar day. */
  function PrevDay(d: Date): (e: Date)
    requires Valid(d)
    ensures Valid(e)
  {
    if d.day > 1 then Date(d.year, d.month, d.day - 1)
    else if d.month > 1 then Date(d.year, d.month - 1, DaysInMonth(d.year, d.month - 1))
    else Date(d.year - 1, 12, 31)
  }

  /** The next day is exactly one day later. */
  lemma NextDayNumber(d: Date)
    requires Valid(d)
    ensures DayNumber(NextDay(d)) == DayNumber(d) + 1
  {
    if d.day == DaysInMonth(d.year, d.month) {
      if d.month < 12 {
        MonthStep(d.year, d.month);
      } else {
        YearStep(d.year);
      }
    }
  }

  /** The previous day is exactly one day earlier, and stepping back then forward returns to the start. */
  lemma PrevDayNumber(d: Date)
    requires Valid(d)
    ensures DayNumber(PrevDay(d)) == DayNumber(d) - 1
    ensures NextDay(PrevDay(d)) == d
  {
    var p := PrevDay(d);
    NextDayNumber(p);
    if d.day == 1 {
      if d.month > 1 {
        MonthStep(d.year, d.month - 1);
      } else {
        YearStep(d.year - 1);
      }
    }
    DayNumberOrder(NextDay(p), d);
  }

  /** The month a date falls in, counted from January of year 0. */
  function MonthIndex(d: Date): int {
    12 * d.year + d.month - 1
  }

  /** `new Date(year, month - 2, 1)`: the first day of the month before, rolling the year back from January. */
  function PrevMonthStart(d: Date): (e: Date)
    requires Valid(d)
    ensures Valid(e) && e.day == 1 && MonthIndex(e) == MonthIndex(d) - 1
  {
    if d.month == 1 then Date(d.year - 1, 12, 1) else Date(d.year, d.month - 1, 1)
  }

  /** `new Date(year, month, 1)`: the first day of the month after, rolling the year over from December. */
  function NextMonthStart(d: Date): (e: Date)
    requires Valid(d)
    ensures Valid(e) && e.day == 1 && MonthIndex(e) == MonthIndex(d) + 1
  {
    if d.month == 12 then Date(d.year + 1, 1, 1) else Date(d.year, d.month + 1, 1)
  }

  /** Going back a month and forward again lands on the first day of the month one started in. */
  lemma MonthStepsInverse(d: Date)
    requires Valid(d)
    ensures NextMonthStart(PrevMonthStart(d)) == Date(d.year, d.month, 1)
    ensures PrevMonthStart(NextMonthStart(d)) == Date(d.year, d.month, 1)
  {
  }

  /** Day of the week, 0 = Sunday .. 6 = Saturday, as `getDay()`; 0000-01-01 was a Saturday. */
  function Weekday(d: Date): (w: int)
    requires Valid(d)
    ensures 0 <= w < 7
  {
    (DayNumber(d) + 6) % 7
  }

  /** 1 January 2000 was a Saturday and 15 February 2024 a Thursday. */
  lemma WeekdayAnchors()
    ensures Weekday(Date(2000, 1, 1)) == 6
    ensures Weekday(Date(2024, 2, 15)) == 4
  {
    assert DayNumber(Date(2000, 1, 1)) == 730485;
    assert DayNumber(Date(2024, 2, 15)) == 739296;
  }

  /** The day after a date falls on the next day of the week, Saturday wrapping round to Sunday. */
  lemma WeekdayNext(d: Date)
    requires Valid(d)
    ensures Weekday(NextDay(d)) == (Weekday(d) + 1) % 7
  {
    NextDayNumber(d);
    ModSevenStep(DayNumber(d) + 6);
  }

  lemma ModSevenStep(x: int)
    ensures (x + 1) % 7 == (x % 7 + 1) % 7
  {
    var q, r := x / 7, x % 7;
    assert x == 7 * q + r;
    if r == 6 {
      assert x + 1 == 7 * (q + 1);
    } else {
      assert x + 1 == 7 * q + (r + 1);
    }
  }

  /** The date `n` days after `d`. */
  function AfterDays(d: Date, n: nat): (e: Date)
    requires Valid(d)
    ensures Valid(e)
  {
    if n == 0 then d else NextDay(AfterDays(d, n - 1))
  }

  /** Stepping `n` days on adds `n` to the day number. */
  lemma {:induction false} AfterDaysNumber(d: Date, n: nat)
    requires Valid(d)
    ensures DayNumber(AfterDays(d, n)) == DayNumber(d) + n
  {
    if n > 0 {
      AfterDaysNumber(d, n - 1);
      NextDayNumber(AfterDays(d, n - 1));
    }
  }

  // ---------------------------------------------------------------- ISO 8601 text

  /**
   * `new Date(s)` on a date-only string: a date for the complete form
   * `YYYY-MM-DD` naming a day that exists, and `None` (an Invalid Date, whose
   * time value is NaN) otherwise.
   */
  function ParseIso(s: string): (r: Option<Date>)
    ensures r.Some? ==> Valid(r.value) && 0 <= r.value.year <= 9999
  {
    if |s| == 10 && s[4] == '-' && s[7] == '-'
      && AllDigits(s[..4]) && AllDigits(s[5..7]) && AllDigits(s[8..])
    then
      var d := Date(DecimalValue(s[..4]), DecimalValue(s[5..7]), DecimalValue(s[8..]));
      assert DecimalValue(s[..4]) <= 9999 by { DigitsBound(s[..4]); }
      if Valid(d) then Some(d) else None
    else None
  }

  /** `toISOString().split('T')[0]` for years 0..9999: zero-padded year, month and day. */
  function FormatIso(d: Date): (s: string)
    requires Valid(d) && 0 <= d.year <= 9999
  {
    PadStart(NatToDecimal(d.year), 4, '0') + "-" + PadStart(NatToDecimal(d.month), 2, '0')
      + "-" + PadStart(NatToDecimal(d.day), 2, '0')
  }

  /** A digit string of length k denotes a number below 10^k. */
  lemma {:induction false} DigitsBound(s: string)
    requires AllDigits(s)
    ensures DecimalValue(s) < Pow10(|s|)
  {
    if s != [] {
      DigitsBound(s[..|s| - 1]);
    }
  }

  /** Rendering a number below 10^k and padding it to k places gives k digits that read back as the number. */
  lemma PaddedDecimal(n: nat, k: nat)
    requires 1 <= k && n < Pow10(k)
    ensures var t := PadStart(NatToDecimal(n), k, '0');
      |t| == k && AllDigits(t) && DecimalValue(t) == n
  {
    DecimalLength(n, k, Pow10(k));
    var r := NatToDecimal(n);
    DecimalLeadingZeros(k - |r|, r);
    DecimalRoundTrip(n);
  }

  /** Reading back a formatted date gives the date. */
  lemma ParseFormat(d: Date)
    requires Valid(d) && 0 <= d.year <= 9999
    ensures ParseIso(FormatIso(d)) == Some(d)
  {
    assert Pow10(4) == 10000 && Pow10(2) == 100 by {
      assert Pow10(1) == 10;
    }
    PaddedDecimal(d.year, 4);
    PaddedDecimal(d.month, 2);
    PaddedDecimal(d.day, 2);
    IsoFields(PadStart(NatToDecimal(d.year), 4, '0'), PadStart(NatToDecimal(d.month), 2, '0'),
      PadStart(NatToDecimal(d.day), 2, '0'));
  }

  /** The three fields of `YYYY-MM-DD` sit at fixed positions. */
  lemma IsoFields(y: string, m: string, dd: string)
    requires |y| == 4 && |m| == 2 && |dd| == 2
    ensures var s := y + "-" + m + "-" + dd;
      && |s| == 10 && s[4] == '-' && s[7] == '-' && s[..4] == y && s[5..7] == m && s[8..] == dd
  {
    var s := y + "-" + m + "-" + dd;
    assert s[..4] == y;
    assert s[5..7] == m;
    assert s[8..] == dd;
  }

  /** A k-digit string is the padded rendering of the number it denotes. */
  lemma {:induction false} DigitsArePadded(t: string)
    requires |t| >= 1 && AllDigits(t)
    ensures PadStart(NatToDecimal(DecimalValue(t)), |t|, '0') == t
  {
    var k := |t|;
    var c := t[k - 1];
    if k > 1 {
      var t' := t[..k - 1];
      var v' := DecimalValue(t');
      DigitsArePadded(t');
      var v := DecimalValue(t);
      assert v == 10 * v' + DigitValue(c);
      if v' == 0 {
        assert t' == Repeat('0', k - 2) + "0";
        assert NatToDecimal(v) == [c];
        assert t == t' + [c];
      } else {
        assert v / 10 == v' && v % 10 == DigitValue(c);
        assert NatToDecimal(v) == NatToDecimal(v') + [c];
        assert t == t' + [c];
      }
    }
  }

  /**
   * Every string that parses is the formatted form of its date, so two
   * well-formed date strings are equal exactly when their dates are: the
   * pages' `a.date === todayStr` is date equality.
   */
  lemma FormatParse(s: string)
    requires ParseIso(s).Some?
    ensures FormatIso(ParseIso(s).value) == s
  {
    DigitsArePadded(s[..4]);
    DigitsArePadded(s[5..7]);
    DigitsArePadded(s[8..]);
    assert s == s[..4] + "-" + s[5..7] + "-" + s[8..];
  }
}
