/**
 * Civil-calendar dates as Python's `datetime` sees them: parsing with
 * `strptime(text, "%Y-%m-%d")`, formatting with `strftime("%Y-%m-%d")`, and
 * adding whole days with `timedelta`.
 */
module Calendar {
  import opened Wrappers
  import opened Text

  /** Largest year a Python `date` can hold (`datetime.MAXYEAR`). */
  const MaxYear := 9999

  datatype Date = Date(year: int, month: int, day: int)

  predicate IsLeapYear(y: int)
  {
    y % 4 == 0 && (y % 100 != 0 || y % 400 == 0)
  }

  /** Days in month `m` of year `y` in the proleptic Gregorian calendar. */
  function DaysInMonth(y: int, m: int): (n: int)
    ensures 28 <= n <= 31
    ensures n == 28 <==> m == 2 && !IsLeapYear(y)
  {
    if m == 2 then (if IsLeapYear(y) then 29 else 28)
    else if m == 4 || m == 6 || m == 9 || m == 11 then 30
    else 31
  }

  /** A real calendar day from year 1 onwards (the upper year bound is checked separately). */
  predicate ValidDate(d: Date)
  {
    1 <= d.year && 1 <= d.month <= 12 && 1 <= d.day <= DaysInMonth(d.year, d.month)
  }

  /** `a` is strictly earlier than `b`. */
  predicate Before(a: Date, b: Date)
  {
    a.year < b.year
    || (a.year == b.year && a.month < b.month)
    || (a.year == b.year && a.month == b.month && a.day < b.day)
  }

  // ---------- strptime(text, "%Y-%m-%d") ----------

  function DigitValue(c: char): (v: nat)
    requires IsDigit(c)
    ensures v < 10
  {
    (c as int) - ('0' as int)
  }

  predicate NonZeroDigit(c: char) { '1' <= c <= '9' }

  /** The first two alternatives of the month pattern `1[0-2]|0[1-9]|[1-9]`. */
  predicate TwoDigitMonth(a: char, b: char)
  {
    (a == '1' && '0' <= b <= '2') || (a == '0' && NonZeroDigit(b))
  }

  /**
   * The month field and the `-` after it, matched at the start of `s`: the month
   * and what follows the `-`. The two-digit alternatives and the one-digit one
   * cannot both be followed by `-`, so backtracking between them never changes
   * the outcome.
   */
  function MatchMonth(s: string): (r: Option<(int, string)>)
    ensures r.Some? ==> 1 <= r.value.0 <= 12 && |r.value.1| < |s|
  {
    if |s| >= 3 && TwoDigitMonth(s[0], s[1]) && s[2] == '-' then
      Some((10 * DigitValue(s[0]) + DigitValue(s[1]), s[3..]))
    else if |s| >= 2 && NonZeroDigit(s[0]) && s[1] == '-' then
      Some((DigitValue(s[0]), s[2..]))
    else
      None
  }

  /**
   * Characters consumed by the first alternative of the day pattern
   * `3[01]|[12]\d|0[1-9]|[1-9]| [1-9]` that matches at the start of `s`; 0 when
   * none does. The pattern ends the format, so the first alternative that
   * matches is the one the regex engine keeps.
   */
  function DayMatchLength(s: string): (n: nat)
    ensures n <= 2 && n <= |s|
  {
    if |s| >= 2 && s[0] == '3' && (s[1] == '0' || s[1] == '1') then 2
    else if |s| >= 2 && (s[0] == '1' || s[0] == '2') && IsDigit(s[1]) then 2
    else if |s| >= 2 && s[0] == '0' && NonZeroDigit(s[1]) then 2
    else if |s| >= 1 && NonZeroDigit(s[0]) then 1
    else if |s| >= 2 && s[0] == ' ' && NonZeroDigit(s[1]) then 2
    else 0
  }

  /** `int()` of the matched day text (a leading blank is ignored). */
  function DayValue(s: string): (v: int)
    requires DayMatchLength(s) > 0
    ensures 1 <= v <= 31
  {
    if DayMatchLength(s) == 1 then DigitValue(s[0])
    else if s[0] == ' ' then DigitValue(s[1])
    else 10 * DigitValue(s[0]) + DigitValue(s[1])
  }

  /** Four ASCII digits: the year pattern `\d\d\d\d`. */
  predicate YearDigits(s: string)
  {
    |s| >= 4 && IsDigit(s[0]) && IsDigit(s[1]) && IsDigit(s[2]) && IsDigit(s[3])
  }

  function YearValue(s: string): (y: int)
    requires YearDigits(s)
    ensures 0 <= y <= MaxYear
  {
    1000 * DigitValue(s[0]) + 100 * DigitValue(s[1]) + 10 * DigitValue(s[2]) + DigitValue(s[3])
  }

  /**
   * `datetime.strptime(s, "%Y-%m-%d")`: `None` where Python raises `ValueError`
   * (no match, unconverted text left over, or a day the month does not have,
   * or year 0).
   */
  function ParseIsoDate(s: string): (r: Option<Date>)
    ensures r.Some? ==> ValidDate(r.value) && r.value.year <= MaxYear
    ensures r.Some? ==> YearDigits(s) && |s| >= 5 && s[4] == '-' && r.value.year == YearValue(s)
  {
    if !YearDigits(s) || |s| < 5 || s[4] != '-' then None
    else
      match MatchMonth(s[5..])
      case None => None
      case Some((month, dayText)) =>
        if DayMatchLength(dayText) == 0 || DayMatchLength(dayText) != |dayText| then None
        else
          var year, day := YearValue(s), DayValue(dayText);
          if year < 1 || day > DaysInMonth(year, month) then None
          else Some(Date(year, month, day))
  }

  // ---------- strftime("%Y-%m-%d") ----------

  function DigitChar(n: nat): (c: char)
    requires n < 10
    ensures IsDigit(c) && DigitValue(c) == n
  {
    (('0' as int) + n) as char
  }

  /** `n` as two digits with a leading zero. */
  function Pad2(n: nat): (s: string)
    requires n < 100
    ensures |s| == 2 && IsDigit(s[0]) && IsDigit(s[1])
    ensures 10 * DigitValue(s[0]) + DigitValue(s[1]) == n
  {
    [DigitChar(n / 10), DigitChar(n % 10)]
  }

  /** `n` as four digits with leading zeros. */
  function Pad4(n: nat): (s: string)
    requires n < 10000
    ensures YearDigits(s) && |s| == 4 && YearValue(s) == n
  {
    Pad2(n / 100) + Pad2(n % 100)
  }

  /** The `YYYY-MM-DD` text of a date, as the gage-height cache key writes it. */
  function IsoDate(d: Date): (s: string)
    requires ValidDate(d) && d.year <= MaxYear
    ensures |s| == 10
  {
    Pad4(d.year) + "-" + Pad2(d.month) + "-" + Pad2(d.day)
  }

  /** Formatting a date and parsing it back gives the same date. */
  lemma {:induction false} ParseFormatRoundTrip(d: Date)
    requires ValidDate(d) && d.year <= MaxYear
    ensures ParseIsoDate(IsoDate(d)) == Some(d)
  {
    var s := IsoDate(d);
    var y, m, dd := Pad4(d.year), Pad2(d.month), Pad2(d.day);
    assert s == y + "-" + m + "-" + dd;
    assert s[..4] == y;
    assert s[5..] == m + "-" + dd;
    assert MatchMonth(s[5..]) == Some((d.month, dd)) by {
      var t := s[5..];
      assert t[0] == m[0] && t[1] == m[1] && t[2] == '-';
      assert t[3..] == dd;
    }
    assert DayMatchLength(dd) == 2;
  }

  /** Formatted dates are distinct exactly when the dates are. */
  lemma {:induction false} IsoDateInjective(a: Date, b: Date)
    requires ValidDate(a) && a.year <= MaxYear && ValidDate(b) && b.year <= MaxYear
    ensures IsoDate(a) == IsoDate(b) <==> a == b
  {
    if IsoDate(a) == IsoDate(b) {
      ParseFormatRoundTrip(a);
      ParseFormatRoundTrip(b);
    }
  }

  // ---------- date + timedelta(days=n) ----------

  /** The following calendar day. */
  function NextDay(d: Date): (n: Date)
    requires ValidDate(d)
    ensures ValidDate(n) && Before(d, n)
  {
    if d.day < DaysInMonth(d.year, d.month) then Date(d.year, d.month, d.day + 1)
    else if d.month < 12 then Date(d.year, d.month + 1, 1)
    else Date(d.year + 1, 1, 1)
  }

  /** The date `n` days after `d`, counted day by day. */
  function AddDays(d: Date, n: nat): (r: Date)
    requires ValidDate(d)
    ensures ValidDate(r)
  {
    if n == 0 then d else NextDay(AddDays(d, n - 1))
  }

  /** The first day of the month after `d`'s. */
  function NextMonthStart(d: Date): Date
  {
    if d.month < 12 then Date(d.year, d.month + 1, 1) else Date(d.year + 1, 1, 1)
  }

  /**
   * A shift of at most 28 days crosses at most one month boundary: it stays in
   * `d`'s month when the days fit, and otherwise lands in the next month, on the
   * day left over.
   */
  lemma {:induction false} ShortShift(d: Date, n: nat)
    requires ValidDate(d) && n <= 28
    ensures var dim := DaysInMonth(d.year, d.month);
            var s := NextMonthStart(d);
            AddDays(d, n) == if d.day + n <= dim then Date(d.year, d.month, d.day + n)
                             else Date(s.year, s.month, d.day + n - dim)
    ensures n >= 1 ==> Before(d, AddDays(d, n))
  {
    if n > 0 {
      ShortShift(d, n - 1);
    }
  }

  /**
   * `d + timedelta(days=n)`: `None` where Python raises `OverflowError` because
   * the result is past the last representable year.
   */
  function ShiftDate(d: Date, n: nat): (r: Option<Date>)
    requires ValidDate(d)
    ensures r.Some? <==> AddDays(d, n).year <= MaxYear
    ensures r.Some? ==> r.value == AddDays(d, n)
  {
    var s := AddDays(d, n);
    if s.year <= MaxYear then Some(s) else None
  }
}
