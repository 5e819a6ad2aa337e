/**
 * Calendar arithmetic for `datetime.strptime(s, "%Y-%m-%dT%H:%M:%S")`,
 * `datetime.strptime(s, "%H:%M")` and `format_datetime` (src/utilty.py).
 *
 * An instant is an integer number of seconds on the local wall clock of
 * the property: day `Ordinal` (Python's `date.toordinal()`, 0001-01-01 is
 * day 1) starts at second `Ordinal * 86400`.
 */
module Clock {
  import opened Common

  datatype DateTime = DateTime(year: int, month: int, day: int, hour: int, minute: int, second: int)

  predicate IsLeap(y: int) { y % 4 == 0 && (y % 100 != 0 || y % 400 == 0) }

  function DaysInMonth(y: int, m: int): int
    requires 1 <= m <= 12
  {
    if m == 2 then (if IsLeap(y) then 29 else 28)
    else if m == 4 || m == 6 || m == 9 || m == 11 then 30
    else 31
  }

  /** The values `datetime(...)` accepts. */
  predicate Valid(d: DateTime) {
    1 <= d.year <= 9999 && 1 <= d.month <= 12 && 1 <= d.day <= DaysInMonth(d.year, d.month)
    && 0 <= d.hour < 24 && 0 <= d.minute < 60 && 0 <= d.second < 60
  }

  function DaysBeforeYear(y: int): int {
    var p := y - 1;
    p * 365 + p / 4 - p / 100 + p / 400
  }

  function DaysBeforeMonth(y: int, m: int): int
    requires 1 <= m <= 12
  {
    if m == 1 then 0 else DaysBeforeMonth(y, m - 1) + DaysInMonth(y, m - 1)
  }

  /** `date(y, m, d).toordinal()`. */
  function Ordinal(y: int, m: int, d: int): int
    requires 1 <= m <= 12
  {
    DaysBeforeYear(y) + DaysBeforeMonth(y, m) + d
  }

  function Seconds(d: DateTime): int
    requires 1 <= d.month <= 12
  {
    Ordinal(d.year, d.month, d.day) * 86400 + d.hour * 3600 + d.minute * 60 + d.second
  }

  /** `t.date().toordinal()` of an instant. */
  function DayOf(t: int): int { t / 86400 }

  /** `t.hour` of an instant. */
  function HourOf(t: int): int { (t % 86400) / 3600 }

  /** An instant splits into its calendar day and its wall-clock hour. */
  lemma SecondsSplit(d: DateTime)
    requires Valid(d)
    ensures DayOf(Seconds(d)) == Ordinal(d.year, d.month, d.day)
    ensures HourOf(Seconds(d)) == d.hour
  {
    var o := Ordinal(d.year, d.month, d.day);
    var inDay := d.hour * 3600 + d.minute * 60 + d.second;
    assert 0 <= inDay < 86400;
    assert Seconds(d) == o * 86400 + inDay;
    assert Seconds(d) / 86400 == o && Seconds(d) % 86400 == inDay;
  }

  /** A year has 365 days, and 366 when it is a leap year. */
  lemma {:induction false} DaysOfYear(y: int)
    requires 1 <= y
    ensures DaysBeforeYear(y + 1) - DaysBeforeYear(y) == if IsLeap(y) then 366 else 365
  {
    var p := y - 1;
    Step4(p);
    Step100(p);
    Step400(p);
  }

  lemma Step4(p: nat)
    ensures (p + 1) / 4 == p / 4 + (if (p + 1) % 4 == 0 then 1 else 0)
  {
    assert p == 4 * (p / 4) + p % 4;
  }

  lemma Step100(p: nat)
    ensures (p + 1) / 100 == p / 100 + (if (p + 1) % 100 == 0 then 1 else 0)
  {
    assert p == 100 * (p / 100) + p % 100;
  }

  lemma Step400(p: nat)
    ensures (p + 1) / 400 == p / 400 + (if (p + 1) % 400 == 0 then 1 else 0)
  {
    assert p == 400 * (p / 400) + p % 400;
  }

  lemma {:induction false} MonthsOfYear(y: int, m: int)
    requires 1 <= m <= 12
    ensures DaysBeforeMonth(y, m) + DaysInMonth(y, m) == if m == 12 then (if IsLeap(y) then 366 else 365) else DaysBeforeMonth(y, m + 1)
  {
    if m == 12 {
      var f := if IsLeap(y) then 1 else 0;
      assert DaysBeforeMonth(y, 2) == 31;
      assert DaysBeforeMonth(y, 3) == 59 + f;
      assert DaysBeforeMonth(y, 4) == 90 + f;
      assert DaysBeforeMonth(y, 5) == 120 + f;
      assert DaysBeforeMonth(y, 6) == 151 + f;
      assert DaysBeforeMonth(y, 7) == 181 + f;
      assert DaysBeforeMonth(y, 8) == 212 + f;
      assert DaysBeforeMonth(y, 9) == 243 + f;
      assert DaysBeforeMonth(y, 10) == 273 + f;
      assert DaysBeforeMonth(y, 11) == 304 + f;
      assert DaysBeforeMonth(y, 12) == 334 + f;
    }
  }

  /** The calendar day after `d` (same time of day). */
  function NextDay(d: DateTime): (n: DateTime)
    requires Valid(d) && d.year < 9999
    ensures Valid(n)
  {
    if d.day < DaysInMonth(d.year, d.month) then d.(day := d.day + 1)
    else if d.month < 12 then d.(month := d.month + 1, day := 1)
    else d.(year := d.year + 1, month := 1, day := 1)
  }

  /** Consecutive calendar days are exactly one day of seconds apart: the clock has no gaps. */
  lemma NextDaySeconds(d: DateTime)
    requires Valid(d) && d.year < 9999
    ensures Seconds(NextDay(d)) == Seconds(d) + 86400
  {
    if d.day == DaysInMonth(d.year, d.month) {
      MonthsOfYear(d.year, d.month);
      if d.month == 12 {
        DaysOfYear(d.year);
      }
    }
  }

  // ---------------------------------------------------------------------------
  // "%Y-%m-%dT%H:%M:%S"
  // ---------------------------------------------------------------------------

  function Num2(a: char, b: char): nat
    requires IsDigit(a) && IsDigit(b)
  {
    DigitValue(a) * 10 + DigitValue(b)
  }

  function Num4(a: char, b: char, c: char, d: char): nat
    requires IsDigit(a) && IsDigit(b) && IsDigit(c) && IsDigit(d)
  {
    DigitValue(a) * 1000 + DigitValue(b) * 100 + DigitValue(c) * 10 + DigitValue(d)
  }

  /** The two characters `%02d` writes for `0 <= n < 100`. */
  function Two(n: nat): (s: string)
    requires n < 100
    ensures |s| == 2 && AllDigits(s) && Num2(s[0], s[1]) == n
  {
    [DigitChar(n / 10), DigitChar(n % 10)]
  }

  /** The four characters `%04d` writes for `0 <= n < 10000`. */
  function Four(n: nat): (s: string)
    requires n < 10000
    ensures |s| == 4 && AllDigits(s) && Num4(s[0], s[1], s[2], s[3]) == n
  {
    var r1 := n % 1000;
    var r2 := r1 % 100;
    [DigitChar(n / 1000), DigitChar(r1 / 100), DigitChar(r2 / 10), DigitChar(r2 % 10)]
  }

  /** The form `strftime("%Y-%m-%dT%H:%M:%S")` writes: every field zero-padded. */
  function Render(d: DateTime): (s: string)
    requires Valid(d)
    ensures |s| == 19
  {
    var y, mo, da, h, mi, se := Four(d.year), Two(d.month), Two(d.day), Two(d.hour), Two(d.minute), Two(d.second);
    [y[0], y[1], y[2], y[3], '-', mo[0], mo[1], '-', da[0], da[1], 'T',
     h[0], h[1], ':', mi[0], mi[1], ':', se[0], se[1]]
  }

  /** The literal 'T' of the format: the pattern is compiled with IGNORECASE, so 't' matches too. */
  predicate IsT(c: char) { c == 'T' || c == 't' }

  predicate Shaped(s: string) {
    |s| == 19 && s[4] == '-' && s[7] == '-' && IsT(s[10]) && s[13] == ':' && s[16] == ':'
    && IsDigit(s[0]) && IsDigit(s[1]) && IsDigit(s[2]) && IsDigit(s[3])
    && IsDigit(s[5]) && IsDigit(s[6]) && IsDigit(s[8]) && IsDigit(s[9])
    && IsDigit(s[11]) && IsDigit(s[12]) && IsDigit(s[14]) && IsDigit(s[15])
    && IsDigit(s[17]) && IsDigit(s[18])
  }

  function Fields(s: string): DateTime
    requires Shaped(s)
  {
    DateTime(Num4(s[0], s[1], s[2], s[3]), Num2(s[5], s[6]), Num2(s[8], s[9]),
             Num2(s[11], s[12]), Num2(s[14], s[15]), Num2(s[17], s[18]))
  }

  /**
   * `datetime.strptime(s, "%Y-%m-%dT%H:%M:%S")` for the zero-padded form;
   * `None` where Python raises ValueError.
   */
  function ParseDateTime(s: string): (r: Option<DateTime>)
    ensures r.Some? ==> Valid(r.value) && |s| == 19 && Render(r.value) == s[..10] + "T" + s[11..]
  {
    if Shaped(s) && Valid(Fields(s)) then
      RenderFields(s);
      Some(Fields(s))
    else None
  }

  lemma TwoOf(a: char, b: char)
    requires IsDigit(a) && IsDigit(b)
    ensures Two(Num2(a, b)) == [a, b]
  {
  }

  lemma FourOf(a: char, b: char, c: char, d: char)
    requires IsDigit(a) && IsDigit(b) && IsDigit(c) && IsDigit(d)
    ensures Four(Num4(a, b, c, d)) == [a, b, c, d]
  {
    var n := Num4(a, b, c, d);
    var low := DigitValue(b) * 100 + DigitValue(c) * 10 + DigitValue(d);
    assert n == 1000 * DigitValue(a) + low && low < 1000;
    assert n / 1000 == DigitValue(a) && n % 1000 == low;
    var low2 := DigitValue(c) * 10 + DigitValue(d);
    assert low == 100 * DigitValue(b) + low2 && low2 < 100;
    assert low / 100 == DigitValue(b) && low % 100 == low2;
  }

  lemma RenderFields(s: string)
    requires Shaped(s) && Valid(Fields(s))
    ensures Render(Fields(s)) == s[..10] + "T" + s[11..]
  {
    FourOf(s[0], s[1], s[2], s[3]);
    TwoOf(s[5], s[6]);
    TwoOf(s[8], s[9]);
    TwoOf(s[11], s[12]);
    TwoOf(s[14], s[15]);
    TwoOf(s[17], s[18]);
  }

  /** Rendering then parsing gives the value back: with `ParseDateTime`'s contract, Some(d) exactly for Render(d). */
  lemma ParseRender(d: DateTime)
    requires Valid(d)
    ensures ParseDateTime(Render(d)) == Some(d)
  {
    var s := Render(d);
    assert Shaped(s);
    assert Fields(s) == d;
  }

  /**
   * A text that starts "YYYY-MM-DDTHH:MM:" and a digit, with month, day,
   * hour and minute in the two-digit ranges of `%m` (01-12), `%d` (01-31),
   * `%H` (00-23) and `%M` (00-59). The first alternative of each directive's
   * pattern reads such a field as two digits, so this is how the match reads it.
   */
  predicate PaddedHead(s: string) {
    |s| >= 18 && s[4] == '-' && s[7] == '-' && IsT(s[10]) && s[13] == ':' && s[16] == ':'
    && IsDigit(s[0]) && IsDigit(s[1]) && IsDigit(s[2]) && IsDigit(s[3])
    && IsDigit(s[5]) && IsDigit(s[6]) && IsDigit(s[8]) && IsDigit(s[9])
    && IsDigit(s[11]) && IsDigit(s[12]) && IsDigit(s[14]) && IsDigit(s[15])
    && IsDigit(s[17])
    && 1 <= Num2(s[5], s[6]) <= 12 && 1 <= Num2(s[8], s[9]) <= 31
    && Num2(s[11], s[12]) <= 23 && Num2(s[14], s[15]) <= 59
  }

  /** Where `%S` (`6[0-1]|[0-5]\d|\d`) stops: after two digits up to 61, else after one. */
  function SecondsEnd(s: string): nat
    requires PaddedHead(s)
  {
    if |s| >= 19 && IsDigit(s[18]) && Num2(s[17], s[18]) <= 61 then 19 else 18
  }

  /** The ValueError text for a text the pattern does not match. */
  function NoMatch(s: string): string {
    "time data '" + s + "' does not match format '%Y-%m-%dT%H:%M:%S'"
  }

  /**
   * `str(e)` of the ValueError `datetime.strptime(s, "%Y-%m-%dT%H:%M:%S")`
   * raises on `s`: text left after the match, then the checks of
   * `date(year, month, day)` on the year and the day, then `datetime`'s
   * check on the second; the no-match text otherwise.
   */
  function BadTimestamp(s: string): (t: string)
    ensures PaddedHead(s) && SecondsEnd(s) < |s| ==> t == "unconverted data remains: " + s[SecondsEnd(s)..]
    ensures PaddedHead(s) && SecondsEnd(s) == |s| == 19 ==> (t == NoMatch(s) <==> ParseDateTime(s).Some?)
    ensures !PaddedHead(s) ==> t == NoMatch(s)
  {
    if !PaddedHead(s) then NoMatch(s)
    else
      var e := SecondsEnd(s);
      var year, month, day := Num4(s[0], s[1], s[2], s[3]), Num2(s[5], s[6]), Num2(s[8], s[9]);
      if e < |s| then "unconverted data remains: " + s[e..]
      else if year == 0 then "year 0 is out of range"
      else if day > DaysInMonth(year, month) then "day is out of range for month"
      else if e == 19 && Num2(s[17], s[18]) >= 60 then "second must be in 0..59"
      else NoMatch(s)
  }

  /** A trailing zone designator is text left after the match. */
  lemma TrailingZoneText()
    ensures BadTimestamp("2024-06-01T16:00:00Z") == "unconverted data remains: Z"
  {
  }

  /** February 29th of a common year and April 31st fail `date`'s day check. */
  lemma MissingDayText()
    ensures BadTimestamp("2023-02-29T10:00:00") == "day is out of range for month"
    ensures BadTimestamp("2024-04-31T10:00:00") == "day is out of range for month"
  {
    var s := "2023-02-29T10:00:00";
    assert PaddedHead(s) && SecondsEnd(s) == 19 == |s|;
    assert Num4(s[0], s[1], s[2], s[3]) == 2023 && !IsLeap(2023);
    s := "2024-04-31T10:00:00";
    assert PaddedHead(s) && SecondsEnd(s) == 19 == |s|;
    assert Num2(s[5], s[6]) == 4 && Num2(s[8], s[9]) == 31;
  }

  /** A leap second matches `%S` and fails `datetime`'s check. */
  lemma LeapSecondText()
    ensures BadTimestamp("2024-06-01T10:00:60") == "second must be in 0..59"
  {
  }

  /** Year 0 matches `%Y` and fails `date`'s check. */
  lemma YearZeroText()
    ensures BadTimestamp("0000-01-01T00:00:00") == "year 0 is out of range"
  {
  }

  /** A lowercase 't' parses like 'T'. */
  lemma LowercaseT()
    ensures ParseDateTime("2024-06-01t16:00:00") == Some(DateTime(2024, 6, 1, 16, 0, 0))
  {
  }

  /**
   * `format_datetime(s, offset_hours, tz)` (src/utilty.py): the parsed
   * instant moved by `offsetHours` hours; `None` where `strptime` raises.
   */
  function FormatDatetime(s: string, offsetHours: int): (r: Option<int>)
    ensures r.Some? <==> ParseDateTime(s).Some?
    ensures r.Some? ==> r.value - offsetHours * 3600 == Seconds(ParseDateTime(s).value)
  {
    match ParseDateTime(s)
    case Some(d) => Some(Seconds(d) + offsetHours * 3600)
    case None => None
  }

  /** Two offsets applied to one timestamp differ by exactly their difference in hours. */
  lemma FormatShift(s: string, a: int, b: int)
    requires ParseDateTime(s).Some?
    ensures FormatDatetime(s, a).value - FormatDatetime(s, b).value == (a - b) * 3600
  {
  }

  // ---------------------------------------------------------------------------
  // "%H:%M"
  // ---------------------------------------------------------------------------

  /** One field of `%H` (`2[0-3]|[0-1]\d|\d`) or `%M` (`[0-5]\d|\d`): one digit, or two digits up to `max`. */
  predicate ClockField(s: string, max: nat) {
    AllDigits(s) && (|s| == 1 || (|s| == 2 && ParseDigits(s) <= max))
  }

  /**
   * `datetime.strptime(s, "%H:%M").hour`; `None` where Python raises
   * ValueError (the whole string must match).
   */
  function ParseHourMinute(s: string): (r: Option<int>)
    ensures r.Some? ==> 0 <= r.value < 24
    ensures r.Some? <==> (exists i :: 0 <= i < |s| && s[i] == ':' && ClockField(s[..i], 23) && ClockField(s[i + 1..], 59))
  {
    var i := IndexOf(s, ':');
    if i < |s| && ClockField(s[..i], 23) && ClockField(s[i + 1..], 59) then
      assert ParseDigits(s[..i]) <= 23 by {
        if |s[..i]| == 1 { assert ParseDigits(s[..i]) == DigitValue(s[0]); }
      }
      Some(ParseDigits(s[..i]))
    else
      assert forall j :: 0 <= j < |s| && s[j] == ':' && ClockField(s[..j], 23) ==> j == i by {
        forall j | 0 <= j < |s| && s[j] == ':' && ClockField(s[..j], 23) ensures j == i {
          forall k | 0 <= k < j ensures IsDigit(s[k]) {
            assert s[..j][k] == s[k];
          }
        }
      }
      None
  }
}
