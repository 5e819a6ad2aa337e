/**
 * The light rules of src/light.py: the scheduled window of a light, the
 * state it should be in, and whether the run should switch it at all given
 * the reservations. Whether it is night or day at the property (src/usno.py)
 * is an input, and so is the server's calendar day that `parse_local_time`
 * reads from the clock. Instants are seconds on the property's local clock.
 */
module Light {
  import opened Common
  import opened Json
  import Clock
  import opened Reservations

  /** The two `When` values (src/when.py). */
  const ReservationsOnly := "reservations_only"
  const NonReservations := "non_reservations"

  /** The day/night flags `is_sunset` and `is_sunrise` report, or the text of what one of them raised. */
  datatype Sun = Sun(isNight: bool, isDay: bool) | SunFailed(detail: string)

  // ---------------------------------------------------------------------------
  // parse_local_time
  // ---------------------------------------------------------------------------

  /**
   * The digits of a base-10 literal as `int()` reads them: ASCII digits,
   * with single underscores allowed between two digits.
   */
  predicate Numeral(s: string) {
    && s != [] && IsDigit(s[0]) && IsDigit(s[|s| - 1])
    && (forall i :: 0 <= i < |s| ==> IsDigit(s[i]) || s[i] == '_')
    && (forall i :: 0 <= i < |s| - 1 ==> s[i] == '_' ==> s[i + 1] != '_')
  }

  predicate IsSign(c: char) { c == '+' || c == '-' }

  /** An optional sign and a numeral: what is left of an `int()` literal once stripped of whitespace. */
  predicate IntLiteral(t: string) {
    Numeral(t) || (t != [] && IsSign(t[0]) && Numeral(t[1..]))
  }

  /** `str(e)` of the ValueError `int(s)` raises. */
  function BadLiteral(s: string): string {
    "invalid literal for int() with base 10: '" + s + "'"
  }

  /**
   * `int(s)` on a string: whitespace around the literal is ignored, a
   * leading '+' or '-' gives the sign, and underscores between digits are
   * dropped; anything else raises ValueError.
   */
  function ParseInt(s: string): (r: Result<int>)
    ensures r.Done? <==> IntLiteral(Strip(s))
    ensures r.Threw? ==> r.detail == BadLiteral(s)
    ensures r.Done? && Strip(s)[0] == '-' ==> r.value <= 0
    ensures r.Done? && Strip(s)[0] != '-' ==> r.value >= 0
  {
    var t := Strip(s);
    if Numeral(t) then Done(NumeralValue(t))
    else if t != [] && IsSign(t[0]) && Numeral(t[1..]) then
      if t[0] == '-' then Done(0 - NumeralValue(t[1..]) as int) else Done(NumeralValue(t[1..]))
    else Threw(BadLiteral(s))
  }

  /** The value of a numeral: its digits with the underscores dropped. */
  function NumeralValue(s: string): nat
    requires Numeral(s)
  {
    DigitsOfRemoved(s);
    ParseDigits(Remove(s, '_'))
  }

  lemma DigitsOfRemoved(s: string)
    requires forall i :: 0 <= i < |s| ==> IsDigit(s[i]) || s[i] == '_'
    ensures AllDigits(Remove(s, '_'))
  {
    var r := Remove(s, '_');
    forall k | 0 <= k < |r| ensures IsDigit(r[k]) {
      assert r[k] in r;
      var j :| 0 <= j < |s| && s[j] == r[k];
    }
  }

  /** A run of ASCII digits is a numeral without underscores. */
  lemma DigitsNumeral(s: string)
    requires s != [] && AllDigits(s)
    ensures Numeral(s) && Remove(s, '_') == s && Strip(s) == s
  {
    RemoveAbsent(s, '_');
    PrintableIsNotSpace(s[0]);
    PrintableIsNotSpace(s[|s| - 1]);
    StripClean(s);
  }

  lemma {:induction false} RemoveAbsent(s: string, c: char)
    requires forall i :: 0 <= i < |s| ==> s[i] != c
    ensures Remove(s, c) == s
  {
    if s != [] {
      RemoveAbsent(s[1..], c);
    }
  }

  /** `int(str(i))` is `i`, whatever whitespace surrounds the rendering. */
  lemma ParseIntToString(lead: string, i: int, trail: string)
    requires AllSpace(lead) && AllSpace(trail)
    ensures ParseInt(lead + IntToString(i) + trail) == Done(i)
  {
    var n: nat := if i < 0 then -i else i;
    var d := NatToString(n);
    DigitsNumeral(d);
    ParseNatToString(n);
    var t := IntToString(i);
    assert t == if i < 0 then "-" + d else d;
    PrintableIsNotSpace(t[0]);
    PrintableIsNotSpace(t[|t| - 1]);
    StripClean(t);
    StripPadded(lead, t, trail);
    if i < 0 {
      assert t[1..] == d;
      assert !Numeral(t);
    }
  }

  /** Underscores between digit groups are dropped: `int("1_000")` is 1000. */
  lemma ParseIntGrouped(a: string, b: string)
    requires a != [] && AllDigits(a) && b != [] && AllDigits(b)
    ensures ParseInt(a + "_" + b) == Done(ParseDigits(a + b))
  {
    var s := a + "_" + b;
    assert Numeral(s) by {
      forall i | 0 <= i < |s| - 1 && s[i] == '_' ensures s[i + 1] != '_' {
        assert i == |a|;
      }
    }
    PrintableIsNotSpace(s[0]);
    PrintableIsNotSpace(s[|s| - 1]);
    StripClean(s);
    RemoveSplit(a, b);
  }

  lemma RemoveSplit(a: string, b: string)
    requires AllDigits(a) && AllDigits(b)
    ensures Remove(a + "_" + b, '_') == a + b
  {
    RemoveAppend(a, "_" + b, '_');
    RemoveAbsent(a, '_');
    assert ("_" + b)[1..] == b;
    RemoveAbsent(b, '_');
    assert a + "_" + b == a + ("_" + b);
  }

  lemma {:induction false} RemoveAppend(a: string, b: string, c: char)
    ensures Remove(a + b, c) == Remove(a, c) + Remove(b, c)
  {
    if a != [] {
      assert (a + b)[1..] == a[1..] + b;
      RemoveAppend(a[1..], b, c);
    } else {
      assert a + b == b;
    }
  }

  /** A text holding no digit is never an integer. */
  lemma NoDigitNoInt(s: string)
    requires forall i :: 0 <= i < |s| ==> !IsDigit(s[i])
    ensures ParseInt(s) == Threw(BadLiteral(s))
  {
    var k := StripShape(s);
    var t := Strip(s);
    if t != [] {
      assert t[0] == s[k];
      assert t[|t| - 1] == s[k + |t| - 1];
      if |t| > 1 { assert t[1..][|t| - 2] == s[k + |t| - 1]; }
    }
  }

  /** `str(e)` of the AttributeError of calling `.split` on something that is not a string. */
  function NoSplit(v: Json): string {
    "'" + TypeName(v) + "' object has no attribute 'split'"
  }

  /**
   * `parse_local_time(time_str, zone)`: the instant at `time_str` ("H:M")
   * on the server's calendar day `serverDay`.
   */
  function ParseLocalTime(t: Json, serverDay: int): (r: Result<int>)
    ensures r.Done? ==> t.JStr? && serverDay * 86400 <= r.value < serverDay * 86400 + 86400
    ensures t.JStr? && ':' !in t.s ==> r == if ParseInt(t.s).Threw? then ParseInt(t.s) else Threw(IndexOutOfRange)
    ensures t.JStr? && ':' in t.s && ParseInt(HourText(t.s)).Done? && ParseInt(HourText(t.s)).value < 0 ==> r.Threw?
    ensures !t.JStr? ==> r == Threw(NoSplit(t))
  {
    match t
    case JStr(s) => ParseClock(s, serverDay)
    case _ => Threw(NoSplit(t))
  }

  /**
   * The text of a clock time read on the server's day, in the order Python
   * evaluates `datetime(..., int(time_parts[0]), int(time_parts[1]))`: the
   * part before the first ':' as the hour, then the part up to the next
   * ':' as the minute, then the ranges `datetime` checks. Further parts are
   * ignored.
   */
  function ParseClock(s: string, serverDay: int): (r: Result<int>)
    ensures r.Done? ==> serverDay * 86400 <= r.value < serverDay * 86400 + 86400
    ensures ParseInt(HourText(s)).Threw? ==> r == ParseInt(HourText(s))
    ensures ':' !in s && ParseInt(s).Done? ==> r == Threw(IndexOutOfRange)
    ensures ':' !in s && ParseInt(s).Threw? ==> r == ParseInt(s)
    ensures r.Done? <==>
      && ':' in s && ParseInt(HourText(s)).Done? && ParseInt(MinuteText(s)).Done?
      && 0 <= ParseInt(HourText(s)).value <= 23 && 0 <= ParseInt(MinuteText(s)).value <= 59
    ensures r.Done? ==> r.value == serverDay * 86400 + ParseInt(HourText(s)).value * 3600 + ParseInt(MinuteText(s)).value * 60
  {
    assert ':' !in s ==> HourText(s) == s;
    var h := ParseInt(HourText(s));
    if h.Threw? then h
    else if ':' !in s then Threw(IndexOutOfRange)
    else
      var m := ParseInt(MinuteText(s));
      if m.Threw? then m
      else if !(0 <= h.value <= 23) then Threw("hour must be in 0..23")
      else if !(0 <= m.value <= 59) then Threw("minute must be in 0..59")
      else Done(serverDay * 86400 + h.value * 3600 + m.value * 60)
  }

  /** `time_str.split(':')[0]`: the text before the first ':', or all of it. */
  function HourText(s: string): (t: string)
    ensures ':' !in s ==> t == s
  {
    var i := IndexOf(s, ':');
    assert i == |s| ==> s[..i] == s;
    s[..i]
  }

  /** `time_str.split(':')[1]`: the text between the first ':' and the next one, or the end. */
  function MinuteText(s: string): string
    requires ':' in s
  {
    var rest := s[IndexOf(s, ':') + 1..];
    rest[..IndexOf(rest, ':')]
  }

  /** The clock text of an hour and a minute reads back as that time of the server's day. */
  lemma ParseClockText(h: nat, m: nat, serverDay: int)
    requires h < 24 && m < 60
    ensures ParseLocalTime(JStr(NatToString(h) + ":" + NatToString(m)), serverDay) == Done(serverDay * 86400 + h * 3600 + m * 60)
  {
    var a, b := NatToString(h), NatToString(m);
    var s := a + ":" + b;
    assert ':' in s && HourText(s) == a && MinuteText(s) == b by {
      SplitClockText(a, b);
      assert s[|a|] == ':';
    }
    ParseNatString(h);
    ParseNatString(m);
    ClockOf(s, h, m, serverDay);
    LocalTimeIsClock(s, serverDay);
  }

  /** A text whose two parts read as an hour and a minute in range is that time of the day. */
  lemma ClockOf(s: string, h: int, m: int, serverDay: int)
    requires ':' in s && ParseInt(HourText(s)) == Done(h) && ParseInt(MinuteText(s)) == Done(m)
    requires 0 <= h <= 23 && 0 <= m <= 59
    ensures ParseClock(s, serverDay) == Done(serverDay * 86400 + h * 3600 + m * 60)
  {
  }

  lemma LocalTimeIsClock(s: string, serverDay: int)
    ensures ParseLocalTime(JStr(s), serverDay) == ParseClock(s, serverDay)
  {
  }

  /** `int(str(n))` is `n`. */
  lemma ParseNatString(n: nat)
    ensures ParseInt(NatToString(n)) == Done(n)
  {
    DigitsNumeral(NatToString(n));
    ParseNatToString(n);
  }

  /** Where `parse_local_time` cuts the text of two numerals joined by a colon. */
  lemma SplitClockText(a: string, b: string)
    requires AllDigits(a) && AllDigits(b)
    ensures var s := a + ":" + b; var i := IndexOf(s, ':');
      && i == |a| && s[..i] == a && s[i + 1..][..IndexOf(s[i + 1..], ':')] == b
  {
    var s := a + ":" + b;
    assert s == a + (":" + b);
    IndexAfterDigits(a, ":" + b);
    IndexAfterDigits(b, "");
    assert b + "" == b;
    assert s[..|a|] == a;
    assert s[|a| + 1..] == b;
    assert b[..|b|] == b;
  }

  /** A colon after a run of digits is found where the digits end. */
  lemma {:induction false} IndexAfterDigits(a: string, rest: string)
    requires AllDigits(a)
    ensures IndexOf(a + rest, ':') == |a| + IndexOf(rest, ':')
  {
    if a != [] {
      assert (a + rest)[1..] == a[1..] + rest;
      assert AllDigits(a[1..]);
      IndexAfterDigits(a[1..], rest);
    } else {
      assert a + rest == rest;
    }
  }

  // ---------------------------------------------------------------------------
  // should_light_be_on and determine_light_state
  // ---------------------------------------------------------------------------

  /**
   * `should_light_be_on(start, stop, t)`: inside [start, stop) with both
   * times, from start on with only a start, before stop with only a stop,
   * and never with neither.
   */
  function ShouldLightBeOn(start: Json, stop: Json, now: int, serverDay: int): (r: Result<bool>)
    ensures start == JNull && stop == JNull ==> r == Done(false)
    ensures start != JNull && stop != JNull && r.Done? ==>
      ParseLocalTime(start, serverDay).Done? && ParseLocalTime(stop, serverDay).Done?
      && (r.value <==> ParseLocalTime(start, serverDay).value <= now < ParseLocalTime(stop, serverDay).value)
    ensures start != JNull && stop == JNull && r.Done? ==>
      ParseLocalTime(start, serverDay).Done? && (r.value <==> ParseLocalTime(start, serverDay).value <= now)
    ensures start == JNull && stop != JNull && r.Done? ==>
      ParseLocalTime(stop, serverDay).Done? && (r.value <==> now < ParseLocalTime(stop, serverDay).value)
    ensures r.Threw? <==> (start != JNull && ParseLocalTime(start, serverDay).Threw?)
                          || (stop != JNull && ParseLocalTime(stop, serverDay).Threw?)
  {
    var s := if start != JNull then ParseLocalTime(start, serverDay) else Done(0);
    var e := if stop != JNull then ParseLocalTime(stop, serverDay) else Done(0);
    if s.Threw? then Threw(s.detail)
    else if e.Threw? then Threw(e.detail)
    else if start != JNull && stop != JNull then Done(s.value <= now < e.value)
    else if start != JNull then Done(s.value <= now)
    else if stop != JNull then Done(now < e.value)
    else Done(false)
  }

  /**
   * `determine_light_state(light, t, is_night, is_day)`: off once the stop
   * time has passed; otherwise on inside the scheduled window, and outside
   * it on exactly at night. `is_day` is never consulted.
   */
  function DetermineLightState(light: map<string, Json>, now: int, isNight: bool, isDay: bool, serverDay: int): (r: Result<bool>)
    ensures "stop_time" !in light ==> r == Threw(KeyErrorText("stop_time"))
    ensures StopPassed(light, now, serverDay) ==> r == Done(false)
    ensures r.Done? && !StopPassed(light, now, serverDay) ==> (r.value <==> InWindow(light, now, serverDay) || isNight)
  {
    if "stop_time" !in light then Threw(KeyErrorText("stop_time"))
    else
      var stop := light["stop_time"];
      var end := if stop != JNull then ParseLocalTime(stop, serverDay) else Done(0);
      if end.Threw? then Threw(end.detail)
      else if stop != JNull && now >= end.value then Done(false)
      else if "start_time" !in light then Threw(KeyErrorText("start_time"))
      else
        match ShouldLightBeOn(light["start_time"], stop, now, serverDay)
        case Threw(d) => Threw(d)
        case Done(on) => Done(on || isNight)
  }

  /** The light has a stop time, it reads, and `now` is at or past it. */
  predicate StopPassed(light: map<string, Json>, now: int, serverDay: int) {
    && "stop_time" in light && light["stop_time"] != JNull
    && ParseLocalTime(light["stop_time"], serverDay).Done?
    && now >= ParseLocalTime(light["stop_time"], serverDay).value
  }

  /** The light has both keys and its scheduled window holds `now`. */
  predicate InWindow(light: map<string, Json>, now: int, serverDay: int) {
    "start_time" in light && "stop_time" in light
    && ShouldLightBeOn(light["start_time"], light["stop_time"], now, serverDay) == Done(true)
  }

  /** Before a stop time that reads, the light is on: the window holds or there is no start time. */
  lemma OnBeforeStop(light: map<string, Json>, now: int, isNight: bool, isDay: bool, serverDay: int)
    requires "stop_time" in light && "start_time" in light && light["stop_time"] != JNull
    requires ParseLocalTime(light["stop_time"], serverDay).Done? && now < ParseLocalTime(light["stop_time"], serverDay).value
    requires light["start_time"] == JNull || (ParseLocalTime(light["start_time"], serverDay).Done?
                                              && ParseLocalTime(light["start_time"], serverDay).value <= now)
    ensures DetermineLightState(light, now, isNight, isDay, serverDay) == Done(true)
  {
  }

  /** `is_day` never changes the state. */
  lemma DayIsIgnored(light: map<string, Json>, now: int, isNight: bool, serverDay: int)
    ensures DetermineLightState(light, now, isNight, true, serverDay) == DetermineLightState(light, now, isNight, false, serverDay)
  {
  }

  // ---------------------------------------------------------------------------
  // get_light_settings
  // ---------------------------------------------------------------------------

  /** The error entry `get_light_settings` records for an exception. */
  function LightError(detail: string): string {
    "Error in Light function: " + detail
  }

  /**
   * Whether the reservation's window, check-in and check-out each moved by
   * its offset, contains `now`; the text of the ValueError where a
   * timestamp does not parse.
   */
  function Inside(r: Reservation, now: int, inOffset: int, outOffset: int): (o: Result<bool>)
    ensures o.Done? ==>
      && Clock.FormatDatetime(r.checkin, inOffset).Some? && Clock.FormatDatetime(r.checkout, outOffset).Some?
      && (o.value <==> Clock.FormatDatetime(r.checkin, inOffset).value <= now < Clock.FormatDatetime(r.checkout, outOffset).value)
    ensures o.Threw? <==> Clock.FormatDatetime(r.checkin, inOffset).None? || Clock.FormatDatetime(r.checkout, outOffset).None?
  {
    match Clock.FormatDatetime(r.checkin, inOffset)
    case None => Threw(Clock.BadTimestamp(r.checkin))
    case Some(a) =>
      match Clock.FormatDatetime(r.checkout, outOffset)
      case None => Threw(Clock.BadTimestamp(r.checkout))
      case Some(b) => Done(a <= now < b)
  }

  /** How a scan of the reservations in order ends. */
  datatype Scan = Hit(k: nat) | Miss | Unreadable(detail: string)

  /** What `Inside` says of each reservation, in order. */
  function Windows(rs: seq<Reservation>, now: int, inOffset: int, outOffset: int): (vs: seq<Result<bool>>)
    ensures |vs| == |rs|
  {
    seq(|rs|, j requires 0 <= j < |rs| => Inside(rs[j], now, inOffset, outOffset))
  }

  /**
   * The verdicts scanned in order: the first window that contains the
   * instant, none, or the first timestamp that does not parse before either.
   */
  function FirstInside(vs: seq<Result<bool>>): (s: Scan)
    ensures s.Hit? ==> s.k < |vs| && vs[s.k] == Done(true) && forall j :: 0 <= j < s.k ==> vs[j] == Done(false)
    ensures s.Miss? <==> forall j :: 0 <= j < |vs| ==> vs[j] == Done(false)
    ensures s.Unreadable? ==> exists k :: 0 <= k < |vs| && vs[k] == Threw(s.detail) && forall j :: 0 <= j < k ==> vs[j] == Done(false)
  {
    if vs == [] then Miss
    else
      match vs[0]
      case Threw(d) => Unreadable(d)
      case Done(b) =>
        if b then Hit(0)
        else
          var rest := FirstInside(vs[1..]);
          assert forall j :: 1 <= j < |vs| ==> vs[j] == vs[1..][j - 1];
          match rest
          case Hit(k) => Hit(k + 1)
          case Miss => Miss
          case Unreadable(d) =>
            ghost var k :| 0 <= k < |vs| - 1 && vs[1..][k] == Threw(d) && forall j :: 0 <= j < k ==> vs[1..][j] == Done(false);
            assert vs[k + 1] == Threw(d);
            Unreadable(d)
  }

  /**
   * The checks `get_light_settings` makes before it looks at the
   * reservations, in its order: the location's coordinates, the sun
   * lookups and the light's `when`; gives the `when` value.
   */
  function Prelude(light: map<string, Json>, location: map<string, Json>, sun: Sun): (r: Result<Json>)
    ensures r.Done? <==> "latitude" in location && "longitude" in location && sun.Sun? && "when" in light
    ensures r.Done? ==> r.value == light["when"]
  {
    if "latitude" !in location then Threw(KeyErrorText("latitude"))
    else if "longitude" !in location then Threw(KeyErrorText("longitude"))
    else if sun.SunFailed? then Threw(sun.detail)
    else if "when" !in light then Threw(KeyErrorText("when"))
    else Done(light["when"])
  }

  /** The three results of `get_light_settings`. */
  datatype Setting = Setting(lightState: bool, changeState: bool, errors: seq<string>)

  /** The result an exception gives: no change, one error entry. */
  function Failed(detail: string): Setting {
    Setting(false, false, [LightError(detail)])
  }

  /** The result of deciding the state: switch to it, or the exception's result. */
  function Decided(state: Result<bool>): Setting {
    match state
    case Done(b) => Setting(b, true, [])
    case Threw(d) => Failed(d)
  }

  /**
   * `get_light_settings(light, location, reservations, t)`. Reservations
   * are scanned in order; the first whose window contains `t` decides the
   * state, and a timestamp that does not parse before it ends the scan
   * with an error.
   */
  method GetLightSettings(light: map<string, Json>, location: map<string, Json>, reservations: Option<seq<Reservation>>,
                          now: int, sun: Sun, serverDay: int, inOffset: int, outOffset: int)
      returns (s: Setting)
    ensures |s.errors| <= 1
    ensures s.errors != [] ==> !s.lightState && !s.changeState
    ensures Prelude(light, location, sun).Threw? ==> s == Failed(Prelude(light, location, sun).detail)
    ensures Prelude(light, location, sun).Done? && light["when"] != JStr(ReservationsOnly) && light["when"] != JStr(NonReservations) ==>
      s == Setting(false, false, [])
    ensures Prelude(light, location, sun).Done? && light["when"] == JStr(NonReservations) ==>
      s == Decided(DetermineLightState(light, now, sun.isNight, sun.isDay, serverDay))
    ensures Prelude(light, location, sun).Done? && light["when"] == JStr(ReservationsOnly) ==>
      if reservations.None? || reservations.value == [] then s == Setting(false, false, [])
      else match FirstInside(Windows(reservations.value, now, inOffset, outOffset))
        case Miss => s == Setting(false, false, [])
        case Unreadable(d) => s == Failed(d)
        case Hit(_) => s == Decided(DetermineLightState(light, now, sun.isNight, sun.isDay, serverDay))
  {
    var pre := Prelude(light, location, sun);
    if pre.Threw? {
      return Failed(pre.detail);
    }
    var when := pre.value;
    if when == JStr(ReservationsOnly) {
      s := Setting(false, false, []);
      if reservations.Some? && reservations.value != [] {
        var scan := ScanWindows(Windows(reservations.value, now, inOffset, outOffset));
        match scan
        case Miss =>
        case Unreadable(d) => s := Failed(d);
        case Hit(_) => s := Decided(DetermineLightState(light, now, sun.isNight, sun.isDay, serverDay));
      }
    } else if when == JStr(NonReservations) {
      s := Decided(DetermineLightState(light, now, sun.isNight, sun.isDay, serverDay));
    } else {
      s := Setting(false, false, []);
    }
  }

  /** Lines 113-121: the loop over the stays, stopping at the first that contains the instant. */
  method ScanWindows(vs: seq<Result<bool>>) returns (s: Scan)
    ensures s == FirstInside(vs)
  {
    var i := 0;
    while i < |vs|
      invariant 0 <= i <= |vs|
      invariant forall j :: 0 <= j < i ==> vs[j] == Done(false)
    {
      if vs[i].Threw? {
        FirstInsideAt(vs, i);
        return Unreadable(vs[i].detail);
      }
      if vs[i].value {
        FirstInsideAt(vs, i);
        return Hit(i);
      }
      i := i + 1;
    }
    s := Miss;
  }

  /** A scan whose first `i` verdicts miss ends as the `i`-th says when that one is decisive. */
  lemma FirstInsideAt(vs: seq<Result<bool>>, i: nat)
    requires i < |vs|
    requires forall j :: 0 <= j < i ==> vs[j] == Done(false)
    ensures vs[i].Threw? ==> FirstInside(vs) == Unreadable(vs[i].detail)
    ensures vs[i] == Done(true) ==> FirstInside(vs) == Hit(i)
  {
    var s := FirstInside(vs);
    if s.Hit? {
      assert s.k >= i;
    }
    if s.Unreadable? {
      var k :| 0 <= k < |vs| && vs[k] == Threw(s.detail) && forall j :: 0 <= j < k ==> vs[j] == Done(false);
      assert k >= i;
    }
  }

  /**
   * For a light that runs only during stays, and with every timestamp
   * readable, the run switches the light exactly when the window of some
   * stay contains the current instant (the verdicts are `Windows` of the
   * stays).
   */
  lemma ChangesOnlyDuringStays(vs: seq<Result<bool>>, d: Result<bool>)
    requires d.Done?
    requires forall j :: 0 <= j < |vs| ==> vs[j].Done?
    ensures (match FirstInside(vs)
             case Miss => Setting(false, false, [])
             case Unreadable(e) => Failed(e)
             case Hit(_) => Decided(d)).changeState
            <==> exists j :: 0 <= j < |vs| && vs[j] == Done(true)
  {
    var s := FirstInside(vs);
    if exists j :: 0 <= j < |vs| && vs[j] == Done(true) {
      var j :| 0 <= j < |vs| && vs[j] == Done(true);
      assert !s.Miss?;
    }
  }

  /** The verdict of each stay is `Inside` of it. */
  lemma WindowsAt(rs: seq<Reservation>, now: int, inOffset: int, outOffset: int, j: nat)
    requires j < |rs|
    ensures Windows(rs, now, inOffset, outOffset)[j] == Inside(rs[j], now, inOffset, outOffset)
  {
  }
}
