/**
 * The lock battery monitors of src/battery_monitor.py and
 * src/lock_battery_monitor.py: classify each configured lock's battery
 * level against its thresholds (`get_all_battery_levels`) and build the
 * property's Slack report (`send_battery_report`). The two files differ
 * only in how `_get_battery_level` reaches the brand's reader.
 *
 * What a brand's reader (`brands/<brand>/battery.py`) answers is a function
 * of the lock's configuration, None standing for a reader that failed or
 * raised.
 */
module Battery {
  import opened Common
  import opened Json

  const DefaultThreshold := 30
  const DefaultWarningOffset := 15

  /**
   * A `lock_data` record. The thresholds are the configuration's values
   * as Python holds them: numbers as a rule, but two strings or two lists
   * add up as well (see `Plus`).
   */
  datatype Record = Record(name: string, brand: string, level: Option<int>, threshold: Json, warning: Json,
                           isLow: bool, isWarning: bool, propertyName: string)

  /** Which of the two files runs: the second one also receives the property's brand settings. */
  datatype Monitor = BatteryMonitor | LockBatteryMonitor(allBrandSettings: Option<seq<map<string, Json>>>)

  // ---------------------------------------------------------------------------
  // Thresholds and classification
  // ---------------------------------------------------------------------------

  /** The integer value of a JSON number, booleans counting as 0 and 1 as in Python. */
  function Numeric(v: Json): Option<int> {
    match v
    case JInt(i) => Some(i)
    case JBool(b) => Some(if b then 1 else 0)
    case _ => None
  }

  /**
   * Python's `a + b` on configuration values: numbers add, two strings or
   * two lists concatenate, and anything else raises TypeError, whose text
   * depends on the left operand.
   */
  function Plus(a: Json, b: Json): (r: Result<Json>)
    ensures Numeric(a).Some? && Numeric(b).Some? ==> r == Done(JInt(Numeric(a).value + Numeric(b).value))
    ensures a.JStr? && b.JStr? ==> r == Done(JStr(a.s + b.s))
    ensures a.JList? && b.JList? ==> r == Done(JList(a.items + b.items))
    ensures r.Done? <==> (Numeric(a).Some? && Numeric(b).Some?) || (a.JStr? && b.JStr?) || (a.JList? && b.JList?)
    ensures a.JStr? && !b.JStr? ==> r == Threw("can only concatenate str (not \"" + TypeName(b) + "\") to str")
    ensures a.JList? && !b.JList? ==> r == Threw("can only concatenate list (not \"" + TypeName(b) + "\") to list")
  {
    if Numeric(a).Some? && Numeric(b).Some? then Done(JInt(Numeric(a).value + Numeric(b).value))
    else if a.JStr? then
      if b.JStr? then Done(JStr(a.s + b.s)) else Threw("can only concatenate str (not \"" + TypeName(b) + "\") to str")
    else if a.JList? then
      if b.JList? then Done(JList(a.items + b.items)) else Threw("can only concatenate list (not \"" + TypeName(b) + "\") to list")
    else Threw("unsupported operand type(s) for +: '" + TypeName(a) + "' and '" + TypeName(b) + "'")
  }

  /**
   * The threshold and the warning threshold of a lock (lines 50-54): the
   * configured values or the defaults, and their sum; or the TypeError of
   * the addition.
   */
  function Thresholds(c: DeviceConfig): (r: Result<(Json, Json)>)
    ensures "battery_threshold" !in c.fields && "battery_warning_offset" !in c.fields ==>
      r == Done((JInt(DefaultThreshold), JInt(DefaultThreshold + DefaultWarningOffset)))
    ensures var t := Get(c.fields, "battery_threshold", JInt(DefaultThreshold));
      var o := Get(c.fields, "battery_warning_offset", JInt(DefaultWarningOffset));
      && (Numeric(t).Some? && Numeric(o).Some? ==> r == Done((t, JInt(Numeric(t).value + Numeric(o).value))))
      && (r.Done? ==> r.value.0 == t)
      && (r.Threw? <==> Plus(t, o).Threw?)
  {
    var t := Get(c.fields, "battery_threshold", JInt(DefaultThreshold));
    var o := Get(c.fields, "battery_warning_offset", JInt(DefaultWarningOffset));
    match Plus(t, o)
    case Threw(e) => Threw(e)
    case Done(w) => Done((t, w))
  }

  /** `str(e)` of the TypeError of `level <= threshold` for a threshold that is not a number. */
  function CompareError(threshold: Json): string {
    "'<=' not supported between instances of 'int' and '" + TypeName(threshold) + "'"
  }

  /** `is_low_battery` (line 65), for a threshold that is a number. */
  predicate IsLow(level: Option<int>, threshold: Json) {
    level.Some? && Numeric(threshold).Some? && level.value <= Numeric(threshold).value
  }

  /** `is_warning` (line 66), for thresholds that are numbers. */
  predicate IsWarning(level: Option<int>, threshold: Json, warning: Json) {
    level.Some? && Numeric(threshold).Some? && Numeric(warning).Some?
    && Numeric(threshold).value < level.value <= Numeric(warning).value
  }

  /** No level is both low and in warning, and a missing level is neither. */
  lemma FlagsExclusive(level: Option<int>, threshold: Json, warning: Json)
    ensures !(IsLow(level, threshold) && IsWarning(level, threshold, warning))
    ensures level.None? ==> !IsLow(level, threshold) && !IsWarning(level, threshold, warning)
  {
  }

  // ---------------------------------------------------------------------------
  // _get_battery_level and the brand settings
  // ---------------------------------------------------------------------------

  /**
   * The `brand_settings` search of src/lock_battery_monitor.py (lines
   * 58-64): only for a SmartThings lock and truthy settings, the first
   * entry whose `brand` is 'smartthings'; else None.
   */
  function BrandSettingsFor(all: Option<seq<map<string, Json>>>, brand: string): (r: Option<map<string, Json>>)
    ensures Lower(brand) != "smartthings" || all.None? ==> r.None?
    ensures r.Some? ==> r.value in all.value && Get(r.value, "brand", JNull) == JStr("smartthings")
    ensures r.Some? ==> FirstMatch(all.value, r.value)
    ensures Lower(brand) == "smartthings" && all.Some? ==>
      (r.None? <==> forall i :: 0 <= i < |all.value| ==> Get(all.value[i], "brand", JNull) != JStr("smartthings"))
  {
    if all.None? || all.value == [] || Lower(brand) != "smartthings" then None
    else FirstSmartThings(all.value)
  }

  /** `s` is the entry the loop of lines 61-64 stops at: no entry before it names 'smartthings'. */
  predicate FirstMatch(items: seq<map<string, Json>>, s: map<string, Json>) {
    exists i :: 0 <= i < |items| && items[i] == s && Get(items[i], "brand", JNull) == JStr("smartthings")
      && forall j :: 0 <= j < i ==> Get(items[j], "brand", JNull) != JStr("smartthings")
  }

  function FirstSmartThings(items: seq<map<string, Json>>): (r: Option<map<string, Json>>)
    ensures r.Some? ==> r.value in items && Get(r.value, "brand", JNull) == JStr("smartthings")
    ensures r.Some? ==> FirstMatch(items, r.value)
    ensures r.None? <==> forall i :: 0 <= i < |items| ==> Get(items[i], "brand", JNull) != JStr("smartthings")
  {
    if items == [] then None
    else if Get(items[0], "brand", JNull) == JStr("smartthings") then Some(items[0])
    else
      var r := FirstSmartThings(items[1..]);
      assert forall i :: 1 <= i < |items| ==> items[i] == items[1..][i - 1];
      assert r.Some? ==> FirstMatch(items, r.value) by {
        if r.Some? {
          var i :| 0 <= i < |items[1..]| && items[1..][i] == r.value && Get(items[1..][i], "brand", JNull) == JStr("smartthings")
            && forall j :: 0 <= j < i ==> Get(items[1..][j], "brand", JNull) != JStr("smartthings");
          assert items[i + 1] == r.value;
        }
      }
      r
  }

  /**
   * `_get_battery_level(lock_config, property_name, brand[, brand_settings])`.
   * A brand other than SmartThings or Wyze gives None. In
   * src/lock_battery_monitor.py the SmartThings reader is called with
   * three arguments although it takes two (line 201): the TypeError is
   * caught and the level is always None.
   */
  function Level(m: Monitor, c: DeviceConfig, brand: string, reader: DeviceConfig -> Option<int>): (r: Option<int>)
    ensures Lower(brand) != "smartthings" && Lower(brand) != "wyze" ==> r.None?
    ensures m.LockBatteryMonitor? && Lower(brand) == "smartthings" ==> r.None?
    ensures r.Some? ==> r == reader(c)
  {
    if Lower(brand) == "smartthings" then
      match m
      case BatteryMonitor => reader(c)
      case LockBatteryMonitor(_) => None
    else if Lower(brand) == "wyze" then reader(c)
    else None
  }

  // ---------------------------------------------------------------------------
  // get_all_battery_levels
  // ---------------------------------------------------------------------------

  /** `not lock_config or 'brand' not in lock_config or 'name' not in lock_config` is false. */
  predicate ValidConfig(c: DeviceConfig) {
    c.brand.Some? && c.name.Some?
  }

  function InvalidConfig(propertyName: string): string {
    "Invalid lock configuration for battery monitoring at " + propertyName + "."
  }

  function Unreadable(brand: string, name: string, propertyName: string): string {
    "Unable to retrieve battery level for " + brand + " lock " + name + " at " + propertyName + "."
  }

  function Unexpected(name: string, propertyName: string, detail: string): string {
    "Unexpected error checking battery for lock " + name + " at " + propertyName + ": " + detail
  }

  /** What one lock configuration adds to `battery_data` and to `errors`. */
  datatype Contribution = Contribution(records: seq<Record>, errors: seq<string>)

  /**
   * A configuration that yields a record: it is valid, its thresholds add
   * up, and the level is missing or the threshold is a number it can be
   * compared with.
   */
  predicate Yields(m: Monitor, c: DeviceConfig, reader: DeviceConfig -> Option<int>) {
    ValidConfig(c) && Thresholds(c).Done?
    && (Level(m, c, c.brand.value, reader).None? || Numeric(Thresholds(c).value.0).Some?)
  }

  /** Lines 40-89 for one lock configuration. */
  function Contribute(m: Monitor, c: DeviceConfig, propertyName: string, reader: DeviceConfig -> Option<int>): (r: Contribution)
    ensures !ValidConfig(c) ==> r == Contribution([], [InvalidConfig(propertyName)])
    ensures |r.records| <= 1 && 1 <= |r.records| + |r.errors| <= 2
    ensures |r.records| == 1 <==> Yields(m, c, reader)
    ensures ValidConfig(c) && Thresholds(c).Threw? ==> r == Contribution([], [Unexpected(c.name.value, propertyName, Thresholds(c).detail)])
    ensures ValidConfig(c) && Thresholds(c).Done? && !Yields(m, c, reader) ==>
      r == Contribution([], [Unexpected(c.name.value, propertyName, CompareError(Thresholds(c).value.0))])
    ensures r.records != [] ==> var rec := r.records[0];
      && rec.name == c.name.value && rec.brand == c.brand.value && rec.propertyName == propertyName
      && Thresholds(c) == Done((rec.threshold, rec.warning))
      && rec.level == Level(m, c, c.brand.value, reader)
      && (rec.isLow <==> IsLow(rec.level, rec.threshold))
      && (rec.isWarning <==> IsWarning(rec.level, rec.threshold, rec.warning))
      && (r.errors != [] <==> rec.level.None?)
  {
    if !ValidConfig(c) then Contribution([], [InvalidConfig(propertyName)])
    else
      var brand := c.brand.value;
      var name := c.name.value;
      match Thresholds(c)
      case Threw(e) => Contribution([], [Unexpected(name, propertyName, e)])
      case Done((threshold, warning)) =>
        var level := Level(m, c, brand, reader);
        if level.Some? && Numeric(threshold).None? then Contribution([], [Unexpected(name, propertyName, CompareError(threshold))])
        else
          var rec := Record(name, brand, level, threshold, warning, IsLow(level, threshold),
                            IsWarning(level, threshold, warning), propertyName);
          Contribution([rec], if level.None? then [Unreadable(brand, name, propertyName)] else [])
  }

  /** The records and errors of the configurations `cs`, in order. */
  function Collected(m: Monitor, cs: seq<DeviceConfig>, propertyName: string, reader: DeviceConfig -> Option<int>): Contribution
    decreases |cs|
  {
    if cs == [] then Contribution([], [])
    else
      var before := Collected(m, cs[..|cs| - 1], propertyName, reader);
      var last := Contribute(m, cs[|cs| - 1], propertyName, reader);
      Contribution(before.records + last.records, before.errors + last.errors)
  }

  /**
   * `get_all_battery_levels(lock_configs, property_name[,
   * all_brand_settings])`: every configuration is visited in order and an
   * exception in one of them does not stop the loop. The brand settings the
   * lock-battery monitor looks up (`BrandSettingsFor`) go only to the
   * SmartThings reader, whose call fails (see `Level`), so they are not
   * looked up here.
   */
  method GetAllBatteryLevels(m: Monitor, lockConfigs: seq<DeviceConfig>, propertyName: string,
                             reader: DeviceConfig -> Option<int>)
      returns (batteryData: seq<Record>, errors: seq<string>)
    ensures batteryData == Collected(m, lockConfigs, propertyName, reader).records
    ensures errors == Collected(m, lockConfigs, propertyName, reader).errors
  {
    batteryData, errors := [], [];
    for i := 0 to |lockConfigs|
      invariant batteryData == Collected(m, lockConfigs[..i], propertyName, reader).records
      invariant errors == Collected(m, lockConfigs[..i], propertyName, reader).errors
    {
      var step := Contribute(m, lockConfigs[i], propertyName, reader);
      batteryData := batteryData + step.records;
      errors := errors + step.errors;
      assert lockConfigs[..i + 1][..i] == lockConfigs[..i];
    }
    assert lockConfigs[..|lockConfigs|] == lockConfigs;
  }

  /** The number of configurations that yield a record. */
  function Counted(m: Monitor, cs: seq<DeviceConfig>, reader: DeviceConfig -> Option<int>): nat
    decreases |cs|
  {
    if cs == [] then 0
    else Counted(m, cs[..|cs| - 1], reader) + (if Yields(m, cs[|cs| - 1], reader) then 1 else 0)
  }

  /** The number of invalid configurations. */
  function InvalidCount(cs: seq<DeviceConfig>): nat
    decreases |cs|
  {
    if cs == [] then 0 else InvalidCount(cs[..|cs| - 1]) + (if ValidConfig(cs[|cs| - 1]) then 0 else 1)
  }

  /**
   * Each configuration that `Yields` gives exactly one record; every configuration yields an entry in at least one of the two
   * lists, and each invalid configuration exactly one error.
   */
  lemma {:induction false} OneRecordPerLock(m: Monitor, cs: seq<DeviceConfig>, propertyName: string,
                                            reader: DeviceConfig -> Option<int>)
    ensures |Collected(m, cs, propertyName, reader).records| == Counted(m, cs, reader)
    ensures |Collected(m, cs, propertyName, reader).records| + |Collected(m, cs, propertyName, reader).errors| >= |cs|
    ensures |Collected(m, cs, propertyName, reader).errors| >= InvalidCount(cs)
    decreases |cs|
  {
    if cs != [] {
      OneRecordPerLock(m, cs[..|cs| - 1], propertyName, reader);
    }
  }

  /** Every record carries its property's name and flags that follow its level and thresholds. */
  lemma {:induction false} RecordsClassified(m: Monitor, cs: seq<DeviceConfig>, propertyName: string,
                                             reader: DeviceConfig -> Option<int>)
    ensures forall rec :: rec in Collected(m, cs, propertyName, reader).records ==>
      && rec.propertyName == propertyName
      && (rec.isLow <==> IsLow(rec.level, rec.threshold))
      && (rec.isWarning <==> IsWarning(rec.level, rec.threshold, rec.warning))
      && !(rec.isLow && rec.isWarning)
    decreases |cs|
  {
    if cs != [] {
      RecordsClassified(m, cs[..|cs| - 1], propertyName, reader);
      var last := Contribute(m, cs[|cs| - 1], propertyName, reader);
      if last.records != [] {
        FlagsExclusive(last.records[0].level, last.records[0].threshold, last.records[0].warning);
      }
    }
  }

  // ---------------------------------------------------------------------------
  // send_battery_report
  // ---------------------------------------------------------------------------

  /** `property_locks`: the records of the property, in order. */
  function Matching(rs: seq<Record>, propertyName: string): (r: seq<Record>)
    ensures forall x :: x in r <==> x in rs && x.propertyName == propertyName
    ensures |r| <= |rs|
  {
    if rs == [] then []
    else (if rs[0].propertyName == propertyName then [rs[0]] else []) + Matching(rs[1..], propertyName)
  }

  /** `low_battery_locks`. */
  function Lows(rs: seq<Record>): (r: seq<Record>)
    ensures forall x :: x in r <==> x in rs && x.isLow && x.level.Some?
    ensures |r| <= |rs|
  {
    if rs == [] then []
    else (if rs[0].isLow && rs[0].level.Some? then [rs[0]] else []) + Lows(rs[1..])
  }

  /** `warning_locks`. */
  function Warnings(rs: seq<Record>): (r: seq<Record>)
    ensures forall x :: x in r <==> x in rs && x.isWarning && x.level.Some?
    ensures |r| <= |rs|
  {
    if rs == [] then []
    else (if rs[0].isWarning && rs[0].level.Some? then [rs[0]] else []) + Warnings(rs[1..])
  }

  /** Python's `str.title()` for ASCII letters: a letter after a letter is lowered, any other letter raised. */
  function Title(s: string): (r: string)
    ensures |r| == |s|
  {
    TitleAfter(s, false)
  }

  function TitleAfter(s: string, afterLetter: bool): (r: string)
    ensures |r| == |s|
  {
    if s == [] then []
    else [if afterLetter then LowerChar(s[0]) else UpperChar(s[0])] + TitleAfter(s[1..], IsAlpha(s[0]))
  }

  function Percent(level: Option<int>): string {
    if level.None? then "None" else IntToString(level.value)
  }

  function AlertLine(x: Record): string {
    "⚠️ " + Title(x.brand) + " lock `" + x.name + "`: **" + Percent(x.level) + "%** (threshold: "
    + PyStr(x.threshold) + "%)"
  }

  function WarningLine(x: Record): string {
    "🟡 " + Title(x.brand) + " lock `" + x.name + "`: **" + Percent(x.level) + "%** (warning at: "
    + PyStr(x.warning) + "%)"
  }

  /** A line of the status list; the icon of a low level is U+FFFD as written (line 143). */
  function StatusLine(x: Record): string {
    if x.level.None? then "❌ " + Title(x.brand) + " `" + x.name + "`: Unable to retrieve battery level"
    else
      var (icon, text) := if x.isLow then ("\U{FFFD}", "LOW") else if x.isWarning then ("🟡", "WARNING") else ("🟢", "OK");
      icon + " " + Title(x.brand) + " `" + x.name + "`: " + Percent(x.level) + "% (" + text + ")"
  }

  function Summary(total: nat, low: nat, warnings: nat): string {
    "Summary: " + NatToString(total) + " locks total, " + NatToString(low) + " with low battery, "
    + NatToString(warnings) + " with warnings"
  }

  /** One line per record, in order. */
  function Each(rs: seq<Record>, line: Record -> string): (r: seq<string>)
    ensures |r| == |rs|
    ensures forall i :: 0 <= i < |rs| ==> r[i] == line(rs[i])
    decreases |rs|
  {
    if rs == [] then [] else Each(rs[..|rs| - 1], line) + [line(rs[|rs| - 1])]
  }

  function AlertHeader(propertyName: string): string {
    "🚨 **LOW BATTERY ALERTS for " + propertyName + "** 🚨"
  }

  function WarningHeader(propertyName: string): string {
    "⚠️ **BATTERY WARNINGS for " + propertyName + "** ⚠️"
  }

  /** A section of lines 120-133: a header, one line per record and an empty line; nothing without records. */
  function Section(header: string, rs: seq<Record>, line: Record -> string): seq<string> {
    if rs == [] then [] else [header] + Each(rs, line) + [""]
  }

  /** The alert section (lines 120-125). */
  function AlertSection(low: seq<Record>, propertyName: string): seq<string> {
    Section(AlertHeader(propertyName), low, AlertLine)
  }

  /** The warning section (lines 128-133). */
  function WarningSection(warnings: seq<Record>, propertyName: string): seq<string> {
    Section(WarningHeader(propertyName), warnings, WarningLine)
  }

  /** The heading of the status list (lines 136-138), with the time the report was generated. */
  function StatusHeading(propertyName: string, timestamp: string): seq<string> {
    ["🔋 **Battery Status Report for " + propertyName + "**", "Report generated: " + timestamp, ""]
  }

  /** The lines before the status list: both sections and the heading. */
  function Preamble(locks: seq<Record>, propertyName: string, timestamp: string): seq<string> {
    AlertSection(Lows(locks), propertyName) + WarningSection(Warnings(locks), propertyName)
    + StatusHeading(propertyName, timestamp)
  }

  /** `message_parts` for the records of one property. */
  function ReportLines(locks: seq<Record>, propertyName: string, timestamp: string): seq<string> {
    Preamble(locks, propertyName, timestamp) + Each(locks, StatusLine)
    + ["", Summary(|locks|, |Lows(locks)|, |Warnings(locks)|)]
  }

  /** Appends one line per record to `parts`. */
  method AppendEach(parts0: seq<string>, rs: seq<Record>, line: Record -> string) returns (parts: seq<string>)
    ensures parts == parts0 + Each(rs, line)
  {
    parts := parts0;
    for i := 0 to |rs|
      invariant parts == parts0 + Each(rs[..i], line)
    {
      assert rs[..i + 1][..i] == rs[..i];
      parts := parts + [line(rs[i])];
    }
    assert rs[..|rs|] == rs;
  }

  /** Appends a section to `parts`. */
  method AppendSection(parts0: seq<string>, header: string, rs: seq<Record>, line: Record -> string)
      returns (parts: seq<string>)
    ensures parts == parts0 + Section(header, rs, line)
  {
    parts := parts0;
    if rs != [] {
      parts := parts + [header];
      parts := AppendEach(parts, rs, line);
      parts := parts + [""];
    } else {
      assert parts0 + [] == parts0;
    }
  }

  /** `message_parts` for the records of one property, built by appending as lines 117-162 do. */
  method BuildMessageParts(propertyLocks: seq<Record>, propertyName: string, timestamp: string)
      returns (messageParts: seq<string>)
    ensures messageParts == ReportLines(propertyLocks, propertyName, timestamp)
  {
    var lowBatteryLocks := Lows(propertyLocks);
    var warningLocks := Warnings(propertyLocks);
    messageParts := AppendSection([], AlertHeader(propertyName), lowBatteryLocks, AlertLine);
    assert messageParts == AlertSection(lowBatteryLocks, propertyName) by {
      assert [] + AlertSection(lowBatteryLocks, propertyName) == AlertSection(lowBatteryLocks, propertyName);
    }
    messageParts := AppendSection(messageParts, WarningHeader(propertyName), warningLocks, WarningLine);
    messageParts := messageParts + StatusHeading(propertyName, timestamp);
    assert messageParts == Preamble(propertyLocks, propertyName, timestamp);
    messageParts := AppendEach(messageParts, propertyLocks, StatusLine);
    messageParts := messageParts + ["", Summary(|propertyLocks|, |lowBatteryLocks|, |warningLocks|)];
  }

  /**
   * `send_battery_report(all_battery_data, property_name)`, with the
   * time the report is generated as `timestamp`: nothing is sent when the
   * property has no record; otherwise one message, the lines joined by
   * newlines. The model raises nothing, so the result is always True.
   */
  method SendBatteryReport(allBatteryData: seq<Record>, propertyName: string, timestamp: string)
      returns (ok: bool, message: Option<string>)
    ensures ok
    ensures message.None? <==> Matching(allBatteryData, propertyName) == []
    ensures message.Some? ==> message.value == Join(ReportLines(Matching(allBatteryData, propertyName), propertyName, timestamp), "\n")
  {
    var propertyLocks := Matching(allBatteryData, propertyName);
    if propertyLocks == [] {
      return true, None;
    }
    var messageParts := BuildMessageParts(propertyLocks, propertyName, timestamp);
    message := Some(Join(messageParts, "\n"));
    ok := true;
  }

  /**
   * The report's shape: the status list has one line per record of the
   * property, and the last line counts the records, the low ones and the
   * warnings.
   */
  lemma ReportShape(locks: seq<Record>, propertyName: string, timestamp: string)
    ensures var lines := ReportLines(locks, propertyName, timestamp);
      var k := |Preamble(locks, propertyName, timestamp)|;
      && |lines| == k + |locks| + 2
      && (forall i :: 0 <= i < |locks| ==> lines[k + i] == StatusLine(locks[i]))
      && lines[|lines| - 1] == Summary(|locks|, |Lows(locks)|, |Warnings(locks)|)
  {
    Placed(Preamble(locks, propertyName, timestamp), Each(locks, StatusLine),
           ["", Summary(|locks|, |Lows(locks)|, |Warnings(locks)|)]);
  }

  /** Where the middle part of a three-part concatenation sits. */
  lemma Placed(pre: seq<string>, mid: seq<string>, tail: seq<string>)
    ensures |pre + mid + tail| == |pre| + |mid| + |tail|
    ensures forall i :: 0 <= i < |mid| ==> (pre + mid + tail)[|pre| + i] == mid[i]
    ensures tail != [] ==> (pre + mid + tail)[|pre + mid + tail| - 1] == tail[|tail| - 1]
  {
  }

  /** The status list starts after the alert section, the warning section and the three heading lines. */
  lemma PreambleLength(locks: seq<Record>, propertyName: string, timestamp: string)
    ensures |Preamble(locks, propertyName, timestamp)|
      == |AlertSection(Lows(locks), propertyName)| + |WarningSection(Warnings(locks), propertyName)| + 3
  {
  }

  /** The alert and warning sections never list the same record: its flags exclude each other. */
  lemma AlertsAndWarningsDisjoint(m: Monitor, cs: seq<DeviceConfig>, propertyName: string,
                                  reader: DeviceConfig -> Option<int>)
    ensures var locks := Matching(Collected(m, cs, propertyName, reader).records, propertyName);
      forall x :: x in Lows(locks) ==> x !in Warnings(locks)
  {
    RecordsClassified(m, cs, propertyName, reader);
  }
}
