/**
 * src/brands/smartthings/thermostats.py: compare a thermostat's status
 * with the wanted mode and setpoints (`thermostat_needs_updating`) and,
 * in `sync`, look the device up, send the change when one is needed and
 * account for the outcome in `updates`, `errors` and the Slack messages.
 */
module SmartThingsThermostats {
  import opened Common
  import opened Json
  import opened SmartThings
  import opened SmartThingsDevices

  const ModePath: seq<string> := ["components", "main", "thermostatMode", "thermostatMode", "value"]
  const FanPath: seq<string> := ["components", "main", "thermostatFanMode", "thermostatFanMode", "value"]
  const TempPath: seq<string> := ["components", "main", "temperatureMeasurement", "temperature", "value"]
  const HeatPath: seq<string> := ["components", "main", "thermostatHeatingSetpoint", "heatingSetpoint", "value"]
  const CoolPath: seq<string> := ["components", "main", "thermostatCoolingSetpoint", "coolingSetpoint", "value"]

  /** The fan mode `sync` always asks for: `fan_mode` keeps its default. */
  const WantedFan := "auto"

  /** `current_settings`: the five values read from the status document. */
  datatype Current = Current(mode: Json, coolTemp: Json, heatTemp: Json, fanMode: Json, currentTemp: Json)

  /** All five attributes are present (a missing one is a KeyError; a non-dict on the way is a TypeError). */
  predicate Readable(status: Json) {
    && Dig(status, ModePath).Found? && Dig(status, FanPath).Found? && Dig(status, TempPath).Found?
    && Dig(status, HeatPath).Found? && Dig(status, CoolPath).Found?
  }

  function ReadCurrent(status: Json): Current
    requires Readable(status)
  {
    Current(Dig(status, ModePath).value, Dig(status, CoolPath).value, Dig(status, HeatPath).value,
            Dig(status, FanPath).value, Dig(status, TempPath).value)
  }

  /** The condition of lines 168-171: mode, fan, heat and cool all equal their targets. */
  predicate Matches(c: Current, mode: string, cool: Option<int>, heat: Option<int>) {
    c.mode == JStr(mode) && c.fanMode == JStr(WantedFan) && EqualsTarget(c.heatTemp, heat) && EqualsTarget(c.coolTemp, cool)
  }

  /**
   * `thermostat_needs_updating(thermostat_id, mode, cool_temp, heat_temp)`:
   * None when the status is unreadable or falsy or an attribute is missing
   * (every exception is caught), else whether an update is needed, with
   * the current settings.
   */
  function NeedsUpdating(home: Home, thermostatId: string, mode: string, cool: Option<int>, heat: Option<int>)
      : (r: Option<(bool, Current)>)
    ensures r.Some? <==> var st := StatusWithRefresh(home, thermostatId); st.Some? && Truthy(st.value) && Readable(st.value)
    ensures r.Some? ==> r.value.1 == ReadCurrent(StatusWithRefresh(home, thermostatId).value)
    ensures r.Some? ==> (r.value.0 <==> !Matches(r.value.1, mode, cool, heat))
  {
    var status := StatusWithRefresh(home, thermostatId);
    if status.None? || !Truthy(status.value) || !Readable(status.value) then None
    else
      var c := ReadCurrent(status.value);
      Some((!Matches(c, mode, cool, heat), c))
  }

  /** The capabilities of the `main` component that hold the five values of `c`. */
  function MainComponent(c: Current): map<string, Json> {
    map[
      "thermostatMode" := Nest(ModePath[3..], c.mode),
      "thermostatFanMode" := Nest(FanPath[3..], c.fanMode),
      "temperatureMeasurement" := Nest(TempPath[3..], c.currentTemp),
      "thermostatHeatingSetpoint" := Nest(HeatPath[3..], c.heatTemp),
      "thermostatCoolingSetpoint" := Nest(CoolPath[3..], c.coolTemp)]
  }

  /** The status document that holds exactly the five values of `c`. */
  function StatusDocument(c: Current): Json {
    Nest(["components", "main"], JObj(MainComponent(c)))
  }

  /** Following a path through the document: the two fixed keys, then the capability's own. */
  lemma DigDocument(c: Current, path: seq<string>, x: Json)
    requires |path| == 5 && path[..2] == ["components", "main"]
    requires path[2] in MainComponent(c) && MainComponent(c)[path[2]] == Nest(path[3..], x)
    ensures Dig(StatusDocument(c), path) == Found(x)
  {
    var m := JObj(MainComponent(c));
    assert path == path[..2] + path[2..];
    DigNest(["components", "main"], m);
    DigAppend(StatusDocument(c), ["components", "main"], path[2..]);
    DigNest(path[3..], x);
    assert path[2..][1..] == path[3..];
  }

  lemma DigMode(c: Current) ensures Dig(StatusDocument(c), ModePath) == Found(c.mode) { DigDocument(c, ModePath, c.mode); }
  lemma DigFan(c: Current) ensures Dig(StatusDocument(c), FanPath) == Found(c.fanMode) { DigDocument(c, FanPath, c.fanMode); }
  lemma DigTemp(c: Current) ensures Dig(StatusDocument(c), TempPath) == Found(c.currentTemp) { DigDocument(c, TempPath, c.currentTemp); }
  lemma DigHeat(c: Current) ensures Dig(StatusDocument(c), HeatPath) == Found(c.heatTemp) { DigDocument(c, HeatPath, c.heatTemp); }
  lemma DigCool(c: Current) ensures Dig(StatusDocument(c), CoolPath) == Found(c.coolTemp) { DigDocument(c, CoolPath, c.coolTemp); }

  /** A status document written from settings reads them back. */
  lemma ReadsBack(c: Current)
    ensures Readable(StatusDocument(c)) && ReadCurrent(StatusDocument(c)) == c
  {
    DigMode(c);
    DigFan(c);
    DigTemp(c);
    DigHeat(c);
    DigCool(c);
  }

  /** `str(x)` of an optional integer target. */
  function TargetText(t: Option<int>): string {
    if t.None? then "None" else IntToString(t.value)
  }

  /** `status_changes` (lines 80-87): one line per field that differs from its target, fan against "auto". */
  function StatusChanges(c: Current, mode: string, cool: Option<int>, heat: Option<int>): (r: seq<string>)
    ensures |r| <= 4
  {
    (if c.mode != JStr(mode) then ["Mode: " + PyStr(c.mode) + " → " + mode] else [])
    + (if !EqualsTarget(c.coolTemp, cool) then ["Cool: " + PyStr(c.coolTemp) + "°F → " + TargetText(cool) + "°F"] else [])
    + (if !EqualsTarget(c.heatTemp, heat) then ["Heat: " + PyStr(c.heatTemp) + "°F → " + TargetText(heat) + "°F"] else [])
    + (if c.fanMode != JStr(WantedFan) then ["Fan: " + PyStr(c.fanMode) + " → auto"] else [])
  }

  /** An update is needed exactly when some change line is listed. */
  lemma ChangesIffNeeded(c: Current, mode: string, cool: Option<int>, heat: Option<int>)
    ensures StatusChanges(c, mode, cool, heat) == [] <==> Matches(c, mode, cool, heat)
  {
  }

  /**
   * The original settings `set_thermostat` reads for its change lines:
   * None (every value "unknown") unless the status is readable and the
   * four values are strings and integers.
   */
  function Original(status: Option<Json>): (r: Option<ThermostatSettings>)
    ensures r.Some? ==> status.Some? && Truthy(status.value) && Readable(status.value)
  {
    if status.None? || !Truthy(status.value) || !Readable(status.value) then None
    else
      var c := ReadCurrent(status.value);
      if c.mode.JStr? && c.coolTemp.JInt? && c.heatTemp.JInt? && c.fanMode.JStr? then
        Some(ThermostatSettings(c.mode.s, c.coolTemp.i, c.heatTemp.i, c.fanMode.s))
      else None
  }

  // The entries and Slack messages of `sync`, with the emoji as written.
  function MissingData(propertyName: string): string {
    "🔍 Missing Data: Thermostat configuration is missing or invalid for `" + propertyName + "`."
  }
  function LocationNotFound(location: string, propertyName: string): string {
    "❓ Location Not Found: Unable to fetch location ID for `" + location + "` when configuring thermostat at `" + propertyName + "`."
  }
  function DeviceNotFound(name: string, propertyName: string): string {
    "❓ Device Not Found: Unable to fetch Thermostat `" + name + "` at `" + propertyName
    + "`. Please verify the device is online and correctly named."
  }
  function StatusError(name: string, propertyName: string): string {
    "🌡️ Thermostat Status Error: Unable to retrieve current status for `" + name + "` at `" + propertyName
    + "`. The device may be offline or experiencing connectivity issues."
  }
  function Updated(propertyName: string, name: string): string {
    "Thermostat " + propertyName + " - " + name
  }
  function UpdateFailed(name: string, propertyName: string): string {
    "Updating Thermostat for " + name + " at " + propertyName
  }
  function UpdatedMessage(name: string, propertyName: string, c: Current, changes: seq<string>): string {
    "🌡️ Updated Thermostat `" + name + "` at `" + propertyName + "`"
    + "\nCurrent Temperature: " + PyStr(c.currentTemp) + "°F"
    + (if changes != [] then "\nChanges Made:\n• " + Join(changes, "\n• ") else "")
  }
  function FailedMessage(name: string, propertyName: string): string {
    "⚠️ Failed to update Thermostat `" + name + "` at `" + propertyName + "`"
  }

  /** What `sync` produces: the two lists, the Slack messages it sends and the commands it sends. */
  datatype Report = Report(updates: seq<string>, errors: seq<string>, messages: seq<string>, sent: seq<Command>)

  /** One error that is also sent to Slack, and no command. */
  function Refusal(e: string): Report {
    Report([], [e], [e], [])
  }

  /** How far `sync` gets: the lookup that fails, or the device found and what its status says. */
  datatype Stage = NoConfig | NoLocation | NoThermostat(name: string) | NoStatus(name: string)
    | Compared(name: string, thermostatId: string, needed: bool, current: Current)

  function StageOf(home: Home, locations: Option<seq<Location>>, thermostat: DeviceConfig, location: string,
                   mode: string, cool: Option<int>, heat: Option<int>): (s: Stage)
    ensures s.NoConfig? <==> thermostat.name.None?
    ensures !s.NoConfig? ==> (s.NoLocation? <==> FindLocationByName(locations, location).None?)
    ensures s.NoThermostat? || s.NoStatus? || s.Compared? ==>
      thermostat.name == Some(s.name) && FindLocationByName(locations, location).Some?
    ensures s.NoThermostat? || s.NoStatus? || s.Compared? ==>
      (s.NoThermostat? <==> DeviceIdByLabel(home, FindLocationByName(locations, location).value, thermostat.name.value).None?)
    ensures s.Compared? ==>
      && s.thermostatId != []
      && DeviceIdByLabel(home, FindLocationByName(locations, location).value, thermostat.name.value) == Some(s.thermostatId)
      && NeedsUpdating(home, s.thermostatId, mode, cool, heat) == Some((s.needed, s.current))
  {
    if thermostat.name.None? then NoConfig
    else
      var locationId := FindLocationByName(locations, location);
      if locationId.None? then NoLocation
      else
        var thermostatId := DeviceIdByLabel(home, locationId.value, thermostat.name.value);
        if thermostatId.None? then NoThermostat(thermostat.name.value)
        else
          var status := NeedsUpdating(home, thermostatId.value, mode, cool, heat);
          if status.None? then NoStatus(thermostat.name.value)
          else Compared(thermostat.name.value, thermostatId.value, status.value.0, status.value.1)
  }

  /** Every command that was sent was accepted. */
  predicate AllAccepted(answers: seq<bool>, sent: seq<Command>) {
    forall k :: 0 <= k < |sent| ==> Accepted(answers, k)
  }

  /**
   * Lines 65-104 for a thermostat whose status was read: nothing when it
   * already matches; otherwise the commands are sent, and the outcome gives
   * one update or one error, and one Slack message.
   */
  method Decide(home: Home, name: string, thermostatId: string, needed: bool, current: Current, mode: string,
                cool: Option<int>, heat: Option<int>, propertyName: string, answers: seq<bool>)
      returns (r: Report)
    requires thermostatId != []
    ensures !needed ==> r == Report([], [], [], [])
    ensures needed ==> r.sent == Commands(mode, cool, heat, WantedFan) && SetFan(WantedFan) in r.sent
    ensures needed && AllAccepted(answers, r.sent) ==>
      r == Report([Updated(propertyName, name)], [],
                  [UpdatedMessage(name, propertyName, current, StatusChanges(current, mode, cool, heat))], r.sent)
    ensures needed && !AllAccepted(answers, r.sent) ==>
      r == Report([], [UpdateFailed(name, propertyName)], [FailedMessage(name, propertyName)], r.sent)
  {
    if !needed {
      return Report([], [], [], []);
    }
    var statusChanges := StatusChanges(current, mode, cool, heat);
    var original := Original(StatusWithRefresh(home, thermostatId));
    var result, sent := SetThermostat(thermostatId, original, mode, cool, heat, WantedFan, answers);
    // The id is not empty, so `set_thermostat` answers with a pair.
    assert result.Sent?;
    if result.allSucceeded {
      r := Report([Updated(propertyName, name)], [], [UpdatedMessage(name, propertyName, current, statusChanges)], sent);
    } else {
      r := Report([], [UpdateFailed(name, propertyName)], [FailedMessage(name, propertyName)], sent);
    }
  }

  /**
   * The report `sync` gives at each stage: each failed lookup gives one
   * error, sent to Slack as well, and no command; a thermostat whose status
   * was read gets what `Decide` promises.
   */
  predicate Accounts(st: Stage, r: Report, mode: string, cool: Option<int>, heat: Option<int>, propertyName: string,
                     location: string, answers: seq<bool>)
  {
    match st
    case NoConfig => r == Refusal(MissingData(propertyName))
    case NoLocation => r == Refusal(LocationNotFound(location, propertyName))
    case NoThermostat(name) => r == Refusal(DeviceNotFound(name, propertyName))
    case NoStatus(name) => r == Refusal(StatusError(name, propertyName))
    case Compared(name, _, needed, current) =>
      if !needed then r == Report([], [], [], [])
      else
        && r.sent == Commands(mode, cool, heat, WantedFan)
        && (AllAccepted(answers, r.sent) ==>
              r == Report([Updated(propertyName, name)], [],
                          [UpdatedMessage(name, propertyName, current, StatusChanges(current, mode, cool, heat))], r.sent))
        && (!AllAccepted(answers, r.sent) ==>
              r == Report([], [UpdateFailed(name, propertyName)], [FailedMessage(name, propertyName)], r.sent))
  }

  /**
   * `sync(thermostat, mode, cool_temp, heat_temp, property_name,
   * location)`, with the locations `get_all_locations` answers and the
   * answers the thermostat gives to the commands.
   */
  method Sync(home: Home, locations: Option<seq<Location>>, thermostat: DeviceConfig, mode: string,
              cool: Option<int>, heat: Option<int>, propertyName: string, location: string, answers: seq<bool>)
      returns (r: Report)
    ensures Accounts(StageOf(home, locations, thermostat, location, mode, cool, heat), r, mode, cool, heat, propertyName, location, answers)
  {
    var st := StageOf(home, locations, thermostat, location, mode, cool, heat);
    match st
    case NoConfig => r := Refusal(MissingData(propertyName));
    case NoLocation => r := Refusal(LocationNotFound(location, propertyName));
    case NoThermostat(name) => r := Refusal(DeviceNotFound(name, propertyName));
    case NoStatus(name) => r := Refusal(StatusError(name, propertyName));
    case Compared(name, thermostatId, needed, current) =>
      r := Decide(home, name, thermostatId, needed, current, mode, cool, heat, propertyName, answers);
  }

  /** A thermostat whose status already shows the targets is left alone. */
  lemma MatchingThermostatIsLeftAlone(home: Home, thermostatId: string, c: Current, mode: string,
                                      cool: Option<int>, heat: Option<int>)
    requires thermostatId != [] && thermostatId in home.statuses && home.statuses[thermostatId] == StatusDocument(c)
    requires Matches(c, mode, cool, heat)
    ensures NeedsUpdating(home, thermostatId, mode, cool, heat) == Some((false, c))
  {
    ReadsBack(c);
  }
}
