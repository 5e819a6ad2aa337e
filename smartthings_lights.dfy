/**
 * src/brands/smartthings/lights.py: read a light's switch value, send the
 * switch command when the light is not already in the wanted state, and
 * account for the outcome in the `updates` and `errors` lists.
 */
module SmartThingsLights {
  import opened Common
  import opened Json
  import opened SmartThings
  import opened SmartThingsDevices

  /** Where a status document holds the switch value. */
  const SwitchPath: seq<string> := ["components", "main", "switch", "switch", "value"]

  /**
   * `get_switch_value(data)` for the status `get_device_status` read (None
   * when the request failed): the nested switch value, None when a key is
   * missing, and the TypeError of subscribing anything that is not a dict,
   * which the function does not catch.
   */
  function GetSwitchValue(data: Option<Json>): (r: Result<Option<Json>>)
    ensures data.None? ==> r == Threw(SubscriptError(JNull))
    ensures data.Some? ==> match Dig(data.value, SwitchPath)
      case Found(v) => r == Done(Some(v))
      case MissingKey(_) => r == Done(None)
      case NotSubscriptable(e) => r == Threw(e)
  {
    if data.None? then Threw(SubscriptError(JNull))
    else match Dig(data.value, SwitchPath)
      case Found(v) => Done(Some(v))
      case MissingKey(_) => Done(None)
      case NotSubscriptable(e) => Threw(e)
  }

  /** A status document that holds a switch value gives that value back. */
  lemma SwitchValueOf(v: Json)
    ensures GetSwitchValue(Some(Nest(SwitchPath, v))) == Done(Some(v))
  {
    DigNest(SwitchPath, v);
  }

  /** `light_status`: the word for the wanted state. */
  function OnOff(state: bool): string {
    if state then "on" else "off"
  }

  /** `current_status is None or current_status != light_status`. */
  predicate NeedsSwitch(current: Option<Json>, state: bool) {
    current.None? || current.value != JStr(OnOff(state))
  }

  /** The update entry of a switched light. */
  function Switched(state: bool, propertyName: string, lightName: string): string {
    "Light " + OnOff(state) + " - " + propertyName + " - " + lightName
  }

  /** The error entry of a switch command that failed. */
  function SwitchFailed(lightName: string, propertyName: string): string {
    "Switching Light for " + lightName + " at " + propertyName
  }

  /** The error entry of an exception caught by `sync`, with its misspelt brand as written. */
  function LightFailure(detail: string): string {
    "Error in SmatThings Light function: " + detail
  }

  /**
   * `switch_light(light_id, state, light_name, property_name, updates,
   * errors)`: the lists are the caller's, extended in place. `raised` is
   * the exception `get_switch_value` lets through, before anything is
   * appended; `sent` says whether the switch command went out.
   */
  method SwitchLight(home: Home, lightId: string, state: bool, lightName: string, propertyName: string,
                     updates0: seq<string>, errors0: seq<string>)
      returns (updates: seq<string>, errors: seq<string>, raised: Option<string>, sent: bool)
    ensures var current := GetSwitchValue(GetDeviceStatus(home, lightId));
      && (raised.Some? <==> current.Threw?)
      && (raised.Some? ==> raised.value == current.detail)
      && (sent <==> current.Done? && NeedsSwitch(current.value, state))
    ensures sent && Switch(home, lightId) ==> updates == updates0 + [Switched(state, propertyName, lightName)] && errors == errors0
    ensures sent && !Switch(home, lightId) ==> updates == updates0 && errors == errors0 + [SwitchFailed(lightName, propertyName)]
    ensures !sent ==> updates == updates0 && errors == errors0
  {
    updates, errors, raised, sent := updates0, errors0, None, false;
    var light := GetDeviceStatus(home, lightId);
    var current := GetSwitchValue(light);
    if current.Threw? {
      raised := Some(current.detail);
      return;
    }
    if NeedsSwitch(current.value, state) {
      sent := true;
      if Switch(home, lightId) {
        updates := updates + [Switched(state, propertyName, lightName)];
      } else {
        errors := errors + [SwitchFailed(lightName, propertyName)];
      }
    }
  }

  /**
   * What `sync` returns: None after a missing location or device (only a
   * Slack message is sent), else the pair of lists.
   */
  function LightOutcome(home: Home, locations: Option<seq<Location>>, light: DeviceConfig, propertyName: string,
                        location: string, lightState: bool): (r: Option<(seq<string>, seq<string>)>)
    ensures light.name.None? ==> r == Some(([], [LightFailure(KeyErrorText("name"))]))
    ensures light.name.Some? && FindLocationByName(locations, location).None? ==> r.None?
    ensures (light.name.Some? && FindLocationByName(locations, location).Some?
             && DeviceIdByLabel(home, FindLocationByName(locations, location).value, light.name.value).None?) ==> r.None?
    ensures r.None? ==> light.name.Some?
    ensures r.Some? ==> |r.value.0| + |r.value.1| == 1 || r.value == ([], [])
    ensures r.Some? && r.value.0 != [] ==> r.value == ([Switched(lightState, propertyName, light.name.value)], [])
  {
    if light.name.None? then Some(([], [LightFailure(KeyErrorText("name"))]))
    else
      var name := light.name.value;
      var locationId := FindLocationByName(locations, location);
      if locationId.None? then None
      else
        var lightId := DeviceIdByLabel(home, locationId.value, name);
        if lightId.None? then None
        else
          var current := GetSwitchValue(GetDeviceStatus(home, lightId.value));
          if current.Threw? then Some(([], [LightFailure(current.detail)]))
          else if !NeedsSwitch(current.value, lightState) then Some(([], []))
          else if Switch(home, lightId.value) then Some(([Switched(lightState, propertyName, name)], []))
          else Some(([], [SwitchFailed(name, propertyName)]))
  }

  function NoLocation(lightName: string, propertyName: string): string {
    "Unable to fetch location ID for " + lightName + " at " + propertyName + "."
  }

  function NoLight(lightName: string, propertyName: string): string {
    "Unable to fetch Light for " + lightName + " at " + propertyName + "."
  }

  /**
   * The Slack messages `sync` sends (lines 39, 45 and 55): one for a
   * missing location or device, which return None, and one for each
   * exception, which is also the one error entry; none otherwise.
   */
  function LightSlack(home: Home, locations: Option<seq<Location>>, light: DeviceConfig, propertyName: string,
                      location: string, lightState: bool): (r: seq<string>)
    ensures |r| <= 1
    ensures LightOutcome(home, locations, light, propertyName, location, lightState).None? ==>
      r == [NoLocation(light.name.value, propertyName)] || r == [NoLight(light.name.value, propertyName)]
    ensures LightOutcome(home, locations, light, propertyName, location, lightState).Some? && r != [] ==>
      LightOutcome(home, locations, light, propertyName, location, lightState).value == ([], r)
    ensures LightOutcome(home, locations, light, propertyName, location, lightState).Some? ==>
      var errors := LightOutcome(home, locations, light, propertyName, location, lightState).value.1;
      (r != [] <==> errors != [] && (light.name.None? || errors != [SwitchFailed(light.name.value, propertyName)]))
  {
    if light.name.None? then [LightFailure(KeyErrorText("name"))]
    else
      var name := light.name.value;
      var locationId := FindLocationByName(locations, location);
      if locationId.None? then [NoLocation(name, propertyName)]
      else
        var lightId := DeviceIdByLabel(home, locationId.value, name);
        if lightId.None? then [NoLight(name, propertyName)]
        else
          var current := GetSwitchValue(GetDeviceStatus(home, lightId.value));
          if current.Threw? then
            assert LightFailure(current.detail)[0] != SwitchFailed(name, propertyName)[0];
            [LightFailure(current.detail)]
          else []
  }

  /**
   * `sync(light, property_name, location, light_state)`, with the
   * locations `get_all_locations` answers: look the location and the light
   * up, then switch it.
   */
  method Sync(home: Home, locations: Option<seq<Location>>, light: DeviceConfig, propertyName: string,
              location: string, lightState: bool)
      returns (r: Option<(seq<string>, seq<string>)>, sent: bool, slack: seq<string>)
    ensures r == LightOutcome(home, locations, light, propertyName, location, lightState)
    ensures slack == LightSlack(home, locations, light, propertyName, location, lightState)
    ensures sent ==> light.name.Some? && r.Some? && (r.value.0 != [] || r.value.1 == [SwitchFailed(light.name.value, propertyName)])
    ensures r.Some? && r.value.0 != [] ==> sent
  {
    sent, slack := false, [];
    if light.name.None? {
      return Some(([], [LightFailure(KeyErrorText("name"))])), false, [LightFailure(KeyErrorText("name"))];
    }
    var name := light.name.value;
    var locationId := FindLocationByName(locations, location);
    if locationId.None? {
      return None, false, [NoLocation(name, propertyName)];
    }
    var lightId := DeviceIdByLabel(home, locationId.value, name);
    if lightId.None? {
      return None, false, [NoLight(name, propertyName)];
    }
    var updates, errors, raised;
    updates, errors, raised, sent := SwitchLight(home, lightId.value, lightState, name, propertyName, [], []);
    if raised.Some? {
      errors := errors + [LightFailure(raised.value)];
      slack := [LightFailure(raised.value)];
      assert errors == [LightFailure(raised.value)];
    } else if sent {
      assert updates == [Switched(lightState, propertyName, name)] || errors == [SwitchFailed(name, propertyName)];
    }
    r := Some((updates, errors));
  }

  /**
   * A light whose status already shows the wanted state is left alone:
   * nothing is sent and both lists stay empty.
   */
  lemma SettledLightIsLeftAlone(home: Home, locations: Option<seq<Location>>, light: DeviceConfig,
                                propertyName: string, location: string, lightState: bool, lightId: string)
    requires light.name.Some? && FindLocationByName(locations, location).Some?
    requires DeviceIdByLabel(home, FindLocationByName(locations, location).value, light.name.value) == Some(lightId)
    requires lightId in home.statuses && home.statuses[lightId] == Nest(SwitchPath, JStr(OnOff(lightState)))
    ensures LightOutcome(home, locations, light, propertyName, location, lightState) == Some(([], []))
  {
    SwitchValueOf(JStr(OnOff(lightState)));
  }

  /**
   * A light in the other state, or without a readable switch value, is
   * switched: one update when the command is accepted, one error when not.
   */
  lemma UnsettledLightIsSwitched(home: Home, locations: Option<seq<Location>>, light: DeviceConfig,
                                 propertyName: string, location: string, lightState: bool, lightId: string)
    requires light.name.Some? && FindLocationByName(locations, location).Some?
    requires DeviceIdByLabel(home, FindLocationByName(locations, location).value, light.name.value) == Some(lightId)
    requires lightId in home.statuses && home.statuses[lightId] == Nest(SwitchPath, JStr(OnOff(!lightState)))
    ensures Switch(home, lightId) ==>
      LightOutcome(home, locations, light, propertyName, location, lightState) == Some(([Switched(lightState, propertyName, light.name.value)], []))
    ensures !Switch(home, lightId) ==>
      LightOutcome(home, locations, light, propertyName, location, lightState) == Some(([], [SwitchFailed(light.name.value, propertyName)]))
  {
    SwitchValueOf(JStr(OnOff(!lightState)));
    assert OnOff(!lightState) != OnOff(lightState);
  }
}
