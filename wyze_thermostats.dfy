/**
 * src/brands/wyze/thermostats.py: compare a Wyze thermostat's status with
 * the wanted mode and setpoints, and account for the outcome. The write
 * itself is commented out in the source (`update_successful` is always
 * False), so a needed update is always reported as an error.
 */
module WyzeThermostats {
  import opened Common
  import opened Json
  import opened WyzeApi
  import opened Wyze

  /** The fan mode `thermostat_needs_updating` compares with: `fan_mode` keeps its default. */
  const WantedFan := "auto"

  /**
   * What `get_thermostat_status` reports, as compared: the second element
   * of the system mode's and fan mode's enum values, and the two setpoints.
   */
  datatype Status = Status(systemMode: string, fanMode: string, heating: int, cooling: int)

  /** Lines 63-66: the mode code, fan code and both setpoints equal their targets. */
  predicate Matches(st: Status, mode: string, cool: Option<int>, heat: Option<int>) {
    st.systemMode == mode && st.fanMode == WantedFan && heat == Some(st.heating) && cool == Some(st.cooling)
  }

  /**
   * `thermostat_needs_updating(client, device, mode, cool_temp, heat_temp)`
   * with the status read (None when the read failed): whether an update is
   * needed, or the AttributeError of reading a field of None.
   */
  function NeedsUpdating(status: Option<Status>, mode: string, cool: Option<int>, heat: Option<int>): (r: Result<bool>)
    ensures r.Threw? <==> status.None?
    ensures r.Done? ==> (r.value <==> !Matches(status.value, mode, cool, heat))
  {
    if status.None? then Threw(NoneAttribute("_system_mode"))
    else Done(!Matches(status.value, mode, cool, heat))
  }

  /** `str(e)` of the AttributeError of reading `attribute` on None. */
  function NoneAttribute(attribute: string): string {
    "'NoneType' object has no attribute '" + attribute + "'"
  }

  /** A target with no setpoint never matches: Wyze reports its setpoints as integers. */
  lemma MissingSetpointNeedsUpdate(st: Status, mode: string, cool: Option<int>, heat: Option<int>)
    requires cool.None? || heat.None?
    ensures NeedsUpdating(Some(st), mode, cool, heat) == Done(true)
  {
  }

  /** The error entry of a needed update, which is never made. */
  function UpdateFailed(name: string, propertyName: string): string {
    "Updating Thermostat for " + name + " at " + propertyName
  }

  /** The error entry of an exception caught by `sync`. */
  function WyzeFailure(detail: string): string {
    "Error in Wyze Thermostat function: " + detail
  }

  /**
   * `sync(client, thermostat, mode, cool_temp, heat_temp, property_name)`
   * with the devices `client.list()` answers and the status the thermostat
   * reports. A missing device returns None (only a Slack message is sent).
   * No update is ever recorded: a needed update gives exactly one error,
   * and a thermostat that matches gives both lists empty.
   */
  method Sync(devices: Option<seq<DeviceInfo>>, thermostat: DeviceConfig, mode: string, cool: Option<int>,
              heat: Option<int>, propertyName: string, status: Option<Status>)
      returns (r: Option<(seq<string>, seq<string>)>)
    ensures r.Some? ==> r.value.0 == [] && |r.value.1| <= 1
    ensures thermostat.name.None? ==> r == Some(([], [WyzeFailure(KeyErrorText("name"))]))
    ensures thermostat.name.Some? ==> (r.None? <==> GetDeviceByName(devices, thermostat.name.value).None?)
    ensures thermostat.name.Some? && r.Some? ==> match NeedsUpdating(status, mode, cool, heat)
      case Threw(e) => r.value.1 == [WyzeFailure(e)]
      case Done(needed) => r.value.1 == if needed then [UpdateFailed(thermostat.name.value, propertyName)] else []
  {
    var updates: seq<string> := [];
    var errors: seq<string> := [];
    if thermostat.name.None? {
      errors := errors + [WyzeFailure(KeyErrorText("name"))];
      assert errors == [WyzeFailure(KeyErrorText("name"))];
      return Some((updates, errors));
    }
    var name := thermostat.name.value;
    var device := GetDeviceByName(devices, name);
    if device.None? {
      return None;
    }
    var needsUpdate := NeedsUpdating(status, mode, cool, heat);
    if needsUpdate.Threw? {
      errors := errors + [WyzeFailure(needsUpdate.detail)];
    } else if needsUpdate.value {
      var updateSuccessful := false;
      if updateSuccessful {
        updates := updates + ["Thermostat " + propertyName + " - " + name];
      } else {
        errors := errors + [UpdateFailed(name, propertyName)];
      }
    }
    r := Some((updates, errors));
  }
}
