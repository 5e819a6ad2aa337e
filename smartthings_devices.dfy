/**
 * The device-level requests of src/brands/smartthings/smartthings.py that
 * the light and thermostat modules make: `get_devices`,
 * `get_device_id_by_label`, `get_device_status`,
 * `get_device_status_with_refresh` and `switch`. What the SmartThings
 * cloud answers during one run is a `Home` value; the requests read it.
 */
module SmartThingsDevices {
  import opened Common
  import opened Json
  import opened SmartThings

  /**
   * What the cloud answers: the device listing of each location id (a
   * location missing here is a failed listing), the status document of
   * each device id (a device missing here is a failed status request), and
   * the ids whose switch command is answered with 200.
   */
  datatype Home = Home(devices: map<string, seq<Device>>, statuses: map<string, Json>, switches: set<string>)

  /** `get_devices(location_id)`: None for a falsy id or a failed listing. */
  function GetDevices(home: Home, locationId: string): (r: Option<seq<Device>>)
    ensures locationId == [] ==> r.None?
    ensures r.Some? <==> locationId != [] && locationId in home.devices
    ensures r.Some? ==> r.value == home.devices[locationId]
  {
    if locationId == [] then None
    else if locationId in home.devices then Some(home.devices[locationId])
    else None
  }

  /** Where the first device labelled `wanted` sits; `|devices|` when none is. */
  function LabelIndex(devices: seq<Device>, wanted: string): (i: nat)
    ensures i <= |devices|
    ensures forall j :: 0 <= j < i ==> devices[j].deviceLabel != wanted
    ensures i < |devices| ==> devices[i].deviceLabel == wanted
  {
    if devices == [] then 0
    else if devices[0].deviceLabel == wanted then 0
    else 1 + LabelIndex(devices[1..], wanted)
  }

  /**
   * `get_device_id_by_label(location_id, label)`: None when the listing
   * failed or is empty, else the id of the first device whose label equals
   * the wanted one exactly, or None when no device has it.
   */
  function DeviceIdByLabel(home: Home, locationId: string, wanted: string): (r: Option<string>)
    ensures GetDevices(home, locationId).None? ==> r.None?
    ensures GetDevices(home, locationId).Some? ==> var ds := GetDevices(home, locationId).value;
      && (r.None? <==> forall j :: 0 <= j < |ds| ==> ds[j].deviceLabel != wanted)
      && (r.Some? ==> exists i :: 0 <= i < |ds| && ds[i].deviceLabel == wanted && ds[i].deviceId == r.value
                                  && forall j :: 0 <= j < i ==> ds[j].deviceLabel != wanted)
  {
    var devices := GetDevices(home, locationId);
    if devices.None? || devices.value == [] then None
    else
      var i := LabelIndex(devices.value, wanted);
      if i == |devices.value| then None else Some(devices.value[i].deviceId)
  }

  /** `get_device_status(device_id)`: the status document, or None for a failed request. */
  function GetDeviceStatus(home: Home, deviceId: string): (r: Option<Json>)
    ensures r.Some? <==> deviceId in home.statuses
    ensures r.Some? ==> r.value == home.statuses[deviceId]
  {
    if deviceId in home.statuses then Some(home.statuses[deviceId]) else None
  }

  /**
   * `get_device_status_with_refresh(device_id)`: None for a falsy id,
   * else the status read after the refresh command. Whether the refresh
   * succeeded only decides whether the request waits first.
   */
  function StatusWithRefresh(home: Home, deviceId: string): (r: Option<Json>)
    ensures deviceId == [] ==> r.None?
    ensures deviceId != [] ==> r == GetDeviceStatus(home, deviceId)
  {
    if deviceId == [] then None else GetDeviceStatus(home, deviceId)
  }

  /** `switch(device_id, state)` for a device id: whether the command was answered with 200. */
  predicate Switch(home: Home, deviceId: string) {
    deviceId in home.switches
  }

  /** A device listed under its label is found by it, whatever comes after it. */
  lemma FindsLabelled(home: Home, locationId: string, before: seq<Device>, d: Device, after: seq<Device>)
    requires locationId != [] && locationId in home.devices
    requires home.devices[locationId] == before + [d] + after
    requires forall j :: 0 <= j < |before| ==> before[j].deviceLabel != d.deviceLabel
    ensures DeviceIdByLabel(home, locationId, d.deviceLabel) == Some(d.deviceId)
  {
    var ds := before + [d] + after;
    assert ds[|before|] == d;
    var r := DeviceIdByLabel(home, locationId, d.deviceLabel);
    assert r.Some?;
    forall j | 0 <= j < |before|
      ensures ds[j].deviceLabel != d.deviceLabel
    {
      assert ds[j] == before[j];
    }
  }
}
