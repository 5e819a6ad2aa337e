/**
 * The decision-making helpers of src/brands/smartthings/smartthings.py:
 * the lock filter, the lookups by name, the slot allocation for a new
 * code, the check `add_user_code` makes before any request, and the command
 * and change lists `set_thermostat` builds. The HTTP requests themselves
 * are not part of this module.
 */
module SmartThings {
  import opened Common

  /** One entry of a lock's `users` dict: `int(user_id)` and the code's name. */
  datatype User = User(id: int, name: string)

  /** An entry of `get_locks`: `lock_id`, `lock_name` and the `users` dict, in its order. */
  datatype LockView = LockView(lockId: string, lockName: string, users: seq<User>)

  /** An entry of `get_all_locations`. */
  datatype Location = Location(name: string, locationId: string)

  /** A device of `get_devices`: its id, its label and, per component, the ids of its capabilities. */
  datatype Device = Device(deviceId: string, deviceLabel: string, components: seq<seq<string>>)

  // ---------------------------------------------------------------------------
  // filter_locks
  // ---------------------------------------------------------------------------

  /** `device['components'][0]` exists for every device. */
  predicate AllHaveComponents(devices: seq<Device>) {
    forall i :: 0 <= i < |devices| ==> devices[i].components != []
  }

  /** `any(capability['id'] == 'lockCodes' for capability in device['components'][0]['capabilities'])`. */
  predicate ListsLockCodes(d: Device)
    requires d.components != []
  {
    "lockCodes" in d.components[0]
  }

  /**
   * `filter_locks(devices)`: the devices whose first component lists the
   * `lockCodes` capability, in order. A device without components makes the
   * comprehension raise IndexError.
   */
  function FilterLocks(devices: seq<Device>): (r: Outcome<seq<Device>>)
    ensures r.Raised? <==> !AllHaveComponents(devices)
    ensures r.Value? ==> forall d :: d in r.value <==> d in devices && ListsLockCodes(d)
    ensures r.Value? ==> |r.value| <= |devices|
  {
    if devices == [] then Value([])
    else
      var d := devices[0];
      assert forall i :: 1 <= i < |devices| ==> devices[i] == devices[1..][i - 1];
      if d.components == [] then Raised
      else
        match FilterLocks(devices[1..])
        case Raised => Raised
        case Value(rest) => if ListsLockCodes(d) then Value([d] + rest) else Value(rest)
  }

  /** The filter keeps the devices' order: it distributes over concatenation. */
  lemma {:induction false} FilterLocksAppend(a: seq<Device>, b: seq<Device>)
    requires AllHaveComponents(a) && AllHaveComponents(b)
    ensures FilterLocks(a + b).Value?
    ensures FilterLocks(a + b).value == FilterLocks(a).value + FilterLocks(b).value
  {
    if a == [] {
      assert a + b == b;
    } else {
      assert (a + b)[0] == a[0];
      assert (a + b)[1..] == a[1..] + b;
      FilterLocksAppend(a[1..], b);
    }
  }

  // ---------------------------------------------------------------------------
  // find_next_available_user_id
  // ---------------------------------------------------------------------------

  /** `{int(user_id) for user_id in lock_codes.keys()}`. */
  function IdSet(users: seq<User>): set<int> {
    set i | 0 <= i < |users| :: users[i].id
  }

  /** `max(existing_ids, default=0)`. */
  function MaxId(users: seq<User>): (m: int)
    ensures users == [] ==> m == 0
    ensures forall k :: k in IdSet(users) ==> k <= m
    ensures users != [] ==> m in IdSet(users)
  {
    if users == [] then 0
    else
      var rest := MaxId(users[1..]);
      assert forall k :: k in IdSet(users) <==> k == users[0].id || k in IdSet(users[1..]) by {
        forall k ensures k in IdSet(users) <==> k == users[0].id || k in IdSet(users[1..]) {
          if k in IdSet(users[1..]) {
            var i :| 0 <= i < |users[1..]| && users[1..][i].id == k;
            assert users[i + 1].id == k;
          }
          if k in IdSet(users) && k != users[0].id {
            var i :| 0 <= i < |users| && users[i].id == k;
            assert users[1..][i - 1].id == k;
          }
        }
      }
      if users[1..] == [] || users[0].id >= rest then users[0].id else rest
  }

  /**
   * `find_next_available_user_id(lock_codes)`: the first of 1, 2, ...,
   * max + 1 no code uses, else max + 1. With the non-negative slot numbers
   * a lock reports, that is the least positive free slot.
   */
  method FindNextAvailableUserId(users: seq<User>) returns (r: int)
    ensures r !in IdSet(users)
    ensures r <= MaxId(users) + 1
    ensures r >= 1 ==> forall k :: 1 <= k < r ==> k in IdSet(users)
    ensures (forall i :: 0 <= i < |users| ==> users[i].id >= 0) ==> r >= 1
  {
    var existing := IdSet(users);
    var maxId := MaxId(users);
    var next := 1;
    while next < maxId + 2
      invariant 1 <= next && (maxId + 2 > 1 ==> next <= maxId + 2)
      invariant forall k :: 1 <= k < next ==> k in existing
    {
      if next !in existing {
        return next;
      }
      next := next + 1;
    }
    if users != [] && (forall i :: 0 <= i < |users| ==> users[i].id >= 0) {
      assert users[0].id in existing;
    }
    return maxId + 1;
  }

  // ---------------------------------------------------------------------------
  // Lookups by name
  // ---------------------------------------------------------------------------

  /** `find_user_id_by_name(lock, user_name)`: the id of the first entry named exactly `name`. */
  function FindUserIdByName(users: seq<User>, name: string): (r: Option<int>)
    ensures r.None? <==> forall i :: 0 <= i < |users| ==> users[i].name != name
    ensures r.Some? ==> exists i :: 0 <= i < |users| && users[i] == User(r.value, name)
                                    && forall j :: 0 <= j < i ==> users[j].name != name
  {
    if users == [] then None
    else if users[0].name == name then Some(users[0].id)
    else
      var r := FindUserIdByName(users[1..], name);
      assert forall i :: 1 <= i < |users| ==> users[i] == users[1..][i - 1];
      assert r.Some? ==> exists i :: 0 <= i < |users| && users[i] == User(r.value, name)
                                    && forall j :: 0 <= j < i ==> users[j].name != name by {
      if r.Some? {
        var i :| 0 <= i < |users[1..]| && users[1..][i] == User(r.value, name) && forall j :: 0 <= j < i ==> users[1..][j].name != name;
        assert users[i + 1] == User(r.value, name);
        assert forall j :: 0 <= j < i + 1 ==> users[j].name != name by {
          forall j | 0 <= j < i + 1 ensures users[j].name != name {
            if j > 0 { assert users[j] == users[1..][j - 1]; }
          }
        }
      }
      }
      r
  }

  /**
   * `if not find_user_id_by_name(lock, name)` fails exactly when this
   * holds: an entry of that name exists and its id is not 0, which Python
   * treats as false.
   */
  predicate Shows(users: seq<User>, name: string) {
    FindUserIdByName(users, name).Some? && FindUserIdByName(users, name).value != 0
  }

  /** A name `startswith("Guest")`. */
  predicate IsGuestName(name: string) {
    StartsWith(name, "Guest")
  }

  /** `find_all_guest_user_ids(lock)`: the ids of the guest entries, in order. */
  function FindAllGuestUserIds(users: seq<User>): (r: seq<int>)
    ensures forall k :: k in r <==> exists i :: 0 <= i < |users| && users[i].id == k && IsGuestName(users[i].name)
    ensures |r| <= |users|
  {
    if users == [] then []
    else
      var rest := FindAllGuestUserIds(users[1..]);
      assert forall i :: 1 <= i < |users| ==> users[i] == users[1..][i - 1];
      if IsGuestName(users[0].name) then [users[0].id] + rest else rest
  }

  /** `find_all_guest_user_names(lock)`: the guest names, in order. */
  function FindAllGuestUserNames(users: seq<User>): (r: seq<string>)
    ensures forall n :: n in r <==> IsGuestName(n) && exists i :: 0 <= i < |users| && users[i].name == n
    ensures |r| <= |users|
  {
    if users == [] then []
    else
      var rest := FindAllGuestUserNames(users[1..]);
      assert forall i :: 1 <= i < |users| ==> users[i] == users[1..][i - 1];
      if IsGuestName(users[0].name) then [users[0].name] + rest else rest
  }

  /** The two guest lists run in step: the k-th id and the k-th name belong to one entry. */
  lemma {:induction false} GuestListsInStep(users: seq<User>)
    ensures |FindAllGuestUserIds(users)| == |FindAllGuestUserNames(users)|
    ensures forall k :: 0 <= k < |FindAllGuestUserIds(users)| ==>
      User(FindAllGuestUserIds(users)[k], FindAllGuestUserNames(users)[k]) in users
  {
    if users != [] {
      GuestListsInStep(users[1..]);
      var ids, names := FindAllGuestUserIds(users[1..]), FindAllGuestUserNames(users[1..]);
      forall k | 0 <= k < |ids| ensures User(ids[k], names[k]) in users {
        assert User(ids[k], names[k]) in users[1..];
      }
    }
  }

  /** Where the first lock whose name matches ignoring case sits; `|locks|` when none does. */
  function LockIndex(locks: seq<LockView>, lockName: string): (i: nat)
    ensures i <= |locks|
    ensures forall j :: 0 <= j < i ==> Lower(locks[j].lockName) != Lower(lockName)
    ensures i < |locks| ==> Lower(locks[i].lockName) == Lower(lockName)
  {
    if locks == [] then 0
    else if Lower(locks[0].lockName) == Lower(lockName) then 0
    else 1 + LockIndex(locks[1..], lockName)
  }

  /** `find_lock_by_name(locks_with_users, lock_name)`: the first lock whose name matches ignoring case. */
  function FindLockByName(locks: seq<LockView>, lockName: string): (r: Option<LockView>)
    ensures r.None? <==> forall i :: 0 <= i < |locks| ==> Lower(locks[i].lockName) != Lower(lockName)
    ensures r.Some? ==> exists i :: 0 <= i < |locks| && locks[i] == r.value && Lower(r.value.lockName) == Lower(lockName)
                                    && forall j :: 0 <= j < i ==> Lower(locks[j].lockName) != Lower(lockName)
  {
    var i := LockIndex(locks, lockName);
    if i == |locks| then None else Some(locks[i])
  }

  /** Two listings whose locks carry the same names, position by position, find the lock at the same place. */
  lemma LockIndexByNames(a: seq<LockView>, b: seq<LockView>, lockName: string)
    requires |a| == |b| && forall i :: 0 <= i < |a| ==> a[i].lockName == b[i].lockName
    ensures LockIndex(a, lockName) == LockIndex(b, lockName)
  {
  }

  /**
   * `find_location_by_name(location_name)` given what `get_all_locations`
   * returned: `None` for a failed or empty listing, else the id of the
   * first location whose name matches ignoring case.
   */
  function FindLocationByName(locations: Option<seq<Location>>, name: string): (r: Option<string>)
    ensures locations.None? || locations.value == [] ==> r.None?
    ensures locations.Some? ==>
      (r.None? <==> forall i :: 0 <= i < |locations.value| ==> Lower(locations.value[i].name) != Lower(name))
    ensures r.Some? ==> exists i :: 0 <= i < |locations.value| && Lower(locations.value[i].name) == Lower(name)
                                    && locations.value[i].locationId == r.value
                                    && forall j :: 0 <= j < i ==> Lower(locations.value[j].name) != Lower(name)
  {
    if locations.None? then None else FirstLocation(locations.value, name)
  }

  /** Where the first location whose name matches ignoring case sits; `|locations|` when none does. */
  function LocationIndex(locations: seq<Location>, name: string): (i: nat)
    ensures i <= |locations|
    ensures forall j :: 0 <= j < i ==> Lower(locations[j].name) != Lower(name)
    ensures i < |locations| ==> Lower(locations[i].name) == Lower(name)
  {
    if locations == [] then 0
    else if Lower(locations[0].name) == Lower(name) then 0
    else 1 + LocationIndex(locations[1..], name)
  }

  function FirstLocation(locations: seq<Location>, name: string): (r: Option<string>)
    ensures r.None? <==> forall i :: 0 <= i < |locations| ==> Lower(locations[i].name) != Lower(name)
    ensures r.Some? ==> exists i :: 0 <= i < |locations| && Lower(locations[i].name) == Lower(name)
                                    && locations[i].locationId == r.value
                                    && forall j :: 0 <= j < i ==> Lower(locations[j].name) != Lower(name)
  {
    var i := LocationIndex(locations, name);
    if i == |locations| then None else Some(locations[i].locationId)
  }

  // ---------------------------------------------------------------------------
  // add_user_code: the check made before any request
  // ---------------------------------------------------------------------------

  /** `not code or not code.isdigit()` is false: a non-empty run of digits. */
  predicate ValidCode(code: string) {
    code != [] && AllDigits(code)
  }

  /** Every raw code the lock engines derive passes the check. */
  lemma RawCodesAreValid(code: string)
    requires |code| == 4 && AllDigits(code)
    ensures ValidCode(code)
  {
  }

  // ---------------------------------------------------------------------------
  // set_thermostat
  // ---------------------------------------------------------------------------

  /** The four commands `set_thermostat` can send. */
  datatype Command = SetMode(mode: string) | SetCool(temp: int) | SetHeat(temp: int) | SetFan(fan: string)

  /** The device's settings before the change, as the status read reports them. */
  datatype ThermostatSettings = ThermostatSettings(mode: string, cool: int, heat: int, fan: string)

  /** The rank that fixes the order of `commands`: mode, cool, heat, fan. */
  function Rank(c: Command): nat {
    match c
    case SetMode(_) => 0
    case SetCool(_) => 1
    case SetHeat(_) => 2
    case SetFan(_) => 3
  }

  predicate SendsMode(mode: string) { mode == "cool" || mode == "heat" || mode == "auto" || mode == "off" }

  predicate SendsFan(fan: string) { fan == "auto" || fan == "on" }

  /** A command the arguments ask for. */
  predicate Requested(c: Command, mode: string, cool: Option<int>, heat: Option<int>, fan: string) {
    match c
    case SetMode(m) => m == mode && SendsMode(mode)
    case SetCool(t) => cool == Some(t)
    case SetHeat(t) => heat == Some(t)
    case SetFan(f) => f == fan && SendsFan(fan)
  }

  /** Lines 344-374: the requested commands, each once, in the order mode, cool, heat, fan. */
  function Commands(mode: string, cool: Option<int>, heat: Option<int>, fan: string): (r: seq<Command>)
    ensures forall i, j :: 0 <= i < j < |r| ==> Rank(r[i]) < Rank(r[j])
    ensures forall c :: c in r ==> Requested(c, mode, cool, heat, fan)
    ensures SendsMode(mode) ==> SetMode(mode) in r
    ensures cool.Some? ==> SetCool(cool.value) in r
    ensures heat.Some? ==> SetHeat(heat.value) in r
    ensures SendsFan(fan) ==> SetFan(fan) in r
  {
    (if SendsMode(mode) then [SetMode(mode)] else [])
    + (if cool.Some? then [SetCool(cool.value)] else [])
    + (if heat.Some? then [SetHeat(heat.value)] else [])
    + (if SendsFan(fan) then [SetFan(fan)] else [])
  }

  /** A line of the `changes` list. */
  datatype Change =
    | ModeChanged(from: string, to: string)
    | CoolChanged(fromTemp: int, toTemp: int)
    | HeatChanged(fromTemp: int, toTemp: int)
    | FanChanged(from: string, to: string)

  /** The text of a change line. */
  function ChangeText(c: Change): string {
    match c
    case ModeChanged(a, b) => "Mode: " + a + " → " + b
    case CoolChanged(a, b) => "Cool: " + IntToString(a) + "°F → " + IntToString(b) + "°F"
    case HeatChanged(a, b) => "Heat: " + IntToString(a) + "°F → " + IntToString(b) + "°F"
    case FanChanged(a, b) => "Fan: " + a + " → " + b
  }

  /** A change the original settings and the targets call for. */
  predicate Differs(c: Change, o: ThermostatSettings, mode: string, cool: Option<int>, heat: Option<int>, fan: string) {
    match c
    case ModeChanged(a, b) => a == o.mode && b == mode && o.mode != "unknown" && o.mode != mode
    case CoolChanged(a, b) => a == o.cool && cool == Some(b) && o.cool != b
    case HeatChanged(a, b) => a == o.heat && heat == Some(b) && o.heat != b
    case FanChanged(a, b) => a == o.fan && b == fan && o.fan != "unknown" && o.fan != fan
  }

  /**
   * Lines 377-385: one line per field whose original value is known and
   * differs from the target. A failed status read leaves every original
   * "unknown", and so lists nothing.
   */
  function ChangeLines(original: Option<ThermostatSettings>, mode: string, cool: Option<int>, heat: Option<int>, fan: string): (r: seq<Change>)
    ensures original.None? ==> r == []
    ensures original.Some? ==> forall c :: c in r ==> Differs(c, original.value, mode, cool, heat, fan)
    ensures forall i, j :: 0 <= i < j < |r| ==> r[i] != r[j]
    ensures original.Some? ==> var o := original.value;
      && (o.mode != "unknown" && o.mode != mode ==> ModeChanged(o.mode, mode) in r)
      && (cool.Some? && o.cool != cool.value ==> CoolChanged(o.cool, cool.value) in r)
      && (heat.Some? && o.heat != heat.value ==> HeatChanged(o.heat, heat.value) in r)
      && (o.fan != "unknown" && o.fan != fan ==> FanChanged(o.fan, fan) in r)
  {
    match original
    case None => []
    case Some(o) =>
      (if o.mode != "unknown" && o.mode != mode then [ModeChanged(o.mode, mode)] else [])
      + (if cool.Some? && o.cool != cool.value then [CoolChanged(o.cool, cool.value)] else [])
      + (if heat.Some? && o.heat != heat.value then [HeatChanged(o.heat, heat.value)] else [])
      + (if o.fan != "unknown" && o.fan != fan then [FanChanged(o.fan, fan)] else [])
  }

  /** Settings that already match the targets produce no change line. */
  lemma NoChangeWhenMatching(o: ThermostatSettings, mode: string, cool: Option<int>, heat: Option<int>, fan: string)
    requires o.mode == mode && o.fan == fan
    requires cool.Some? ==> o.cool == cool.value
    requires heat.Some? ==> o.heat == heat.value
    ensures ChangeLines(Some(o), mode, cool, heat, fan) == []
  {
  }

  /** What `set_thermostat` returns: a bare False without a device id, else the pair. */
  datatype ThermostatResult = NoDevice | Sent(allSucceeded: bool, changes: seq<Change>)

  /** The answer `send_command` gives to the `k`-th command; past the end of the script it succeeds. */
  predicate Accepted(answers: seq<bool>, k: nat) {
    k >= |answers| || answers[k]
  }

  /** Lines 388-393: send each command in order; the result is the conjunction of the answers. */
  method SendAll(commands: seq<Command>, answers: seq<bool>) returns (allSucceeded: bool, sent: seq<Command>)
    ensures sent == commands
    ensures allSucceeded <==> forall k :: 0 <= k < |commands| ==> Accepted(answers, k)
  {
    allSucceeded := true;
    sent := [];
    var k := 0;
    while k < |commands|
      invariant 0 <= k <= |commands| && sent == commands[..k]
      invariant allSucceeded <==> forall j :: 0 <= j < k ==> Accepted(answers, j)
    {
      var success := Accepted(answers, k);
      if !success {
        allSucceeded := false;
      }
      sent := sent + [commands[k]];
      k := k + 1;
    }
  }

  /**
   * `set_thermostat(device_id, device_name, mode, cool_temp, heat_temp,
   * fan_mode)` with the status read as `original` and the answers to the
   * commands as `answers`: no request without a device id; otherwise every
   * requested command is sent, in order, and `all_succeeded` is the
   * conjunction of their answers.
   */
  method SetThermostat(deviceId: string, original: Option<ThermostatSettings>, mode: string, cool: Option<int>,
                       heat: Option<int>, fan: string, answers: seq<bool>)
      returns (r: ThermostatResult, sent: seq<Command>)
    ensures deviceId == [] <==> r == NoDevice
    ensures deviceId == [] ==> sent == []
    ensures deviceId != [] ==> sent == Commands(mode, cool, heat, fan)
    ensures r.Sent? ==> r.changes == ChangeLines(original, mode, cool, heat, fan)
    ensures r.Sent? ==> (r.allSucceeded <==> forall k :: 0 <= k < |sent| ==> Accepted(answers, k))
  {
    if deviceId == [] {
      return NoDevice, [];
    }
    var commands := Commands(mode, cool, heat, fan);
    var changes := ChangeLines(original, mode, cool, heat, fan);
    var allSucceeded;
    allSucceeded, sent := SendAll(commands, answers);
    r := Sent(allSucceeded, changes);
  }
}
