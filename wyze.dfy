/**
 * The Wyze cloud as the lock engines see it through the SDK's lock client:
 * one table of access codes per lock, addressed by MAC. The calls the
 * engines make (`get_keys`, `create_access_code`, `update_access_code`,
 * `delete_access_code`) are methods of `Account`. What the vendor does on
 * each call comes from a script of faults consumed one per call; an
 * exhausted script behaves normally. Every call is recorded in a ghost log.
 */
module WyzeApi {
  import opened Common

  /** `LockKeyPermissionType`. */
  datatype PermissionType = Always | Duration | Once | Recurring

  /** `LockKeyPermission`: a type and a window, as integer instants. */
  datatype Permission = Permission(kind: PermissionType, begin: int, end: int)

  /** A `LockKey` as `get_keys` lists it; `userId` is its optional `userid`. */
  datatype Code = Code(id: int, name: string, accessCode: string, permission: Permission, userId: Option<int>)

  /** A device of `client.list()`. */
  datatype DeviceInfo = DeviceInfo(nickname: string, mac: string)

  /** What a mutating call gives back: the response's `ErrNo`, or a raised WyzeApiError. */
  datatype Response = ErrNo(errNo: int) | ApiError

  /**
   * How the vendor treats one call. `Normal` does what is asked. `Reject(n)`
   * answers a mutation with `ErrNo` `n` and changes nothing; a rejected read
   * raises. `Raise` raises WyzeApiError. `Stale(s)` performs a mutation and
   * answers `ErrNo` 0, but a read under it returns the old listing `s`.
   */
  datatype Fault = Normal | Reject(errNo: int) | Raise | Stale(snapshot: seq<Code>)

  datatype Call =
    | Listed(mac: string, result: Option<seq<Code>>)
    | Created(mac: string, accessCode: string, name: string, permission: Permission, response: Response)
    | Updated(mac: string, id: int, accessCode: string, name: string, permission: Permission, response: Response)
    | Deleted(mac: string, id: int, response: Response)

  function Head(fs: seq<Fault>): Fault {
    if fs == [] then Normal else fs[0]
  }

  function Tail(fs: seq<Fault>): seq<Fault> {
    if fs == [] then [] else fs[1..]
  }

  /** A vendor that performs every call as asked. */
  predicate Quiet(fs: seq<Fault>) {
    forall i :: 0 <= i < |fs| ==> fs[i] == Normal
  }

  /** A mutation under `f` takes effect. */
  predicate Applies(f: Fault) {
    f.Normal? || f.Stale?
  }

  /** The answer to a mutation under `f`. */
  function Answer(f: Fault): (r: Response)
    ensures Applies(f) ==> r == ErrNo(0)
    ensures f.Raise? <==> r.ApiError?
  {
    match f
    case Normal => ErrNo(0)
    case Stale(_) => ErrNo(0)
    case Reject(n) => ErrNo(n)
    case Raise => ApiError
  }

  /** The answer to a read under `f`, given the current listing. */
  function Listing(f: Fault, current: seq<Code>): (r: Option<seq<Code>>)
    ensures f.Normal? ==> r == Some(current)
    ensures r.None? <==> f.Reject? || f.Raise?
  {
    match f
    case Normal => Some(current)
    case Stale(s) => Some(s)
    case _ => None
  }

  predicate UniqueIds(codes: seq<Code>) {
    forall i, j :: 0 <= i < j < |codes| ==> codes[i].id != codes[j].id
  }

  /** The listing after `delete_access_code(id)`: every code with another id, in order. */
  function WithoutId(codes: seq<Code>, id: int): (r: seq<Code>)
    ensures forall c :: c in r <==> c in codes && c.id != id
    ensures |r| <= |codes|
  {
    if codes == [] then []
    else if codes[0].id == id then WithoutId(codes[1..], id)
    else [codes[0]] + WithoutId(codes[1..], id)
  }

  /** The listing after `update_access_code(id, ...)`: the code with that id takes the new fields. */
  function WithUpdate(codes: seq<Code>, id: int, accessCode: string, name: string, permission: Permission): (r: seq<Code>)
    ensures |r| == |codes|
    ensures forall i :: 0 <= i < |codes| ==> r[i].id == codes[i].id && r[i].userId == codes[i].userId
    ensures forall i :: 0 <= i < |codes| && codes[i].id != id ==> r[i] == codes[i]
    ensures forall i :: 0 <= i < |codes| && codes[i].id == id ==>
      r[i].name == name && r[i].accessCode == accessCode && r[i].permission == permission
  {
    seq(|codes|, i requires 0 <= i < |codes| =>
      if codes[i].id == id then codes[i].(accessCode := accessCode, name := name, permission := permission) else codes[i])
  }

  lemma WithoutIdUnique(codes: seq<Code>, id: int)
    requires UniqueIds(codes)
    ensures UniqueIds(WithoutId(codes, id))
  {
    if codes != [] {
      WithoutIdUnique(codes[1..], id);
      var rest := WithoutId(codes[1..], id);
      forall c | c in rest ensures c.id != codes[0].id {
        var k :| 0 <= k < |codes[1..]| && codes[1..][k] == c;
        assert codes[k + 1] == c;
      }
    }
  }

  /** The codes of the lock with MAC `mac` in the code tables `locks`; none for a lock without a table. */
  function KeysOf(locks: map<string, seq<Code>>, mac: string): seq<Code> {
    if mac in locks then locks[mac] else []
  }

  class Account {
    /** What `client.list()` returns; `None` where it raises WyzeApiError. */
    var devices: Option<seq<DeviceInfo>>
    /** The code table of each lock, by MAC. */
    var locks: map<string, seq<Code>>
    /** `client._user_id`, which the engines set. */
    var userId: Option<int>
    /** The id the next created code receives. */
    var nextId: int
    var faults: seq<Fault>
    ghost var log: seq<Call>

    /** Within one lock the ids are distinct, and all lie below `nextId`. */
    ghost predicate Valid()
      reads this
    {
      forall mac :: mac in locks ==>
        UniqueIds(locks[mac]) && forall i :: 0 <= i < |locks[mac]| ==> locks[mac][i].id < nextId
    }

    /** The codes of the lock with MAC `mac`. */
    function Keys(mac: string): seq<Code>
      reads this
    {
      KeysOf(locks, mac)
    }

    /** `get_keys(device_mac=mac)`, with `get_lock_codes`'s WyzeApiError-to-None. */
    method GetKeys(mac: string) returns (r: Option<seq<Code>>)
      modifies this
      ensures r == Listing(Head(old(faults)), old(Keys(mac)))
      ensures faults == Tail(old(faults))
      ensures log == old(log) + [Listed(mac, r)]
      ensures locks == old(locks) && nextId == old(nextId)
      ensures devices == old(devices) && userId == old(userId)
    {
      r := Listing(Head(faults), Keys(mac));
      faults := Tail(faults);
      log := log + [Listed(mac, r)];
    }

    /** `create_access_code`: a new code, owned by `userId`, at the end of the lock's table. */
    method CreateAccessCode(mac: string, accessCode: string, name: string, permission: Permission) returns (r: Response)
      requires Valid()
      modifies this
      ensures Valid()
      ensures r == Answer(Head(old(faults)))
      ensures Applies(Head(old(faults))) ==> locks == old(locks)[mac := old(Keys(mac)) + [Code(old(nextId), name, accessCode, permission, old(userId))]]
      ensures !Applies(Head(old(faults))) ==> locks == old(locks)
      ensures nextId == old(nextId) + (if Applies(Head(old(faults))) then 1 else 0)
      ensures faults == Tail(old(faults))
      ensures log == old(log) + [Created(mac, accessCode, name, permission, r)]
      ensures devices == old(devices) && userId == old(userId)
    {
      var f := Head(faults);
      r := Answer(f);
      if Applies(f) {
        var table := Keys(mac) + [Code(nextId, name, accessCode, permission, userId)];
        assert forall m :: m in locks && m != mac ==> locks[m] == locks[mac := table][m];
        locks := locks[mac := table];
        nextId := nextId + 1;
      }
      faults := Tail(faults);
      log := log + [Created(mac, accessCode, name, permission, r)];
    }

    /** `update_access_code`: the code with id `id` takes the new access code, name and permission. */
    method UpdateAccessCode(mac: string, id: int, accessCode: string, name: string, permission: Permission) returns (r: Response)
      requires Valid()
      modifies this
      ensures Valid()
      ensures r == Answer(Head(old(faults)))
      ensures Applies(Head(old(faults))) ==> locks == old(locks)[mac := WithUpdate(old(Keys(mac)), id, accessCode, name, permission)]
      ensures !Applies(Head(old(faults))) ==> locks == old(locks)
      ensures nextId == old(nextId)
      ensures faults == Tail(old(faults))
      ensures log == old(log) + [Updated(mac, id, accessCode, name, permission, r)]
      ensures devices == old(devices) && userId == old(userId)
    {
      var f := Head(faults);
      r := Answer(f);
      if Applies(f) {
        var table := WithUpdate(Keys(mac), id, accessCode, name, permission);
        locks := locks[mac := table];
      }
      faults := Tail(faults);
      log := log + [Updated(mac, id, accessCode, name, permission, r)];
    }

    /** `delete_access_code`: the lock's table loses the code with id `id`. */
    method DeleteAccessCode(mac: string, id: int) returns (r: Response)
      requires Valid()
      modifies this
      ensures Valid()
      ensures r == Answer(Head(old(faults)))
      ensures Applies(Head(old(faults))) ==> locks == old(locks)[mac := WithoutId(old(Keys(mac)), id)]
      ensures !Applies(Head(old(faults))) ==> locks == old(locks)
      ensures nextId == old(nextId)
      ensures faults == Tail(old(faults))
      ensures log == old(log) + [Deleted(mac, id, r)]
      ensures devices == old(devices) && userId == old(userId)
    {
      var f := Head(faults);
      r := Answer(f);
      if Applies(f) {
        var table := WithoutId(Keys(mac), id);
        WithoutIdUnique(Keys(mac), id);
        forall i | 0 <= i < |table| ensures table[i].id < nextId {
          assert table[i] in Keys(mac);
        }
        locks := locks[mac := table];
      }
      faults := Tail(faults);
      log := log + [Deleted(mac, id, r)];
    }
  }
}

/**
 * The helpers of src/brands/wyze/wyze.py the lock and thermostat engines
 * use: lookups by name, the owner lookup, and the rules that turn a
 * vendor response into the wrappers' return values.
 */
module Wyze {
  import opened Common
  import opened WyzeApi
  import WyzeErrorMapping

  /** The position of the first code named `name`, or `|codes|`. */
  function FindIndex(codes: seq<Code>, name: string): (i: nat)
    ensures i <= |codes|
    ensures forall j :: 0 <= j < i ==> codes[j].name != name
    ensures i < |codes| ==> codes[i].name == name
  {
    if codes == [] then 0
    else if codes[0].name == name then 0
    else 1 + FindIndex(codes[1..], name)
  }

  /** `find_code(existing_codes, label)`: the first code named `name`, else `None`. */
  function FindCode(codes: seq<Code>, name: string): (r: Option<Code>)
    ensures r.None? <==> forall i :: 0 <= i < |codes| ==> codes[i].name != name
    ensures r.Some? ==> r.value.name == name && r.value in codes
    ensures r.Some? ==> exists i :: 0 <= i < |codes| && codes[i] == r.value && forall j :: 0 <= j < i ==> codes[j].name != name
  {
    var i := FindIndex(codes, name);
    if i < |codes| then Some(codes[i]) else None
  }

  /** Appending a code with another name leaves every lookup as it was. */
  lemma {:induction false} FindIndexAppend(codes: seq<Code>, c: Code, name: string)
    ensures c.name != name ==> FindCode(codes + [c], name) == FindCode(codes, name)
    ensures FindCode(codes, name).None? && c.name == name ==> FindCode(codes + [c], name) == Some(c)
  {
    if codes == [] {
      assert [] + [c] == [c];
    } else {
      assert (codes + [c])[1..] == codes[1..] + [c];
      FindIndexAppend(codes[1..], c, name);
    }
  }

  /**
   * An update that keeps a code's name leaves the lookup of every name where
   * it was, and the first code named like the updated one is the updated one.
   */
  lemma {:induction false} FindIndexUpdate(codes: seq<Code>, id: int, accessCode: string, name: string, permission: Permission, other: string)
    requires forall i :: 0 <= i < |codes| && codes[i].id == id ==> codes[i].name == name
    ensures FindIndex(WithUpdate(codes, id, accessCode, name, permission), other) == FindIndex(codes, other)
  {
    var r := WithUpdate(codes, id, accessCode, name, permission);
    if codes != [] {
      assert r[1..] == WithUpdate(codes[1..], id, accessCode, name, permission);
      FindIndexUpdate(codes[1..], id, accessCode, name, permission, other);
    }
  }

  /** `get_device_by_name(client, name)`: the first device so nicknamed; `None` also where listing raises. */
  function GetDeviceByName(devices: Option<seq<DeviceInfo>>, name: string): (r: Option<DeviceInfo>)
    ensures r.Some? ==> devices.Some? && r.value in devices.value && r.value.nickname == name
    ensures r.Some? ==> (exists i :: 0 <= i < |devices.value| && devices.value[i] == r.value && forall j :: 0 <= j < i ==> devices.value[j].nickname != name)
    ensures r.None? <==> devices.None? || forall i :: 0 <= i < |devices.value| ==> devices.value[i].nickname != name
  {
    match devices
    case None => None
    case Some(ds) =>
      var i := DeviceIndex(ds, name);
      if i < |ds| then Some(ds[i]) else None
  }

  function DeviceIndex(ds: seq<DeviceInfo>, name: string): (i: nat)
    ensures i <= |ds|
    ensures forall j :: 0 <= j < i ==> ds[j].nickname != name
    ensures i < |ds| ==> ds[i].nickname == name
  {
    if ds == [] then 0
    else if ds[0].nickname == name then 0
    else 1 + DeviceIndex(ds[1..], name)
  }

  /** The position of the first code with an owner, or `|codes|`. */
  function OwnerIndex(codes: seq<Code>): (i: nat)
    ensures i <= |codes|
    ensures forall j :: 0 <= j < i ==> codes[j].userId.None?
    ensures i < |codes| ==> codes[i].userId.Some?
  {
    if codes == [] then 0
    else if codes[0].userId.Some? then 0
    else 1 + OwnerIndex(codes[1..])
  }

  /**
   * `get_user_id_from_existing_codes(codes, user_id)`: a known id is kept;
   * otherwise the `userid` of the first code that has one; otherwise `None`.
   */
  function GetUserIdFromExistingCodes(codes: seq<Code>, userId: Option<int>): (r: Option<int>)
    ensures userId.Some? ==> r == userId
    ensures userId.None? ==> (r.None? <==> forall i :: 0 <= i < |codes| ==> codes[i].userId.None?)
    ensures userId.None? && r.Some? ==> (exists i :: 0 <= i < |codes| && codes[i].userId == r && forall j :: 0 <= j < i ==> codes[j].userId.None?)
  {
    if userId.Some? then userId
    else
      var i := OwnerIndex(codes);
      if i < |codes| then codes[i].userId else None
  }

  /**
   * What `add_lock_code` and `update_lock_code` return: True for `ErrNo` 0,
   * False for any other `ErrNo`, and `None` (falsy) where the SDK raises.
   */
  function MutationResult(resp: Response): (r: Option<bool>)
    ensures r == Some(true) <==> resp == ErrNo(0)
    ensures r.None? <==> resp.ApiError?
  {
    match resp
    case ApiError => None
    case ErrNo(n) => Some(n == 0)
  }

  /** What `delete_lock_code` returns: True for `ErrNo` 0 and 5021, False for any other, `None` where the SDK raises. */
  function DeleteResult(resp: Response): (r: Option<bool>)
    ensures r == Some(true) <==> resp == ErrNo(0) || resp == ErrNo(5021)
    ensures r == Some(false) <==> resp.ErrNo? && resp.errNo != 0 && resp.errNo != 5021
    ensures r.None? <==> resp.ApiError?
  {
    match resp
    case ApiError => None
    case ErrNo(n) => Some(n == 0 || n == 5021)
  }

  /** The one code a delete accepts besides 0 is the one the error table calls a successful delete; a create or update answered with it fails. */
  lemma AlreadyDeletedIsSuccess()
    ensures WyzeErrorMapping.GetErrorMessage(5021) == WyzeErrorMapping.SuccessfullyDeleted
    ensures DeleteResult(ErrNo(5021)) == Some(true)
    ensures MutationResult(ErrNo(5021)) == Some(false)
  {
  }

  /** `add_lock_code(client, mac, code, label, permission)`. */
  method AddLockCode(acct: Account, mac: string, accessCode: string, name: string, permission: Permission) returns (ok: Option<bool>)
    requires acct.Valid()
    modifies acct
    ensures acct.Valid()
    ensures ok == MutationResult(Answer(Head(old(acct.faults))))
    ensures Applies(Head(old(acct.faults))) ==> acct.locks == old(acct.locks)[mac := old(acct.Keys(mac)) + [Code(old(acct.nextId), name, accessCode, permission, old(acct.userId))]]
    ensures !Applies(Head(old(acct.faults))) ==> acct.locks == old(acct.locks)
    ensures acct.nextId == old(acct.nextId) + (if Applies(Head(old(acct.faults))) then 1 else 0)
    ensures acct.faults == Tail(old(acct.faults))
    ensures acct.log == old(acct.log) + [Created(mac, accessCode, name, permission, Answer(Head(old(acct.faults))))]
    ensures acct.devices == old(acct.devices) && acct.userId == old(acct.userId)
  {
    var resp := acct.CreateAccessCode(mac, accessCode, name, permission);
    ok := MutationResult(resp);
  }

  /** `update_lock_code(client, mac, id, code, label, permission)`. */
  method UpdateLockCode(acct: Account, mac: string, id: int, accessCode: string, name: string, permission: Permission) returns (ok: Option<bool>)
    requires acct.Valid()
    modifies acct
    ensures acct.Valid()
    ensures ok == MutationResult(Answer(Head(old(acct.faults))))
    ensures Applies(Head(old(acct.faults))) ==> acct.locks == old(acct.locks)[mac := WithUpdate(old(acct.Keys(mac)), id, accessCode, name, permission)]
    ensures !Applies(Head(old(acct.faults))) ==> acct.locks == old(acct.locks)
    ensures acct.nextId == old(acct.nextId)
    ensures acct.faults == Tail(old(acct.faults))
    ensures acct.log == old(acct.log) + [Updated(mac, id, accessCode, name, permission, Answer(Head(old(acct.faults))))]
    ensures acct.devices == old(acct.devices) && acct.userId == old(acct.userId)
  {
    var resp := acct.UpdateAccessCode(mac, id, accessCode, name, permission);
    ok := MutationResult(resp);
  }

  /** `delete_lock_code(client, mac, id)`. */
  method DeleteLockCode(acct: Account, mac: string, id: int) returns (ok: Option<bool>)
    requires acct.Valid()
    modifies acct
    ensures acct.Valid()
    ensures ok == DeleteResult(Answer(Head(old(acct.faults))))
    ensures Applies(Head(old(acct.faults))) ==> acct.locks == old(acct.locks)[mac := WithoutId(old(acct.Keys(mac)), id)]
    ensures !Applies(Head(old(acct.faults))) ==> acct.locks == old(acct.locks)
    ensures acct.nextId == old(acct.nextId)
    ensures acct.faults == Tail(old(acct.faults))
    ensures acct.log == old(acct.log) + [Deleted(mac, id, Answer(Head(old(acct.faults))))]
    ensures acct.devices == old(acct.devices) && acct.userId == old(acct.userId)
  {
    var resp := acct.DeleteAccessCode(mac, id);
    ok := DeleteResult(resp);
  }

  /** A member of `ThermostatSystemMode` or `ThermostatFanMode`: its `codes` and `description`. */
  datatype Mode = Mode(codes: string, description: string)

  /** Whether `mode` answers to the normalised input. */
  predicate Answers(mode: Mode, normalized: string) {
    normalized == mode.codes || normalized == Lower(mode.description)
  }

  /**
   * `map_to_thermostat_mode` and `map_to_fan_mode`, over the enumeration's
   * members in declaration order: the first member whose code or lowercased
   * description equals the stripped, lowercased input.
   */
  function MapToMode(modes: seq<Mode>, input: string): (r: Option<Mode>)
    ensures r.None? <==> forall i :: 0 <= i < |modes| ==> !Answers(modes[i], Lower(Strip(input)))
    ensures r.Some? ==> (exists i :: 0 <= i < |modes| && modes[i] == r.value && Answers(r.value, Lower(Strip(input))) && forall j :: 0 <= j < i ==> !Answers(modes[j], Lower(Strip(input))))
  {
    var i := ModeIndex(modes, Lower(Strip(input)));
    if i < |modes| then Some(modes[i]) else None
  }

  function ModeIndex(modes: seq<Mode>, normalized: string): (i: nat)
    ensures i <= |modes|
    ensures forall j :: 0 <= j < i ==> !Answers(modes[j], normalized)
    ensures i < |modes| ==> Answers(modes[i], normalized)
  {
    if modes == [] then 0
    else if Answers(modes[0], normalized) then 0
    else 1 + ModeIndex(modes[1..], normalized)
  }

  /** Surrounding whitespace in the input does not change the mode chosen. */
  lemma {:induction false} MapToModeNormalises(modes: seq<Mode>, lead: string, input: string, trail: string)
    requires AllSpace(lead) && AllSpace(trail)
    requires input == Strip(input)
    ensures MapToMode(modes, lead + input + trail) == MapToMode(modes, input)
  {
    StripPadded(lead, input, trail);
  }
}
