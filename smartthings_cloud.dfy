/**
 * The SmartThings cloud as the lock engine reaches it through
 * src/brands/smartthings/smartthings.py: the lock views of one location and
 * the four calls the engine makes (`get_locks`, `refresh_lock_data`,
 * `add_user_code`, `delete_user_code`). What the cloud does on each call
 * comes from a script of faults consumed one per call; an exhausted script
 * behaves normally. Every call is recorded in a ghost log.
 */
module SmartThingsCloud {
  import opened Common
  import opened SmartThings

  /**
   * How the cloud treats one call. `Normal` performs it. `Refused` is a
   * non-200 answer: a write changes nothing and gives False; a read makes
   * `get_devices` return None, which `filter_locks` then fails to iterate.
   * `Broken(e)` raises `e` inside the call: a write catches it and gives
   * False, a read passes it on. `Lost` answers a write with 200 although the
   * lock never applies it; a read under it is normal.
   */
  datatype Fault = Normal | Refused | Lost | Broken(detail: string)

  /** What `get_locks` produces: the lock views, or the text of what it raised. */
  datatype Listing = Views(locks: seq<LockView>) | Failed(detail: string)

  datatype Call =
    | Listed(result: Listing)
    | SetCode(lockId: string, slot: int, code: string, name: string, ok: bool)
    | DeleteCode(lockId: string, userId: int, ok: bool)

  function Head(fs: seq<Fault>): Fault {
    if fs == [] then Normal else fs[0]
  }

  function Tail(fs: seq<Fault>): seq<Fault> {
    if fs == [] then [] else fs[1..]
  }

  /** A cloud that performs every call as asked. */
  predicate Quiet(fs: seq<Fault>) {
    forall i :: 0 <= i < |fs| ==> fs[i] == Normal
  }

  lemma QuietTail(fs: seq<Fault>)
    requires Quiet(fs)
    ensures Head(fs) == Normal && Quiet(Tail(fs))
  {
    if fs != [] {
      assert fs[0] == Normal;
      forall i | 0 <= i < |fs[1..]| ensures fs[1..][i] == Normal {
        assert fs[1..][i] == fs[i + 1];
      }
    }
  }

  /** A write under `f` is answered with 200. */
  predicate Accepts(f: Fault) {
    f.Normal? || f.Lost?
  }

  /** What `get_locks` gives under `f` when the location's locks are `locks`. */
  function ListingUnder(f: Fault, locks: seq<LockView>): (r: Listing)
    ensures r.Views? <==> f.Normal? || f.Lost?
    ensures r.Views? ==> r.locks == locks
    ensures f.Refused? ==> r == Failed(NoneNotIterable)
    ensures f.Broken? ==> r == Failed(f.detail)
  {
    match f
    case Normal => Views(locks)
    case Lost => Views(locks)
    case Refused => Failed(NoneNotIterable)
    case Broken(e) => Failed(e)
  }

  /**
   * `refresh_lock_data` given what `get_locks` produced: nothing when the
   * listing failed, was empty or lacks the lock.
   */
  function Refreshed(l: Listing, lockName: string): (r: Option<LockView>)
    ensures l.Failed? ==> r.None?
    ensures l.Views? ==> r == FindLockByName(l.locks, lockName)
  {
    if l.Failed? || l.locks == [] then None else FindLockByName(l.locks, lockName)
  }

  // ---------------------------------------------------------------------------
  // What the two writes do to a lock's table
  // ---------------------------------------------------------------------------

  /** Every slot number the table holds is positive: a lock numbers its slots from 1. */
  predicate Slotted(users: seq<User>) {
    forall i :: 0 <= i < |users| ==> users[i].id >= 1
  }

  /** `setCode(slot, code, name)`: the entry of that slot takes the name, or a new entry is appended. */
  function SetSlot(users: seq<User>, slot: int, name: string): (r: seq<User>)
    ensures slot !in IdSet(users) ==> r == users + [User(slot, name)]
    ensures forall u :: u in r ==> u in users || u == User(slot, name)
    ensures User(slot, name) in r
  {
    if users == [] then [User(slot, name)]
    else if users[0].id == slot then [User(slot, name)] + users[1..]
    else
      assert slot !in IdSet(users) ==> slot !in IdSet(users[1..]) by {
        if slot in IdSet(users[1..]) {
          var i :| 0 <= i < |users[1..]| && users[1..][i].id == slot;
          assert users[i + 1].id == slot;
        }
      }
      [users[0]] + SetSlot(users[1..], slot, name)
  }

  /** `deleteCode(id)`: every entry of that slot goes. */
  function DropSlot(users: seq<User>, id: int): (r: seq<User>)
    ensures forall u :: u in r <==> u in users && u.id != id
  {
    if users == [] then []
    else if users[0].id == id then DropSlot(users[1..], id)
    else [users[0]] + DropSlot(users[1..], id)
  }

  /** One write: set a slot, or delete one. */
  datatype Edit = Put(slot: int, name: string) | Drop(id: int)

  function Apply(users: seq<User>, e: Edit): seq<User> {
    match e
    case Put(slot, name) => SetSlot(users, slot, name)
    case Drop(id) => DropSlot(users, id)
  }

  /** The write applied to the lock with id `lockId`. */
  function EditView(v: LockView, lockId: string, e: Edit): (r: LockView)
    ensures r.lockId == v.lockId && r.lockName == v.lockName
  {
    if v.lockId == lockId then v.(users := Apply(v.users, e)) else v
  }

  /** The write applied to every lock the location lists with id `lockId`. */
  function EditLocks(locks: seq<LockView>, lockId: string, e: Edit): (r: seq<LockView>)
    ensures |r| == |locks|
    ensures forall i :: 0 <= i < |locks| ==> r[i] == EditView(locks[i], lockId, e)
  {
    if locks == [] then [] else [EditView(locks[0], lockId, e)] + EditLocks(locks[1..], lockId, e)
  }

  /** A write leaves names alone, so the lock found by name is the one found before, edited. */
  lemma FindEdited(locks: seq<LockView>, lockId: string, e: Edit, lockName: string)
    ensures FindLockByName(EditLocks(locks, lockId, e), lockName)
         == if FindLockByName(locks, lockName).None? then None
            else Some(EditView(FindLockByName(locks, lockName).value, lockId, e))
  {
    LockIndexByNames(EditLocks(locks, lockId, e), locks, lockName);
  }

  /** A write that sets a positive slot or deletes one keeps a table well formed. */
  lemma EditKeepsWellFormed(users: seq<User>, e: Edit)
    requires WellFormed(users)
    requires e.Put? ==> e.slot >= 1
    ensures WellFormed(Apply(users, e))
  {
    if e.Put? { SetSlotUnique(users, e.slot, e.name); } else { DropSlotUnique(users, e.id); }
    var r := Apply(users, e);
    forall i | 0 <= i < |r| ensures r[i].id >= 1 {
      assert r[i] in r;
      if e.Drop? || r[i] != User(e.slot, e.name) {
        var k :| 0 <= k < |users| && users[k] == r[i];
      }
    }
  }

  /** A name the table lacks is found, at its new slot, once that slot is set. */
  lemma {:induction false} FindPut(users: seq<User>, slot: int, name: string)
    requires slot !in IdSet(users)
    requires FindUserIdByName(users, name).None?
    ensures FindUserIdByName(SetSlot(users, slot, name), name) == Some(slot)
  {
    if users != [] {
      assert users[0].name != name;
      assert slot !in IdSet(users[1..]);
      FindPut(users[1..], slot, name);
      assert SetSlot(users, slot, name)[1..] == SetSlot(users[1..], slot, name);
    }
  }

  /** No two entries share a slot, as in the dict a lock reports. */
  predicate UniqueSlots(users: seq<User>) {
    forall i, j :: 0 <= i < j < |users| ==> users[i].id != users[j].id
  }

  /** No two entries share a name. */
  predicate DistinctNames(users: seq<User>) {
    forall i, j :: 0 <= i < j < |users| ==> users[i].name != users[j].name
  }

  /** A table the location can report: positive, distinct slot numbers. */
  predicate WellFormed(users: seq<User>) {
    Slotted(users) && UniqueSlots(users)
  }

  lemma {:induction false} SetSlotUnique(users: seq<User>, slot: int, name: string)
    requires UniqueSlots(users)
    ensures UniqueSlots(SetSlot(users, slot, name))
  {
    if users != [] && users[0].id != slot {
      SetSlotUnique(users[1..], slot, name);
      var r := SetSlot(users, slot, name);
      forall k | 1 <= k < |r| ensures r[k].id != users[0].id {
        assert r[k] in SetSlot(users[1..], slot, name);
        if r[k] != User(slot, name) {
          var m :| 0 <= m < |users[1..]| && users[1..][m] == r[k];
          assert users[m + 1] == r[k];
        }
      }
    } else if users != [] {
      assert forall k :: 1 <= k < |users| ==> users[k].id != slot by {
        forall k | 1 <= k < |users| ensures users[k].id != slot { assert users[0].id != users[k].id; }
      }
    }
  }

  /** What is left of a table keeps its distinct slots. */
  lemma {:induction false} DropSlotUnique(users: seq<User>, id: int)
    requires UniqueSlots(users)
    ensures UniqueSlots(DropSlot(users, id))
  {
    if users != [] {
      DropSlotUnique(users[1..], id);
      var rest := DropSlot(users[1..], id);
      forall k | 0 <= k < |rest| ensures rest[k].id != users[0].id {
        assert rest[k] in rest;
        var m :| 0 <= m < |users[1..]| && users[1..][m] == rest[k];
        assert users[m + 1] == rest[k];
      }
    }
  }

  /** What is left of a table keeps its distinct names. */
  lemma {:induction false} DropSlotDistinct(users: seq<User>, id: int)
    requires DistinctNames(users)
    ensures DistinctNames(DropSlot(users, id))
  {
    if users != [] {
      DropSlotDistinct(users[1..], id);
      var rest := DropSlot(users[1..], id);
      forall k | 0 <= k < |rest| ensures rest[k].name != users[0].name {
        assert rest[k] in rest;
        var m :| 0 <= m < |users[1..]| && users[1..][m] == rest[k];
        assert users[m + 1] == rest[k];
      }
    }
  }

  lemma {:induction false} FindAppend(users: seq<User>, u: User, name: string)
    ensures u.name != name ==> FindUserIdByName(users + [u], name) == FindUserIdByName(users, name)
    ensures u.name == name && FindUserIdByName(users, name).None? ==> FindUserIdByName(users + [u], name) == Some(u.id)
  {
    if users != [] {
      assert (users + [u])[1..] == users[1..] + [u];
      FindAppend(users[1..], u, name);
    }
  }

  /**
   * Deleting a slot whose entries all bear another name leaves the first
   * entry of `name`, and so the id found for it, in place.
   */
  lemma {:induction false} FindDropOther(users: seq<User>, id: int, name: string)
    requires forall i :: 0 <= i < |users| && users[i].id == id ==> users[i].name != name
    ensures FindUserIdByName(DropSlot(users, id), name) == FindUserIdByName(users, name)
  {
    if users != [] {
      assert forall i :: 0 <= i < |users[1..]| ==> users[1..][i] == users[i + 1];
      FindDropOther(users[1..], id, name);
    }
  }

  /** Deleting the slot of a name the table holds once leaves no entry of that name. */
  lemma FindDropped(users: seq<User>, name: string)
    requires FindUserIdByName(users, name).Some?
    requires DistinctNames(users)
    ensures FindUserIdByName(DropSlot(users, FindUserIdByName(users, name).value), name).None?
  {
    var id := FindUserIdByName(users, name).value;
    var r := DropSlot(users, id);
    var i0 :| 0 <= i0 < |users| && users[i0] == User(id, name) && forall j :: 0 <= j < i0 ==> users[j].name != name;
    forall i | 0 <= i < |r| ensures r[i].name != name {
      assert r[i] in r;
      var k :| 0 <= k < |users| && users[k] == r[i];
      assert k == i0 || users[k].name != name;
    }
  }

  // ---------------------------------------------------------------------------
  // The cloud
  // ---------------------------------------------------------------------------

  predicate TablesWellFormed(locks: seq<LockView>) {
    forall i :: 0 <= i < |locks| ==> WellFormed(locks[i].users)
  }

  class Cloud {
    /** The lock views of the location: each lock's id, label and slot table. */
    var locks: seq<LockView>
    var faults: seq<Fault>
    ghost var log: seq<Call>

    /** Every table the cloud reports is well formed. */
    ghost predicate Valid()
      reads this
    {
      TablesWellFormed(locks)
    }

    constructor (locks: seq<LockView>, faults: seq<Fault>)
      ensures this.locks == locks && this.faults == faults && log == []
    {
      this.locks := locks;
      this.faults := faults;
      log := [];
    }

    /** Takes the fault that decides the current call. */
    method NextFault() returns (f: Fault)
      modifies this
      ensures f == Head(old(faults)) && faults == Tail(old(faults))
      ensures locks == old(locks) && log == old(log)
    {
      f := Head(faults);
      faults := Tail(faults);
    }

    /** `get_locks(location_id)`: the lock views, or what the listing raised. */
    method GetLocks() returns (r: Listing)
      modifies this
      ensures r == ListingUnder(Head(old(faults)), locks)
      ensures locks == old(locks) && faults == Tail(old(faults)) && log == old(log) + [Listed(r)]
    {
      var f := NextFault();
      r := ListingUnder(f, locks);
      log := log + [Listed(r)];
    }

    /** `refresh_lock_data(location_id, lock_name)`: the lock's fresh view, or nothing when the read fails. */
    method RefreshLockData(lockName: string) returns (r: Option<LockView>)
      modifies this
      ensures Accepts(Head(old(faults))) ==> r == FindLockByName(locks, lockName)
      ensures !Accepts(Head(old(faults))) ==> r.None?
      ensures locks == old(locks) && faults == Tail(old(faults))
      ensures log == old(log) + [Listed(ListingUnder(Head(old(faults)), locks))]
    {
      var l := GetLocks();
      r := Refreshed(l, lockName);
    }

    /**
     * `add_user_code(lock, user_name, code)`: a code that is not a non-empty
     * run of digits is refused before any request; otherwise the code goes to
     * the first free slot of the engine's view of the lock.
     */
    method AddUserCode(lock: LockView, userName: string, code: string) returns (ok: bool, ghost slot: int)
      modifies this
      ensures !ValidCode(code) ==> !ok && locks == old(locks) && faults == old(faults) && log == old(log)
      ensures ValidCode(code) ==>
        && slot !in IdSet(lock.users)
        && (slot >= 1 ==> forall k :: 1 <= k < slot ==> k in IdSet(lock.users))
        && (Slotted(lock.users) ==> slot >= 1)
        && ok == Accepts(Head(old(faults)))
        && faults == Tail(old(faults))
        && locks == (if Head(old(faults)).Normal? then EditLocks(old(locks), lock.lockId, Put(slot, userName)) else old(locks))
        && log == old(log) + [SetCode(lock.lockId, slot, code, userName, ok)]
      ensures old(Valid()) && Slotted(lock.users) ==> Valid()
    {
      if !ValidCode(code) {
        return false, 0;
      }
      var id := FindNextAvailableUserId(lock.users);
      slot := id;
      var f := NextFault();
      if f.Normal? {
        if old(Valid()) && Slotted(lock.users) {
          forall i | 0 <= i < |locks| ensures WellFormed(EditLocks(locks, lock.lockId, Put(id, userName))[i].users) {
            if locks[i].lockId == lock.lockId {
              EditKeepsWellFormed(locks[i].users, Put(id, userName));
            }
          }
        }
        locks := EditLocks(locks, lock.lockId, Put(id, userName));
      }
      ok := Accepts(f);
      log := log + [SetCode(lock.lockId, id, code, userName, ok)];
    }

    /** `delete_user_code(lock, user_id)`: empties one slot of the lock. */
    method DeleteUserCode(lock: LockView, userId: int) returns (ok: bool)
      modifies this
      ensures ok == Accepts(Head(old(faults))) && faults == Tail(old(faults))
      ensures locks == (if Head(old(faults)).Normal? then EditLocks(old(locks), lock.lockId, Drop(userId)) else old(locks))
      ensures log == old(log) + [DeleteCode(lock.lockId, userId, ok)]
      ensures old(Valid()) ==> Valid()
    {
      var f := NextFault();
      if f.Normal? {
        if old(Valid()) {
          forall i | 0 <= i < |locks| ensures WellFormed(EditLocks(locks, lock.lockId, Drop(userId))[i].users) {
            if locks[i].lockId == lock.lockId {
              EditKeepsWellFormed(locks[i].users, Drop(userId));
            }
          }
        }
        locks := EditLocks(locks, lock.lockId, Drop(userId));
      }
      ok := Accepts(f);
      log := log + [DeleteCode(lock.lockId, userId, ok)];
    }
  }
}
