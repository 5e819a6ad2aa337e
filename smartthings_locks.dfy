/**
 * The SmartThings lock engine, `sync` in src/brands/smartthings/locks.py:
 * find the location and the lock, then for each reservation record its
 * label as active while its stay has not ended, and create the code of a
 * stay under way when the lock does not show it, with bounded retry and a
 * read-back after every accepted write; finally re-read the lock and delete
 * every guest code whose label is not active, confirming each deletion by
 * another read. Every exception the body raises ends the run with one
 * "Error in SmartThings Lock function" entry.
 */
module SmartThingsLocks {
  import opened Common
  import opened SmartThings
  import opened SmartThingsCloud
  import opened Reservations
  import Clock
  import Utility

  // ---------------------------------------------------------------------------
  // Messages (`Device.LOCK.value` is "Lock")
  // ---------------------------------------------------------------------------

  function LocationMissing(lockName: string, propertyName: string): string {
    "Unable to fetch location ID for Lock '" + lockName + "' at " + propertyName + "."
  }

  function MissingGuest(propertyName: string): string {
    "\U{1F50D} Missing Data: Reservation is missing guest name for `" + propertyName
    + "`. Skipping lock code management for this reservation."
  }

  function MissingPhone(first: string, propertyName: string): string {
    "\U{1F4F1} Missing Phone Number: Guest `" + first + "` has no phone number associated with their reservation at `"
    + propertyName + "`. Skipping code creation."
  }

  function PhoneTooShort(first: string, propertyName: string): string {
    "\U{1F4F1} Invalid Phone Number: Phone number for guest `" + first + "` at `" + propertyName
    + "` doesn't have enough digits. Skipping code creation."
  }

  function PhoneFailed(first: string, propertyName: string, detail: string): string {
    "\U{1F4F1} Phone Number Error: Failed to process phone number for guest `" + first + "` at `" + propertyName
    + "`. Error: " + detail
  }

  function AddVerifyFailed(addMax: nat, lockName: string, name: string): string {
    "\U{1F510} Failed to add and verify Lock code after " + IntToString(addMax) + " attempts for " + lockName + ": " + name
  }

  function AddFailed(lockName: string, name: string, attempt: nat): string {
    "\U{1F510} Failed to add Lock code for " + lockName + ": " + name + " (attempt " + IntToString(attempt) + ")"
  }

  function NeverVerified(lockName: string, name: string): string {
    "\U{274C} Failed to add and verify Lock code after all attempts for " + lockName + ": " + name
  }

  function DeleteUnverified(name: string, propertyName: string): string {
    "\U{26A0}\U{FE0F} Failed to verify deletion of Lock code `" + name + "` at `" + propertyName + "`"
  }

  function DeleteFailed(lockName: string, name: string): string {
    "Deleting Lock Code for " + lockName + ": " + name
  }

  function Failure(detail: string): string {
    "Error in SmartThings Lock function: " + detail
  }

  // ---------------------------------------------------------------------------
  // What each reservation asks of the lock
  // ---------------------------------------------------------------------------

  /**
   * What the loop body makes of a reservation before it looks at the lock:
   * an error entry (`Skip`), an exception (`Raises`), or a label with its
   * code, whether the label stays active (the stay has not ended) and
   * whether the code is due (the stay is under way).
   */
  datatype Plan = Skip(screening: Screening) | Raises(detail: string) | Book(name: string, rawCode: string, active: bool, create: bool)

  /** Lines 65-114, in their order: screening, label, both window ends, the two time tests. */
  function PlanFor(r: Reservation, cfg: Config, currentTime: int): (p: Plan)
    ensures p.Skip? <==> Screen(r).NoGuest? || Screen(r).NoPhone? || Screen(r).PhoneError? || Screen(r).ShortPhone?
    ensures p.Skip? ==> p.screening == Screen(r)
    ensures Screen(r).GuestRaises? ==> p == Raises(Screen(r).detail)
    ensures Screen(r).BlankGuest? ==> p == Raises(IndexOutOfRange)
    ensures Screen(r).Accepted? && Clock.FormatDatetime(r.checkin, cfg.checkInOffset).None? ==> p == Raises(Clock.BadTimestamp(r.checkin))
    ensures (Screen(r).Accepted? && Clock.FormatDatetime(r.checkin, cfg.checkInOffset).Some?
             && Clock.FormatDatetime(r.checkout, cfg.checkOutOffset).None?) ==> p == Raises(Clock.BadTimestamp(r.checkout))
    ensures p.Book? <==>
      Screen(r).Accepted? && Clock.FormatDatetime(r.checkin, cfg.checkInOffset).Some? && Clock.FormatDatetime(r.checkout, cfg.checkOutOffset).Some?
    ensures p.Book? ==> p.name == Label(Screen(r).first, r.checkin) && p.rawCode == Screen(r).rawCode
    ensures p.Book? ==> (p.active <==> currentTime < Clock.FormatDatetime(r.checkout, cfg.checkOutOffset).value)
    ensures p.Book? ==> (p.create <==> Clock.FormatDatetime(r.checkin, cfg.checkInOffset).value <= currentTime
                                        < Clock.FormatDatetime(r.checkout, cfg.checkOutOffset).value)
  {
    match Screen(r)
    case NoGuest => Skip(NoGuest)
    case GuestRaises(e) => Raises(e)
    case BlankGuest => Raises(IndexOutOfRange)
    case NoPhone(f) => Skip(NoPhone(f))
    case PhoneError(f, e) => Skip(PhoneError(f, e))
    case ShortPhone(f) => Skip(ShortPhone(f))
    case Accepted(first, rawCode) =>
      match Clock.FormatDatetime(r.checkin, cfg.checkInOffset)
      case None => Raises(Clock.BadTimestamp(r.checkin))
      case Some(begin) =>
        match Clock.FormatDatetime(r.checkout, cfg.checkOutOffset)
        case None => Raises(Clock.BadTimestamp(r.checkout))
        case Some(end) =>
          Book(Label(first, r.checkin), rawCode, currentTime < end, begin <= currentTime < end)
  }

  /** A code that is due belongs to a label that stays active, so the cleanup never deletes it. */
  lemma DueIsActive(r: Reservation, cfg: Config, currentTime: int)
    requires PlanFor(r, cfg, currentTime).Book? && PlanFor(r, cfg, currentTime).create
    ensures PlanFor(r, cfg, currentTime).active
  {
  }

  function SkipMessage(s: Screening, propertyName: string): string {
    match s
    case NoPhone(first) => MissingPhone(first, propertyName)
    case PhoneError(first, e) => PhoneFailed(first, propertyName, e)
    case ShortPhone(first) => PhoneTooShort(first, propertyName)
    case _ => MissingGuest(propertyName)
  }

  function Plans(rs: seq<Reservation>, cfg: Config, currentTime: int): seq<Plan> {
    seq(|rs|, j requires 0 <= j < |rs| => PlanFor(rs[j], cfg, currentTime))
  }

  /** `active_guest_user_names` after the loop: the labels of the stays not yet ended, in order. */
  function ActiveLabels(ps: seq<Plan>): (r: seq<string>)
    ensures forall n :: n in r <==> exists j :: 0 <= j < |ps| && ps[j].Book? && ps[j].active && ps[j].name == n
  {
    if ps == [] then []
    else
      var init := ActiveLabels(ps[..|ps| - 1]);
      var p := ps[|ps| - 1];
      assert forall j :: 0 <= j < |ps| - 1 ==> ps[..|ps| - 1][j] == ps[j];
      if p.Book? && p.active then init + [p.name] else init
  }

  /** How many reservations have a code due. */
  function DueCount(ps: seq<Plan>): (n: nat)
    ensures n <= |ps|
  {
    if ps == [] then 0
    else DueCount(ps[..|ps| - 1]) + (if ps[|ps| - 1].Book? && ps[|ps| - 1].create then 1 else 0)
  }

  // ---------------------------------------------------------------------------
  // Counting writes
  // ---------------------------------------------------------------------------

  ghost function SetCodes(log: seq<Call>): nat {
    if log == [] then 0 else SetCodes(log[..|log| - 1]) + (if log[|log| - 1].SetCode? then 1 else 0)
  }

  ghost function DeleteCodes(log: seq<Call>): nat {
    if log == [] then 0 else DeleteCodes(log[..|log| - 1]) + (if log[|log| - 1].DeleteCode? then 1 else 0)
  }

  lemma CountsAppend(log: seq<Call>, c: Call)
    ensures SetCodes(log + [c]) == SetCodes(log) + (if c.SetCode? then 1 else 0)
    ensures DeleteCodes(log + [c]) == DeleteCodes(log) + (if c.DeleteCode? then 1 else 0)
  {
    assert (log + [c])[..|log|] == log;
  }

  // ---------------------------------------------------------------------------
  // Creating a code
  // ---------------------------------------------------------------------------

  /**
   * Lines 125-138: up to `verifyMax` fresh reads of the lock, stopping at the
   * first that shows the label. What it returns is the cloud's own view of
   * the lock.
   */
  method VerifyAdd(cloud: Cloud, lockName: string, name: string, verifyMax: nat) returns (found: Option<LockView>)
    modifies cloud
    ensures cloud.locks == old(cloud.locks)
    ensures found.Some? ==> found == FindLockByName(cloud.locks, lockName) && Shows(found.value.users, name)
    ensures found.None? ==> |cloud.log| == |old(cloud.log)| + verifyMax
    ensures SetCodes(cloud.log) == SetCodes(old(cloud.log)) && DeleteCodes(cloud.log) == DeleteCodes(old(cloud.log))
    ensures Quiet(old(cloud.faults)) ==> Quiet(cloud.faults)
    ensures (Quiet(old(cloud.faults)) && verifyMax >= 1 && FindLockByName(cloud.locks, lockName).Some?
             && Shows(FindLockByName(cloud.locks, lockName).value.users, name)) ==> found.Some?
  {
    found := None;
    var v := 1;
    while v <= verifyMax
      invariant 1 <= v <= verifyMax + 1 || (verifyMax == 0 && v == 1)
      invariant cloud.locks == old(cloud.locks)
      invariant |cloud.log| == |old(cloud.log)| + v - 1
      invariant SetCodes(cloud.log) == SetCodes(old(cloud.log)) && DeleteCodes(cloud.log) == DeleteCodes(old(cloud.log))
      invariant Quiet(old(cloud.faults)) ==> Quiet(cloud.faults)
      invariant (Quiet(old(cloud.faults)) && FindLockByName(cloud.locks, lockName).Some?
                 && Shows(FindLockByName(cloud.locks, lockName).value.users, name)) ==> v == 1
    {
      ghost var log0 := cloud.log;
      if Quiet(cloud.faults) { QuietTail(cloud.faults); }
      var refreshed := cloud.RefreshLockData(lockName);
      CountsAppend(log0, cloud.log[|cloud.log| - 1]);
      if refreshed.Some? && Shows(refreshed.value.users, name) {
        found := refreshed;
        return;
      }
      v := v + 1;
    }
  }

  /** A name the lock lacks shows, once its free slot is set, in the cloud's next view of the lock. */
  lemma PutShows(locks: seq<LockView>, view: LockView, lockName: string, slot: int, name: string)
    requires FindLockByName(locks, lockName) == Some(view)
    requires slot !in IdSet(view.users) && slot >= 1
    requires FindUserIdByName(view.users, name).None?
    ensures FindLockByName(EditLocks(locks, view.lockId, Put(slot, name)), lockName) == Some(view.(users := view.users + [User(slot, name)]))
    ensures Shows(view.users + [User(slot, name)], name)
  {
    FindEdited(locks, view.lockId, Put(slot, name), lockName);
    FindPut(view.users, slot, name);
  }

  /**
   * One pass of lines 121-149: `add_user_code`, and when it is accepted the
   * verify reads. `aborted` is the UnboundLocalError of line 142 when no
   * verify read is configured; `refused` says the add itself gave False.
   */
  method AddAttempt(cloud: Cloud, view: LockView, lockName: string, name: string, rawCode: string, verifyMax: nat)
    returns (found: Option<LockView>, aborted: bool, refused: bool, ghost slot: int)
    modifies cloud
    ensures found.Some? ==> !aborted && !refused
    ensures found.Some? ==> found == FindLockByName(cloud.locks, lockName) && Shows(found.value.users, name)
    ensures aborted ==> verifyMax == 0 && found.None? && !refused
    ensures SetCodes(cloud.log) <= SetCodes(old(cloud.log)) + 1
    ensures DeleteCodes(cloud.log) == DeleteCodes(old(cloud.log))
    ensures old(cloud.Valid()) && Slotted(view.users) ==> cloud.Valid()
    ensures Quiet(old(cloud.faults)) ==> Quiet(cloud.faults)
    ensures (Quiet(old(cloud.faults)) && verifyMax >= 1 && ValidCode(rawCode)
             && Slotted(view.users) && FindLockByName(old(cloud.locks), lockName) == Some(view)
             && FindUserIdByName(view.users, name).None?) ==>
      && found == Some(view.(users := view.users + [User(slot, name)]))
      && slot !in IdSet(view.users) && slot >= 1
  {
    found, aborted, refused, slot := None, false, false, 0;
    ghost var quiet := Quiet(cloud.faults) && verifyMax >= 1 && ValidCode(rawCode) && Slotted(view.users)
                       && FindLockByName(cloud.locks, lockName) == Some(view) && FindUserIdByName(view.users, name).None?;
    ghost var log0 := cloud.log;
    if Quiet(cloud.faults) { QuietTail(cloud.faults); }
    var ok;
    ok, slot := cloud.AddUserCode(view, name, rawCode);
    if ValidCode(rawCode) { CountsAppend(log0, cloud.log[|cloud.log| - 1]); }
    if !ok {
      refused := true;
      return;
    }
    if verifyMax == 0 {
      aborted := true;
      return;
    }
    if quiet {
      PutShows(old(cloud.locks), view, lockName, slot, name);
    }
    found := VerifyAdd(cloud, lockName, name, verifyMax);
  }

  /**
   * The errors of a label no attempt verified: the error of the last attempt
   * (line 145 or line 151, depending on whether its add was refused), then
   * the closing error of line 162.
   */
  function GaveUp(addMax: nat, refused: bool, lockName: string, name: string): (r: seq<string>)
    ensures |r| == (if addMax == 0 then 1 else 2) && r[|r| - 1] == NeverVerified(lockName, name)
  {
    if addMax == 0 then [NeverVerified(lockName, name)]
    else [if refused then AddFailed(lockName, name, addMax) else AddVerifyFailed(addMax, lockName, name), NeverVerified(lockName, name)]
  }

  /**
   * Lines 117-165 for one label: up to `addMax` attempts, then the errors of
   * giving up when none was verified; `refused` says the last add was refused.
   */
  method AddCode(cloud: Cloud, view: LockView, lockName: string, name: string, rawCode: string, cfg: Config)
    returns (found: Option<LockView>, errors: seq<string>, aborted: bool, refused: bool, ghost slot: int)
    modifies cloud
    ensures found.Some? ==> !aborted && errors == []
    ensures found.Some? ==> found == FindLockByName(cloud.locks, lockName) && Shows(found.value.users, name)
    ensures aborted ==> cfg.verifyMax == 0 && found.None? && errors == []
    ensures found.None? && !aborted ==> errors == GaveUp(cfg.addMax, refused, lockName, name)
    ensures SetCodes(cloud.log) <= SetCodes(old(cloud.log)) + cfg.addMax
    ensures DeleteCodes(cloud.log) == DeleteCodes(old(cloud.log))
    ensures old(cloud.Valid()) && Slotted(view.users) ==> cloud.Valid()
    ensures Quiet(old(cloud.faults)) ==> Quiet(cloud.faults)
    ensures (Quiet(old(cloud.faults)) && cfg.addMax >= 1 && cfg.verifyMax >= 1 && ValidCode(rawCode)
             && Slotted(view.users) && FindLockByName(old(cloud.locks), lockName) == Some(view)
             && FindUserIdByName(view.users, name).None?) ==>
      && found == Some(view.(users := view.users + [User(slot, name)]))
      && slot !in IdSet(view.users) && slot >= 1
  {
    found, errors, aborted, refused, slot := None, [], false, false, 0;
    ghost var quiet := Quiet(cloud.faults) && cfg.verifyMax >= 1 && ValidCode(rawCode) && Slotted(view.users)
                       && FindLockByName(cloud.locks, lockName) == Some(view) && FindUserIdByName(view.users, name).None?;
    var attempt := 1;
    while attempt <= cfg.addMax
      invariant 1 <= attempt <= cfg.addMax + 1 || (cfg.addMax == 0 && attempt == 1)
      invariant found.None? && !aborted
      invariant SetCodes(cloud.log) <= SetCodes(old(cloud.log)) + attempt - 1
      invariant DeleteCodes(cloud.log) == DeleteCodes(old(cloud.log))
      invariant old(cloud.Valid()) && Slotted(view.users) ==> cloud.Valid()
      invariant Quiet(old(cloud.faults)) ==> Quiet(cloud.faults)
      invariant quiet ==> attempt == 1 && cloud.locks == old(cloud.locks)
    {
      found, aborted, refused, slot := AddAttempt(cloud, view, lockName, name, rawCode, cfg.verifyMax);
      if found.Some? || aborted {
        return;
      }
      attempt := attempt + 1;
    }
    errors := GaveUp(cfg.addMax, refused, lockName, name);
  }

  // ---------------------------------------------------------------------------
  // The reservation loop
  // ---------------------------------------------------------------------------

  /** A reservation whose code is due: its stay is under way. */
  predicate Due(p: Plan) {
    p.Book? && p.create
  }

  /** Every due label among the first `i` plans shows on the table. */
  predicate DueShown(users: seq<User>, ps: seq<Plan>, i: int) {
    forall j :: 0 <= j < i && j < |ps| && Due(ps[j]) ==> Shows(users, ps[j].name)
  }

  /** No reservation makes the loop raise. */
  predicate NoRaises(ps: seq<Plan>) {
    forall j :: 0 <= j < |ps| ==> !ps[j].Raises?
  }

  /** Every code the plans carry passes `add_user_code`'s check. */
  predicate CodesValid(ps: seq<Plan>) {
    forall j :: 0 <= j < |ps| && ps[j].Book? ==> ValidCode(ps[j].rawCode)
  }

  /** The error entries of the reservations the validation turns away, in order. */
  function SkipErrors(ps: seq<Plan>, propertyName: string): seq<string> {
    if ps == [] then []
    else
      SkipErrors(ps[..|ps| - 1], propertyName)
      + (if ps[|ps| - 1].Skip? then [SkipMessage(ps[|ps| - 1].screening, propertyName)] else [])
  }

  /** A table with positive slots shows exactly the names it holds. */
  lemma SlottedShows(users: seq<User>, name: string)
    requires Slotted(users)
    ensures Shows(users, name) <==> FindUserIdByName(users, name).Some?
  {
  }

  /** The view the location's tables give of a lock is well formed when they are. */
  lemma FoundWellFormed(locks: seq<LockView>, lockName: string)
    requires forall i :: 0 <= i < |locks| ==> WellFormed(locks[i].users)
    requires FindLockByName(locks, lockName).Some?
    ensures WellFormed(FindLockByName(locks, lockName).value.users)
  {
  }

  /** The table after a quiet add of a name it lacks, at a free positive slot. */
  lemma QuietAdd(users: seq<User>, slot: int, name: string)
    requires WellFormed(users) && DistinctNames(users)
    requires FindUserIdByName(users, name).None?
    requires slot !in IdSet(users) && slot >= 1
    ensures WellFormed(users + [User(slot, name)]) && DistinctNames(users + [User(slot, name)])
    ensures Shows(users + [User(slot, name)], name)
    ensures forall m :: m != name ==> FindUserIdByName(users + [User(slot, name)], m) == FindUserIdByName(users, m)
  {
    FindAppend(users, User(slot, name), name);
    forall m | m != name ensures FindUserIdByName(users + [User(slot, name)], m) == FindUserIdByName(users, m) {
      FindAppend(users, User(slot, name), m);
    }
  }

  /**
   * One pass of the loop body, lines 65-165: the error of a turned-away
   * reservation, the exception of one that raises, or, for a due code the
   * lock does not show, the add with its retries.
   */
  method ProcessPlan(cloud: Cloud, view: LockView, lockName: string, propertyName: string, p: Plan, cfg: Config, ch: Changes)
    returns (view2: LockView, ch2: Changes, abort: Option<string>)
    modifies cloud
    ensures ch2.deletions == ch.deletions && ch2.updates == ch.updates
    ensures p.Raises? ==> abort == Some(p.detail) && ch2 == ch
    ensures p.Skip? ==> abort.None? && ch2 == ch.(errors := ch.errors + [SkipMessage(p.screening, propertyName)])
    ensures abort.Some? ==> ch2 == ch && (p.Raises? || (Due(p) && cfg.verifyMax == 0 && abort.value == UnboundVerifyAttempt))
    ensures p.Book? && !(Due(p) && !Shows(view.users, p.name)) ==> abort.None? && ch2 == ch
    ensures !(Due(p) && !Shows(view.users, p.name)) ==>
      view2 == view && cloud.locks == old(cloud.locks) && cloud.log == old(cloud.log) && cloud.faults == old(cloud.faults)
    ensures ch2.additions == ch.additions
         || (Due(p) && ch2.additions == ch.additions + [Entry(lockName, p.name)] && Shows(view2.users, p.name))
    ensures view2 == view || FindLockByName(cloud.locks, lockName) == Some(view2)
    ensures SetCodes(cloud.log) <= SetCodes(old(cloud.log)) + (if Due(p) then cfg.addMax else 0)
    ensures DeleteCodes(cloud.log) == DeleteCodes(old(cloud.log))
    ensures old(cloud.Valid()) && Slotted(view.users) ==> cloud.Valid()
    ensures Quiet(old(cloud.faults)) ==> Quiet(cloud.faults)
    ensures (Quiet(old(cloud.faults)) && cfg.addMax >= 1 && cfg.verifyMax >= 1 && !p.Raises? && (p.Book? ==> ValidCode(p.rawCode))
             && WellFormed(view.users) && DistinctNames(view.users) && FindLockByName(old(cloud.locks), lockName) == Some(view)) ==>
      && abort.None? && ch2.errors == ch.errors + (if p.Skip? then [SkipMessage(p.screening, propertyName)] else [])
      && FindLockByName(cloud.locks, lockName) == Some(view2) && WellFormed(view2.users) && DistinctNames(view2.users)
      && (Due(p) ==> Shows(view2.users, p.name))
      && forall m :: !p.Book? || m != p.name ==> FindUserIdByName(view2.users, m) == FindUserIdByName(view.users, m)
  {
    view2, ch2, abort := view, ch, None;
    match p
    case Skip(screening) =>
      ch2 := ch.(errors := ch.errors + [SkipMessage(screening, propertyName)]);
    case Raises(detail) =>
      abort := Some(detail);
    case Book(name, rawCode, active, create) =>
      if create && !Shows(view.users, name) {
        ghost var quiet := Quiet(cloud.faults) && cfg.addMax >= 1 && cfg.verifyMax >= 1 && ValidCode(rawCode)
                           && WellFormed(view.users) && DistinctNames(view.users) && FindLockByName(cloud.locks, lockName) == Some(view);
        if quiet {
          SlottedShows(view.users, name);
        }
        var found, errors, aborted, refused, slot := AddCode(cloud, view, lockName, name, rawCode, cfg);
        if aborted {
          abort := Some(UnboundVerifyAttempt);
        } else if found.Some? {
          ch2 := ch.(additions := ch.additions + [Entry(lockName, name)]);
          view2 := found.value;
          if quiet {
            QuietAdd(view.users, slot, name);
          }
        } else {
          ch2 := ch.(errors := ch.errors + errors);
        }
      }
  }

  lemma PlansPrefix(ps: seq<Plan>, i: nat, propertyName: string)
    requires i < |ps|
    ensures DueCount(ps[..i + 1]) == DueCount(ps[..i]) + (if Due(ps[i]) then 1 else 0)
    ensures ActiveLabels(ps[..i + 1]) == ActiveLabels(ps[..i]) + (if ps[i].Book? && ps[i].active then [ps[i].name] else [])
    ensures SkipErrors(ps[..i + 1], propertyName)
         == SkipErrors(ps[..i], propertyName) + (if ps[i].Skip? then [SkipMessage(ps[i].screening, propertyName)] else [])
  {
    assert ps[..i + 1][..i] == ps[..i];
  }

  lemma {:induction false} DueCountLe(ps: seq<Plan>, i: nat)
    requires i <= |ps|
    ensures DueCount(ps[..i]) <= DueCount(ps)
  {
    if i < |ps| {
      var init := ps[..|ps| - 1];
      assert init[..i] == ps[..i];
      DueCountLe(init, i);
    } else {
      assert ps[..i] == ps;
    }
  }

  lemma MulLe(a: nat, b: nat, c: nat)
    requires a <= b
    ensures c * a <= c * b
  {
    assert c * b == c * a + c * (b - a);
  }

  lemma BoundStep(a: nat, b: nat, addMax: nat)
    ensures addMax * a + (if b == 1 then addMax else 0) <= addMax * (a + b) || b != 1
  {
  }

  /** What the pass keeps about the first `i` plans: only due labels are added, nothing is deleted or updated. */
  predicate Progress(ch: Changes, lockName: string, ps: seq<Plan>, i: int) {
    && ch.deletions == [] && ch.updates == []
    && forall x :: x in ch.additions ==> exists j :: 0 <= j < i && j < |ps| && Due(ps[j]) && x == Entry(lockName, ps[j].name)
  }

  /** What a quiet pass keeps: the view is the cloud's own, and every due label seen so far shows on it. */
  predicate QuietProgress(locks: seq<LockView>, lockName: string, view: LockView, errors: seq<string>, ps: seq<Plan>, i: int, propertyName: string)
    requires 0 <= i <= |ps|
  {
    && errors == SkipErrors(ps[..i], propertyName)
    && FindLockByName(locks, lockName) == Some(view) && WellFormed(view.users) && DistinctNames(view.users)
    && DueShown(view.users, ps, i)
  }

  /** The quiet pass keeps every due label it has seen showing. */
  lemma KeepsShown(view: LockView, view2: LockView, ps: seq<Plan>, i: nat)
    requires i < |ps| && DueShown(view.users, ps, i)
    requires Due(ps[i]) ==> Shows(view2.users, ps[i].name)
    requires ps[i].Book? && !Due(ps[i]) ==> view2 == view
    requires forall m :: !ps[i].Book? || m != ps[i].name ==> FindUserIdByName(view2.users, m) == FindUserIdByName(view.users, m)
    ensures DueShown(view2.users, ps, i + 1)
  {
    forall j | 0 <= j < i + 1 && Due(ps[j]) ensures Shows(view2.users, ps[j].name) {
      if j < i && !(ps[i].Book? && ps[j].name == ps[i].name) {
        assert FindUserIdByName(view2.users, ps[j].name) == FindUserIdByName(view.users, ps[j].name);
      }
    }
  }

  /** The conditions under which the pass is quiet: a cloud without faults, fresh data, and plans that all go through. */
  predicate QuietStart(cfg: Config, lockName: string, ps: seq<Plan>, view0: LockView, locks0: seq<LockView>, faults0: seq<Fault>) {
    && Quiet(faults0) && cfg.addMax >= 1 && cfg.verifyMax >= 1 && NoRaises(ps) && CodesValid(ps)
    && WellFormed(view0.users) && DistinctNames(view0.users) && FindLockByName(locks0, lockName) == Some(view0)
  }

  /**
   * What holds after the pass has handled the first `i` plans without
   * raising, starting from the table `view0`, the cloud state `locks0`,
   * `log0`, `faults0`.
   */
  ghost predicate Passed(cfg: Config, lockName: string, propertyName: string, ps: seq<Plan>,
                         view0: LockView, locks0: seq<LockView>, log0: seq<Call>, faults0: seq<Fault>,
                         i: int, locks: seq<LockView>, log: seq<Call>, faults: seq<Fault>,
                         view: LockView, active: seq<string>, ch: Changes)
    requires 0 <= i <= |ps|
  {
    && active == ActiveLabels(ps[..i])
    && Progress(ch, lockName, ps, i)
    && SetCodes(log) <= SetCodes(log0) + cfg.addMax * DueCount(ps[..i])
    && DeleteCodes(log) == DeleteCodes(log0)
    && (TablesWellFormed(locks0) && Slotted(view0.users) ==> TablesWellFormed(locks) && Slotted(view.users))
    && (Quiet(faults0) ==> Quiet(faults))
    && (QuietStart(cfg, lockName, ps, view0, locks0, faults0) ==> QuietProgress(locks, lockName, view, ch.errors, ps, i, propertyName))
    && (DueShown(view0.users, ps, |ps|) ==>
          && view == view0 && ch.additions == [] && locks == locks0 && log == log0
          && (NoRaises(ps) ==> ch.errors == SkipErrors(ps[..i], propertyName)))
  }

  /** What holds once a plan has made the pass stop with `abort`. */
  ghost predicate Stopped(cfg: Config, lockName: string, ps: seq<Plan>,
                          view0: LockView, locks0: seq<LockView>, log0: seq<Call>, faults0: seq<Fault>,
                          locks: seq<LockView>, log: seq<Call>, faults: seq<Fault>,
                          view: LockView, ch: Changes, abort: string)
  {
    && Progress(ch, lockName, ps, |ps|)
    && ((exists j :: 0 <= j < |ps| && ps[j] == Raises(abort)) || (cfg.verifyMax == 0 && abort == UnboundVerifyAttempt))
    && SetCodes(log) <= SetCodes(log0) + cfg.addMax * DueCount(ps)
    && DeleteCodes(log) == DeleteCodes(log0)
    && (TablesWellFormed(locks0) && Slotted(view0.users) ==> TablesWellFormed(locks) && Slotted(view.users))
    && (Quiet(faults0) ==> Quiet(faults))
    && !QuietStart(cfg, lockName, ps, view0, locks0, faults0)
    && (DueShown(view0.users, ps, |ps|) ==>
          && view == view0 && ch.additions == [] && locks == locks0 && log == log0 && !NoRaises(ps))
  }

  /** What one pass of the loop body did, between the states before (1) and after (2); the contract of `ProcessPlan`. */
  ghost predicate Processed(lockName: string, propertyName: string, p: Plan, cfg: Config,
                            locks1: seq<LockView>, log1: seq<Call>, faults1: seq<Fault>, view: LockView, ch: Changes,
                            locks2: seq<LockView>, log2: seq<Call>, faults2: seq<Fault>, view2: LockView, ch2: Changes,
                            abort: Option<string>)
  {
    && ch2.deletions == ch.deletions && ch2.updates == ch.updates
    && (p.Raises? ==> abort == Some(p.detail) && ch2 == ch)
    && (p.Skip? ==> abort.None? && ch2 == ch.(errors := ch.errors + [SkipMessage(p.screening, propertyName)]))
    && (abort.Some? ==> ch2 == ch && (p.Raises? || (Due(p) && cfg.verifyMax == 0 && abort.value == UnboundVerifyAttempt)))
    && (p.Book? && !(Due(p) && !Shows(view.users, p.name)) ==> abort.None? && ch2 == ch)
    && (!(Due(p) && !Shows(view.users, p.name)) ==> view2 == view && locks2 == locks1 && log2 == log1 && faults2 == faults1)
    && (ch2.additions == ch.additions
        || (Due(p) && ch2.additions == ch.additions + [Entry(lockName, p.name)] && Shows(view2.users, p.name)))
    && (view2 == view || FindLockByName(locks2, lockName) == Some(view2))
    && SetCodes(log2) <= SetCodes(log1) + (if Due(p) then cfg.addMax else 0)
    && DeleteCodes(log2) == DeleteCodes(log1)
    && (TablesWellFormed(locks1) && Slotted(view.users) ==> TablesWellFormed(locks2))
    && (Quiet(faults1) ==> Quiet(faults2))
    && ((Quiet(faults1) && cfg.addMax >= 1 && cfg.verifyMax >= 1 && !p.Raises? && (p.Book? ==> ValidCode(p.rawCode))
         && WellFormed(view.users) && DistinctNames(view.users) && FindLockByName(locks1, lockName) == Some(view)) ==>
          && abort.None? && ch2.errors == ch.errors + (if p.Skip? then [SkipMessage(p.screening, propertyName)] else [])
          && FindLockByName(locks2, lockName) == Some(view2) && WellFormed(view2.users) && DistinctNames(view2.users)
          && (Due(p) ==> Shows(view2.users, p.name))
          && forall m :: !p.Book? || m != p.name ==> FindUserIdByName(view2.users, m) == FindUserIdByName(view.users, m))
  }

  /** One turn of the loop of lines 63-165. */
  method PassOne(cloud: Cloud, view: LockView, active: seq<string>, ch: Changes, lockName: string, propertyName: string,
                 ps: seq<Plan>, i: nat, cfg: Config,
                 ghost view0: LockView, ghost locks0: seq<LockView>, ghost log0: seq<Call>, ghost faults0: seq<Fault>)
    returns (view2: LockView, active2: seq<string>, ch2: Changes, abort: Option<string>)
    modifies cloud
    requires i < |ps|
    requires Passed(cfg, lockName, propertyName, ps, view0, locks0, log0, faults0, i, cloud.locks, cloud.log, cloud.faults, view, active, ch)
    ensures abort.None? ==>
      Passed(cfg, lockName, propertyName, ps, view0, locks0, log0, faults0, i + 1, cloud.locks, cloud.log, cloud.faults, view2, active2, ch2)
    ensures abort.Some? ==>
      Stopped(cfg, lockName, ps, view0, locks0, log0, faults0, cloud.locks, cloud.log, cloud.faults, view2, ch2, abort.value)
  {
    ghost var locks1, log1, faults1 := cloud.locks, cloud.log, cloud.faults;
    var p := ps[i];
    view2, ch2, abort := ProcessPlan(cloud, view, lockName, propertyName, p, cfg, ch);
    assert Processed(lockName, propertyName, p, cfg, locks1, log1, faults1, view, ch,
                     cloud.locks, cloud.log, cloud.faults, view2, ch2, abort);
    active2 := if abort.None? && p.Book? && p.active then active + [p.name] else active;
    PassStep(cfg, lockName, propertyName, ps, view0, locks0, log0, faults0, i, locks1, log1, faults1, view, active, ch,
             cloud.locks, cloud.log, cloud.faults, view2, active2, ch2, abort);
  }

  /** The pass's invariant survives one plan, or the pass stops as `Stopped` says. */
  lemma PassStep(cfg: Config, lockName: string, propertyName: string, ps: seq<Plan>,
                 view0: LockView, locks0: seq<LockView>, log0: seq<Call>, faults0: seq<Fault>, i: nat,
                 locks1: seq<LockView>, log1: seq<Call>, faults1: seq<Fault>, view: LockView, active: seq<string>, ch: Changes,
                 locks2: seq<LockView>, log2: seq<Call>, faults2: seq<Fault>, view2: LockView, active2: seq<string>, ch2: Changes,
                 abort: Option<string>)
    requires i < |ps|
    requires Passed(cfg, lockName, propertyName, ps, view0, locks0, log0, faults0, i, locks1, log1, faults1, view, active, ch)
    requires Processed(lockName, propertyName, ps[i], cfg, locks1, log1, faults1, view, ch, locks2, log2, faults2, view2, ch2, abort)
    requires active2 == if abort.None? && ps[i].Book? && ps[i].active then active + [ps[i].name] else active
    ensures abort.None? ==>
      Passed(cfg, lockName, propertyName, ps, view0, locks0, log0, faults0, i + 1, locks2, log2, faults2, view2, active2, ch2)
    ensures abort.Some? ==>
      Stopped(cfg, lockName, ps, view0, locks0, log0, faults0, locks2, log2, faults2, view2, ch2, abort.value)
  {
    if abort.None? {
      PassGoesOn(cfg, lockName, propertyName, ps, view0, locks0, log0, faults0, i, locks1, log1, faults1, view, active, ch,
                 locks2, log2, faults2, view2, active2, ch2, abort);
    } else {
      PassStops(cfg, lockName, propertyName, ps, view0, locks0, log0, faults0, i, locks1, log1, faults1, view, active, ch,
                locks2, log2, faults2, view2, active2, ch2, abort);
    }
  }

  /** A plan of a run without raises and with valid codes goes through the loop body. */
  lemma PlanGoesThrough(ps: seq<Plan>, i: nat)
    requires i < |ps|
    ensures NoRaises(ps) ==> !ps[i].Raises?
    ensures CodesValid(ps) && ps[i].Book? ==> ValidCode(ps[i].rawCode)
  {
  }

  lemma PassGoesOn(cfg: Config, lockName: string, propertyName: string, ps: seq<Plan>,
                 view0: LockView, locks0: seq<LockView>, log0: seq<Call>, faults0: seq<Fault>, i: nat,
                 locks1: seq<LockView>, log1: seq<Call>, faults1: seq<Fault>, view: LockView, active: seq<string>, ch: Changes,
                 locks2: seq<LockView>, log2: seq<Call>, faults2: seq<Fault>, view2: LockView, active2: seq<string>, ch2: Changes,
                 abort: Option<string>)
    requires i < |ps|
    requires Passed(cfg, lockName, propertyName, ps, view0, locks0, log0, faults0, i, locks1, log1, faults1, view, active, ch)
    requires Processed(lockName, propertyName, ps[i], cfg, locks1, log1, faults1, view, ch, locks2, log2, faults2, view2, ch2, abort)
    requires abort.None?
    requires active2 == if ps[i].Book? && ps[i].active then active + [ps[i].name] else active
    ensures Passed(cfg, lockName, propertyName, ps, view0, locks0, log0, faults0, i + 1, locks2, log2, faults2, view2, active2, ch2)
  {
    var p := ps[i];
    var quiet := QuietStart(cfg, lockName, ps, view0, locks0, faults0);
    PlanGoesThrough(ps, i);
    PlansPrefix(ps, i, propertyName);
    BoundStep(DueCount(ps[..i]), if Due(p) then 1 else 0, cfg.addMax);
    if TablesWellFormed(locks0) && Slotted(view0.users) && view2 != view {
      FoundWellFormed(locks2, lockName);
    }
    if quiet {
      KeepsShown(view, view2, ps, i);
    }
  }

  lemma PassStops(cfg: Config, lockName: string, propertyName: string, ps: seq<Plan>,
                 view0: LockView, locks0: seq<LockView>, log0: seq<Call>, faults0: seq<Fault>, i: nat,
                 locks1: seq<LockView>, log1: seq<Call>, faults1: seq<Fault>, view: LockView, active: seq<string>, ch: Changes,
                 locks2: seq<LockView>, log2: seq<Call>, faults2: seq<Fault>, view2: LockView, active2: seq<string>, ch2: Changes,
                 abort: Option<string>)
    requires i < |ps|
    requires Passed(cfg, lockName, propertyName, ps, view0, locks0, log0, faults0, i, locks1, log1, faults1, view, active, ch)
    requires Processed(lockName, propertyName, ps[i], cfg, locks1, log1, faults1, view, ch, locks2, log2, faults2, view2, ch2, abort)
    requires abort.Some?
    ensures Stopped(cfg, lockName, ps, view0, locks0, log0, faults0, locks2, log2, faults2, view2, ch2, abort.value)
  {
    var p := ps[i];
    PlanGoesThrough(ps, i);
    PlansPrefix(ps, i, propertyName);
    BoundStep(DueCount(ps[..i]), if Due(p) then 1 else 0, cfg.addMax);
    if TablesWellFormed(locks0) && Slotted(view0.users) && view2 != view {
      FoundWellFormed(locks2, lockName);
    }
    DueCountLe(ps, i + 1);
    MulLe(DueCount(ps[..i + 1]), DueCount(ps), cfg.addMax);
    if p.Raises? {
      assert ps[i] == Raises(abort.value);
    }
  }

  /**
   * Lines 63-165: the plans in order, up to the first that raises; the
   * labels of stays not yet ended collect in `active`.
   */
  method ReservationPass(cloud: Cloud, view0: LockView, lockName: string, propertyName: string, ps: seq<Plan>, cfg: Config)
    returns (view: LockView, active: seq<string>, ch: Changes, abort: Option<string>)
    modifies cloud
    ensures abort.None? ==> active == ActiveLabels(ps)
    ensures Progress(ch, lockName, ps, |ps|)
    ensures abort.Some? ==> (exists j :: 0 <= j < |ps| && ps[j] == Raises(abort.value)) || (cfg.verifyMax == 0 && abort.value == UnboundVerifyAttempt)
    ensures SetCodes(cloud.log) <= SetCodes(old(cloud.log)) + cfg.addMax * DueCount(ps)
    ensures DeleteCodes(cloud.log) == DeleteCodes(old(cloud.log))
    ensures old(cloud.Valid()) && Slotted(view0.users) ==> cloud.Valid() && Slotted(view.users)
    ensures Quiet(old(cloud.faults)) ==> Quiet(cloud.faults)
    ensures QuietStart(cfg, lockName, ps, view0, old(cloud.locks), old(cloud.faults)) ==>
      abort.None? && QuietProgress(cloud.locks, lockName, view, ch.errors, ps, |ps|, propertyName)
    ensures DueShown(view0.users, ps, |ps|) ==>
      && view == view0 && ch.additions == [] && cloud.locks == old(cloud.locks) && cloud.log == old(cloud.log)
      && (NoRaises(ps) ==> abort.None? && ch.errors == SkipErrors(ps, propertyName))
  {
    view, active, ch, abort := view0, [], Changes([], [], [], []), None;
    assert ps[..0] == [];
    var i := 0;
    while i < |ps|
      invariant 0 <= i <= |ps| && abort.None?
      invariant Passed(cfg, lockName, propertyName, ps, view0, old(cloud.locks), old(cloud.log), old(cloud.faults),
                       i, cloud.locks, cloud.log, cloud.faults, view, active, ch)
    {
      view, active, ch, abort := PassOne(cloud, view, active, ch, lockName, propertyName, ps, i, cfg,
                                         view0, old(cloud.locks), old(cloud.log), old(cloud.faults));
      if abort.Some? {
        return;
      }
      i := i + 1;
    }
    assert ps[..i] == ps;
  }

  // ---------------------------------------------------------------------------
  // Cleanup, lines 167-202
  // ---------------------------------------------------------------------------

  lemma OnlyEntryOfSlot(users: seq<User>, i0: nat)
    requires UniqueSlots(users) && i0 < |users|
    ensures forall i :: 0 <= i < |users| && users[i].id == users[i0].id ==> i == i0
  {
  }

  /** Deleting the one slot of a name leaves every other name where it was. */
  lemma QuietDrop(users: seq<User>, name: string)
    requires WellFormed(users) && DistinctNames(users)
    requires FindUserIdByName(users, name).Some?
    ensures var r := DropSlot(users, FindUserIdByName(users, name).value);
      && WellFormed(r) && DistinctNames(r) && FindUserIdByName(r, name).None?
      && forall m :: m != name ==> FindUserIdByName(r, m) == FindUserIdByName(users, m)
  {
    var id := FindUserIdByName(users, name).value;
    EditKeepsWellFormed(users, Drop(id));
    DropSlotDistinct(users, id);
    FindDropped(users, name);
    var i0 :| 0 <= i0 < |users| && users[i0] == User(id, name);
    OnlyEntryOfSlot(users, i0);
    forall m | m != name ensures FindUserIdByName(DropSlot(users, id), m) == FindUserIdByName(users, m) {
      FindDropOther(users, id, m);
    }
  }

  /** A quiet delete of a name's slot leaves the lock, as found by name, without that name and otherwise as it was. */
  lemma QuietDelete(locks: seq<LockView>, view: LockView, lockName: string, name: string)
    requires FindLockByName(locks, lockName) == Some(view) && WellFormed(view.users) && DistinctNames(view.users)
    requires FindUserIdByName(view.users, name).Some?
    ensures var after := view.(users := DropSlot(view.users, FindUserIdByName(view.users, name).value));
      && FindLockByName(EditLocks(locks, view.lockId, Drop(FindUserIdByName(view.users, name).value)), lockName) == Some(after)
      && WellFormed(after.users) && DistinctNames(after.users) && FindUserIdByName(after.users, name).None?
      && forall m :: m != name ==> FindUserIdByName(after.users, m) == FindUserIdByName(view.users, m)
  {
    QuietDrop(view.users, name);
    FindEdited(locks, view.lockId, Drop(FindUserIdByName(view.users, name).value), lockName);
  }

  /** Lines 181-202 for one name: delete its slot, then confirm by a fresh read. */
  method DeleteName(cloud: Cloud, view: LockView, lockName: string, propertyName: string, name: string, ch: Changes)
    returns (view2: LockView, ch2: Changes, ghost ok: bool)
    modifies cloud
    ensures ch2.additions == ch.additions && ch2.updates == ch.updates
    ensures || (ch2.deletions == ch.deletions + [Entry(lockName, name)] && ch2.errors == ch.errors)
            || (ch2.deletions == ch.deletions && ch2.errors == ch.errors + [DeleteFailed(lockName, name)])
            || (ch2.deletions == ch.deletions && ch2.errors == ch.errors + [DeleteUnverified(name, propertyName)])
    ensures !Shows(view.users, name) ==>
      && ch2 == ch.(errors := ch.errors + [DeleteFailed(lockName, name)]) && view2 == view
      && cloud.locks == old(cloud.locks) && cloud.faults == old(cloud.faults) && cloud.log == old(cloud.log)
    ensures Shows(view.users, name) ==>
      cloud.log == old(cloud.log) + [DeleteCode(view.lockId, FindUserIdByName(view.users, name).value, ok)]
                   + (if ok then [Listed(ListingUnder(Head(Tail(old(cloud.faults))), cloud.locks))] else [])
    ensures ch2.deletions != ch.deletions ==>
      && FindLockByName(cloud.locks, lockName) == Some(view2) && !Shows(view2.users, name)
      && cloud.log[|cloud.log| - 1] == Listed(Views(cloud.locks))
    ensures ch2.deletions == ch.deletions ==> view2 == view
    ensures SetCodes(cloud.log) == SetCodes(old(cloud.log)) && DeleteCodes(cloud.log) <= DeleteCodes(old(cloud.log)) + 1
    ensures old(cloud.Valid()) ==> cloud.Valid()
    ensures old(cloud.Valid()) && Slotted(view.users) ==> Slotted(view2.users)
    ensures Quiet(old(cloud.faults)) ==> Quiet(cloud.faults)
    ensures (Quiet(old(cloud.faults)) && FindLockByName(old(cloud.locks), lockName) == Some(view)
             && WellFormed(view.users) && DistinctNames(view.users) && FindUserIdByName(view.users, name).Some?) ==>
      && ch2 == ch.(deletions := ch.deletions + [Entry(lockName, name)])
      && FindLockByName(cloud.locks, lockName) == Some(view2) && WellFormed(view2.users) && DistinctNames(view2.users)
      && FindUserIdByName(view2.users, name).None?
      && forall m :: m != name ==> FindUserIdByName(view2.users, m) == FindUserIdByName(view.users, m)
  {
    var id := FindUserIdByName(view.users, name);
    if id.None? || id.value == 0 {
      view2, ch2, ok := view, ch.(errors := ch.errors + [DeleteFailed(lockName, name)]), false;
    } else {
      view2, ch2, ok := DeleteSlot(cloud, view, lockName, propertyName, name, id.value, ch);
    }
  }

  /** Lines 183-202 once the name has a truthy slot `id`: the delete request and its confirmation. */
  method DeleteSlot(cloud: Cloud, view: LockView, lockName: string, propertyName: string, name: string, id: int, ch: Changes)
    returns (view2: LockView, ch2: Changes, ghost ok: bool)
    modifies cloud
    requires FindUserIdByName(view.users, name) == Some(id) && id != 0
    ensures ch2.additions == ch.additions && ch2.updates == ch.updates
    ensures || (ch2.deletions == ch.deletions + [Entry(lockName, name)] && ch2.errors == ch.errors)
            || (ch2.deletions == ch.deletions && ch2.errors == ch.errors + [DeleteFailed(lockName, name)])
            || (ch2.deletions == ch.deletions && ch2.errors == ch.errors + [DeleteUnverified(name, propertyName)])
    ensures cloud.log == old(cloud.log) + [DeleteCode(view.lockId, id, ok)]
                         + (if ok then [Listed(ListingUnder(Head(Tail(old(cloud.faults))), cloud.locks))] else [])
    ensures ch2.deletions != ch.deletions ==>
      && FindLockByName(cloud.locks, lockName) == Some(view2) && !Shows(view2.users, name)
      && cloud.log[|cloud.log| - 1] == Listed(Views(cloud.locks))
    ensures ch2.deletions == ch.deletions ==> view2 == view
    ensures SetCodes(cloud.log) == SetCodes(old(cloud.log)) && DeleteCodes(cloud.log) == DeleteCodes(old(cloud.log)) + 1
    ensures old(cloud.Valid()) ==> cloud.Valid()
    ensures old(cloud.Valid()) && Slotted(view.users) ==> Slotted(view2.users)
    ensures Quiet(old(cloud.faults)) ==> Quiet(cloud.faults)
    ensures (Quiet(old(cloud.faults)) && FindLockByName(old(cloud.locks), lockName) == Some(view)
             && WellFormed(view.users) && DistinctNames(view.users)) ==>
      && ch2 == ch.(deletions := ch.deletions + [Entry(lockName, name)])
      && FindLockByName(cloud.locks, lockName) == Some(view2) && WellFormed(view2.users) && DistinctNames(view2.users)
      && FindUserIdByName(view2.users, name).None?
      && forall m :: m != name ==> FindUserIdByName(view2.users, m) == FindUserIdByName(view.users, m)
  {
    ghost var quiet := Quiet(cloud.faults) && FindLockByName(cloud.locks, lockName) == Some(view)
                       && WellFormed(view.users) && DistinctNames(view.users);
    if Quiet(cloud.faults) {
      QuietTail(cloud.faults);
      QuietTail(Tail(cloud.faults));
    }
    if quiet {
      QuietDelete(cloud.locks, view, lockName, name);
    }
    ghost var log0 := cloud.log;
    var accepted := cloud.DeleteUserCode(view, id);
    ok := accepted;
    CountsAppend(log0, DeleteCode(view.lockId, id, ok));
    if !accepted {
      view2, ch2 := view, ch.(errors := ch.errors + [DeleteFailed(lockName, name)]);
      return;
    }
    ghost var log1 := cloud.log;
    ghost var faults1 := cloud.faults;
    ghost var after := view.(users := DropSlot(view.users, id));

    view2, ch2 := ConfirmDeletion(cloud, view, lockName, propertyName, name, ch);
    assert quiet ==> view2 == after;
    CountsAppend(log1, Listed(ListingUnder(Head(faults1), cloud.locks)));
  }

  /** Lines 188-200: the read after an accepted delete, and what it makes the engine record. */
  method ConfirmDeletion(cloud: Cloud, view: LockView, lockName: string, propertyName: string, name: string, ch: Changes)
    returns (view2: LockView, ch2: Changes)
    modifies cloud
    ensures cloud.locks == old(cloud.locks) && cloud.faults == Tail(old(cloud.faults))
    ensures cloud.log == old(cloud.log) + [Listed(ListingUnder(Head(old(cloud.faults)), cloud.locks))]
    ensures || (ch2 == ch.(deletions := ch.deletions + [Entry(lockName, name)])
                && FindLockByName(cloud.locks, lockName) == Some(view2) && !Shows(view2.users, name)
                && Accepts(Head(old(cloud.faults))))
            || (ch2 == ch.(errors := ch.errors + [DeleteUnverified(name, propertyName)]) && view2 == view)
    ensures (Accepts(Head(old(cloud.faults))) && FindLockByName(cloud.locks, lockName).Some?
             && !Shows(FindLockByName(cloud.locks, lockName).value.users, name)) ==>
      ch2 == ch.(deletions := ch.deletions + [Entry(lockName, name)])
    ensures cloud.Valid() && Slotted(view.users) ==> Slotted(view2.users)
  {
    var reread := cloud.RefreshLockData(lockName);
    if reread.Some? && !Shows(reread.value.users, name) {
      ch2 := ch.(deletions := ch.deletions + [Entry(lockName, name)]);
      view2 := reread.value;
      if cloud.Valid() {
        FoundWellFormed(cloud.locks, lockName);
      }
    } else {
      view2, ch2 := view, ch.(errors := ch.errors + [DeleteUnverified(name, propertyName)]);
    }
  }

  /** The deletion entries of `names`, in order. */
  function Entries(lockName: string, names: seq<string>): (r: seq<string>)
    ensures |r| == |names|
  {
    seq(|names|, k requires 0 <= k < |names| => Entry(lockName, names[k]))
  }

  lemma EntriesSnoc(lockName: string, names: seq<string>, n: string)
    ensures Entries(lockName, names + [n]) == Entries(lockName, names) + [Entry(lockName, n)]
  {
    assert forall k :: 0 <= k < |names| ==> Entries(lockName, names + [n])[k] == Entry(lockName, names[k]);
  }

  /** The conditions under which the cleanup is quiet: a cloud without faults, fresh data, each purged name held once. */
  predicate QuietPurge(lockName: string, purge: seq<string>, view0: LockView, locks0: seq<LockView>, faults0: seq<Fault>) {
    && Quiet(faults0) && FindLockByName(locks0, lockName) == Some(view0)
    && WellFormed(view0.users) && DistinctNames(view0.users) && NoDuplicates(purge)
    && forall k :: 0 <= k < |purge| ==> FindUserIdByName(view0.users, purge[k]).Some?
  }

  /**
   * What holds once the cleanup has handled the first `i` purged names,
   * starting from `view0`, `ch0` and the cloud state `locks0`, `log0`,
   * `faults0`: `delNames` were deleted and `errs` recorded.
   */
  ghost predicate Cleaned(lockName: string, purge: seq<string>, ch0: Changes,
                          view0: LockView, locks0: seq<LockView>, log0: seq<Call>, faults0: seq<Fault>,
                          i: int, locks: seq<LockView>, log: seq<Call>, faults: seq<Fault>,
                          view: LockView, ch: Changes, delNames: seq<string>, errs: seq<string>)
    requires 0 <= i <= |purge|
  {
    && ch.deletions == ch0.deletions + Entries(lockName, delNames) && ch.errors == ch0.errors + errs
    && ch.additions == ch0.additions && ch.updates == ch0.updates
    && |delNames| + |errs| == i
    && (forall k :: 0 <= k < |delNames| ==> delNames[k] in purge)
    && SetCodes(log) == SetCodes(log0) && DeleteCodes(log) <= DeleteCodes(log0) + i
    && (TablesWellFormed(locks0) ==> TablesWellFormed(locks))
    && (TablesWellFormed(locks0) && Slotted(view0.users) ==> Slotted(view.users))
    && (Quiet(faults0) ==> Quiet(faults))
    && (i == 0 ==> view == view0 && ch == ch0 && locks == locks0 && log == log0)
    && (QuietPurge(lockName, purge, view0, locks0, faults0) ==> PurgedSoFar(lockName, purge, view0, i, locks, view, delNames, errs))
  }

  /** In a quiet cleanup, the first `i` names are deleted and nothing else changed. */
  ghost predicate PurgedSoFar(lockName: string, purge: seq<string>, view0: LockView, i: int,
                              locks: seq<LockView>, view: LockView, delNames: seq<string>, errs: seq<string>)
    requires 0 <= i <= |purge|
  {
    && delNames == purge[..i] && errs == []
    && FindLockByName(locks, lockName) == Some(view) && WellFormed(view.users) && DistinctNames(view.users)
    && (forall k :: 0 <= k < i ==> FindUserIdByName(view.users, purge[k]).None?)
    && (forall m :: m !in purge[..i] ==> FindUserIdByName(view.users, m) == FindUserIdByName(view0.users, m))
  }

  /** What one delete-and-confirm of `name` did, between the states before (1) and after (2). */
  ghost predicate Deleted(lockName: string, propertyName: string, name: string,
                          locks1: seq<LockView>, log1: seq<Call>, faults1: seq<Fault>, view: LockView, ch: Changes,
                          locks2: seq<LockView>, log2: seq<Call>, faults2: seq<Fault>, view2: LockView, ch2: Changes)
  {
    && ch2.additions == ch.additions && ch2.updates == ch.updates
    && (|| (ch2.deletions == ch.deletions + [Entry(lockName, name)] && ch2.errors == ch.errors)
        || (ch2.deletions == ch.deletions && ch2.errors == ch.errors + [DeleteFailed(lockName, name)])
        || (ch2.deletions == ch.deletions && ch2.errors == ch.errors + [DeleteUnverified(name, propertyName)]))
    && SetCodes(log2) == SetCodes(log1) && DeleteCodes(log2) <= DeleteCodes(log1) + 1
    && (TablesWellFormed(locks1) ==> TablesWellFormed(locks2))
    && (TablesWellFormed(locks1) && Slotted(view.users) ==> Slotted(view2.users))
    && (Quiet(faults1) ==> Quiet(faults2))
    && ((Quiet(faults1) && FindLockByName(locks1, lockName) == Some(view)
         && WellFormed(view.users) && DistinctNames(view.users) && FindUserIdByName(view.users, name).Some?) ==>
          && ch2 == ch.(deletions := ch.deletions + [Entry(lockName, name)])
          && FindLockByName(locks2, lockName) == Some(view2) && WellFormed(view2.users) && DistinctNames(view2.users)
          && FindUserIdByName(view2.users, name).None?
          && forall m :: m != name ==> FindUserIdByName(view2.users, m) == FindUserIdByName(view.users, m))
  }

  /** One turn of the loop of lines 181-202. */
  method CleanOne(cloud: Cloud, view: LockView, lockName: string, propertyName: string, purge: seq<string>, i: nat, ch: Changes,
                  ghost ch0: Changes, ghost view0: LockView, ghost locks0: seq<LockView>, ghost log0: seq<Call>, ghost faults0: seq<Fault>,
                  ghost delNames: seq<string>, ghost errs: seq<string>)
    returns (view2: LockView, ch2: Changes, ghost delNames2: seq<string>, ghost errs2: seq<string>)
    modifies cloud
    requires i < |purge|
    requires Cleaned(lockName, purge, ch0, view0, locks0, log0, faults0, i, cloud.locks, cloud.log, cloud.faults, view, ch, delNames, errs)
    ensures Cleaned(lockName, purge, ch0, view0, locks0, log0, faults0, i + 1, cloud.locks, cloud.log, cloud.faults, view2, ch2, delNames2, errs2)
  {
    ghost var locks1, log1, faults1 := cloud.locks, cloud.log, cloud.faults;
    ghost var ok;
    view2, ch2, ok := DeleteName(cloud, view, lockName, propertyName, purge[i], ch);
    assert Deleted(lockName, propertyName, purge[i], locks1, log1, faults1, view, ch, cloud.locks, cloud.log, cloud.faults, view2, ch2);
    delNames2, errs2 := CleanedStep(lockName, propertyName, purge, ch0, view0, locks0, log0, faults0, i,
                                    locks1, log1, faults1, view, ch, delNames, errs, cloud.locks, cloud.log, cloud.faults, view2, ch2);
  }

  /** The cleanup's loop invariant survives one delete-and-confirm. */
  lemma CleanedStep(lockName: string, propertyName: string, purge: seq<string>, ch0: Changes,
                    view0: LockView, locks0: seq<LockView>, log0: seq<Call>, faults0: seq<Fault>, i: nat,
                    locks1: seq<LockView>, log1: seq<Call>, faults1: seq<Fault>, view: LockView, ch: Changes,
                    delNames: seq<string>, errs: seq<string>,
                    locks2: seq<LockView>, log2: seq<Call>, faults2: seq<Fault>, view2: LockView, ch2: Changes)
    returns (delNames2: seq<string>, errs2: seq<string>)
    requires i < |purge|
    requires Cleaned(lockName, purge, ch0, view0, locks0, log0, faults0, i, locks1, log1, faults1, view, ch, delNames, errs)
    requires Deleted(lockName, propertyName, purge[i], locks1, log1, faults1, view, ch, locks2, log2, faults2, view2, ch2)
    ensures Cleaned(lockName, purge, ch0, view0, locks0, log0, faults0, i + 1, locks2, log2, faults2, view2, ch2, delNames2, errs2)
  {
    var name := purge[i];
    if ch2.deletions == ch.deletions {
      var e := ch2.errors[|ch2.errors| - 1];
      assert ch2.errors == ch.errors + [e];
      delNames2, errs2 := delNames, errs + [e];
      assert ch2.errors == ch0.errors + errs2;
    } else {
      delNames2, errs2 := delNames + [name], errs;
      EntriesSnoc(lockName, delNames, name);
      assert ch2.deletions == ch0.deletions + Entries(lockName, delNames2);
    }
    if QuietPurge(lockName, purge, view0, locks0, faults0) {
      QuietCleanStep(lockName, propertyName, purge, view0, locks0, faults0, i,
                     locks1, faults1, view, ch, delNames, errs, locks2, view2, ch2);
    }
  }

  /** The quiet part of the cleanup's invariant: the next purged name is deleted. */
  lemma QuietCleanStep(lockName: string, propertyName: string, purge: seq<string>,
                       view0: LockView, locks0: seq<LockView>, faults0: seq<Fault>, i: nat,
                       locks1: seq<LockView>, faults1: seq<Fault>, view: LockView, ch: Changes,
                       delNames: seq<string>, errs: seq<string>,
                       locks2: seq<LockView>, view2: LockView, ch2: Changes)
    requires i < |purge|
    requires QuietPurge(lockName, purge, view0, locks0, faults0)
    requires Quiet(faults0) ==> Quiet(faults1)
    requires PurgedSoFar(lockName, purge, view0, i, locks1, view, delNames, errs)
    requires (Quiet(faults1) && FindLockByName(locks1, lockName) == Some(view)
              && WellFormed(view.users) && DistinctNames(view.users) && FindUserIdByName(view.users, purge[i]).Some?) ==>
               && ch2.deletions != ch.deletions
               && FindLockByName(locks2, lockName) == Some(view2) && WellFormed(view2.users) && DistinctNames(view2.users)
               && FindUserIdByName(view2.users, purge[i]).None?
               && forall m :: m != purge[i] ==> FindUserIdByName(view2.users, m) == FindUserIdByName(view.users, m)
    ensures ch2.deletions != ch.deletions
    ensures PurgedSoFar(lockName, purge, view0, i + 1, locks2, view2, delNames + [purge[i]], errs)
  {
    var name := purge[i];
    assert name !in purge[..i] by {
      forall k | 0 <= k < i ensures purge[..i][k] != name { assert purge[..i][k] == purge[k]; }
    }
    assert FindUserIdByName(view.users, name) == FindUserIdByName(view0.users, name);
    assert purge[..i + 1] == purge[..i] + [name];
    PurgeStep(view0.users, view.users, view2.users, purge, i);
  }

  lemma PurgeStep(users0: seq<User>, users: seq<User>, users2: seq<User>, purge: seq<string>, i: nat)
    requires i < |purge| && NoDuplicates(purge)
    requires forall k :: 0 <= k < i ==> FindUserIdByName(users, purge[k]).None?
    requires forall m :: m !in purge[..i] ==> FindUserIdByName(users, m) == FindUserIdByName(users0, m)
    requires FindUserIdByName(users2, purge[i]).None?
    requires forall m :: m != purge[i] ==> FindUserIdByName(users2, m) == FindUserIdByName(users, m)
    ensures forall k :: 0 <= k < i + 1 ==> FindUserIdByName(users2, purge[k]).None?
    ensures forall m :: m !in purge[..i + 1] ==> FindUserIdByName(users2, m) == FindUserIdByName(users0, m)
  {
    assert purge[..i + 1] == purge[..i] + [purge[i]];
    forall k | 0 <= k < i ensures FindUserIdByName(users2, purge[k]).None? {
      assert purge[k] != purge[i];
    }
  }

  /**
   * Lines 179-202: one delete-and-confirm per purged name. Every name adds
   * exactly one entry, a deletion or an error; every deletion entry names
   * a purged label.
   */
  method Cleanup(cloud: Cloud, view0: LockView, lockName: string, propertyName: string, purge: seq<string>, ch0: Changes)
    returns (view: LockView, ch: Changes, ghost delNames: seq<string>, ghost errs: seq<string>)
    modifies cloud
    ensures ch.deletions == ch0.deletions + Entries(lockName, delNames) && ch.errors == ch0.errors + errs
    ensures ch.additions == ch0.additions && ch.updates == ch0.updates
    ensures |delNames| + |errs| == |purge|
    ensures forall k :: 0 <= k < |delNames| ==> delNames[k] in purge
    ensures SetCodes(cloud.log) == SetCodes(old(cloud.log)) && DeleteCodes(cloud.log) <= DeleteCodes(old(cloud.log)) + |purge|
    ensures old(cloud.Valid()) ==> cloud.Valid()
    ensures old(cloud.Valid()) && Slotted(view0.users) ==> Slotted(view.users)
    ensures Quiet(old(cloud.faults)) ==> Quiet(cloud.faults)
    ensures purge == [] ==> view == view0 && ch == ch0 && cloud.locks == old(cloud.locks) && cloud.log == old(cloud.log)
    ensures QuietPurge(lockName, purge, view0, old(cloud.locks), old(cloud.faults)) ==>
      && delNames == purge && errs == []
      && FindLockByName(cloud.locks, lockName) == Some(view) && WellFormed(view.users) && DistinctNames(view.users)
      && (forall k :: 0 <= k < |purge| ==> FindUserIdByName(view.users, purge[k]).None?)
      && (forall m :: m !in purge ==> FindUserIdByName(view.users, m) == FindUserIdByName(view0.users, m))
  {
    view, ch, delNames, errs := view0, ch0, [], [];
    assert ch0.deletions + Entries(lockName, []) == ch0.deletions && ch0.errors + [] == ch0.errors;
    var i := 0;
    while i < |purge|
      invariant 0 <= i <= |purge|
      invariant Cleaned(lockName, purge, ch0, view0, old(cloud.locks), old(cloud.log), old(cloud.faults),
                        i, cloud.locks, cloud.log, cloud.faults, view, ch, delNames, errs)
    {
      view, ch, delNames, errs := CleanOne(cloud, view, lockName, propertyName, purge, i, ch,
                                           ch0, view0, old(cloud.locks), old(cloud.log), old(cloud.faults), delNames, errs);
      i := i + 1;
    }
    assert purge[..i] == purge;
  }

  // ---------------------------------------------------------------------------
  // The run, lines 22-210
  // ---------------------------------------------------------------------------

  /** Every code that is due belongs to a label that stays active. */
  predicate DueActive(ps: seq<Plan>) {
    forall j :: 0 <= j < |ps| && Due(ps[j]) ==> ps[j].active
  }

  /** The plans of a run's reservations keep due codes active and carry codes `add_user_code` accepts. */
  lemma PlansSound(rs: seq<Reservation>, cfg: Config, currentTime: int)
    ensures DueActive(Plans(rs, cfg, currentTime)) && CodesValid(Plans(rs, cfg, currentTime))
  {
    var ps := Plans(rs, cfg, currentTime);
    forall j | 0 <= j < |ps| && ps[j].Book? ensures ValidCode(ps[j].rawCode) && (Due(ps[j]) ==> ps[j].active) {
      assert ps[j] == PlanFor(rs[j], cfg, currentTime);
      RawCodesAreValid(ps[j].rawCode);
    }
  }

  /** The lock a run leaves when nothing went wrong: every due code shows, and every guest code it holds is active. */
  ghost predicate Reconciled(users: seq<User>, ps: seq<Plan>) {
    && DueShown(users, ps, |ps|)
    && forall n :: IsGuestName(n) && FindUserIdByName(users, n).Some? ==> n in ActiveLabels(ps)
  }

  /** The guest labels the cleanup deletes from `users`: those not active. */
  function Purge(users: seq<User>, active: seq<string>): (r: seq<string>)
    ensures forall n :: n in r <==> IsGuestName(n) && FindUserIdByName(users, n).Some? && n !in active
    ensures NoDuplicates(r)
  {
    Utility.SubtractStringLists(FindAllGuestUserNames(users), active)
  }

  /** A reconciled lock leaves the cleanup nothing to purge. */
  lemma NothingToPurge(users: seq<User>, ps: seq<Plan>)
    requires Reconciled(users, ps)
    ensures Purge(users, ActiveLabels(ps)) == []
  {
    forall x | x in FindAllGuestUserNames(users) ensures x in ActiveLabels(ps) {
      assert FindUserIdByName(users, x).Some?;
    }
    Utility.SubtractCovered(FindAllGuestUserNames(users), ActiveLabels(ps));
  }

  /** The purge of a table the cloud shows quietly meets the quiet cleanup's conditions. */
  lemma PurgeIsQuiet(lockName: string, view: LockView, locks: seq<LockView>, faults: seq<Fault>, active: seq<string>)
    requires Quiet(faults) && FindLockByName(locks, lockName) == Some(view) && WellFormed(view.users) && DistinctNames(view.users)
    ensures QuietPurge(lockName, Purge(view.users, active), view, locks, faults)
  {
    var purge := Purge(view.users, active);
    forall k | 0 <= k < |purge| ensures FindUserIdByName(view.users, purge[k]).Some? {
      assert purge[k] in purge;
    }
  }

  /**
   * Deleting exactly the purged labels from a table that shows every due
   * code leaves it reconciled.
   */
  lemma PurgedIsReconciled(users: seq<User>, users2: seq<User>, ps: seq<Plan>, purge: seq<string>)
    requires purge == Purge(users, ActiveLabels(ps))
    requires DueActive(ps) && DueShown(users, ps, |ps|)
    requires forall k :: 0 <= k < |purge| ==> FindUserIdByName(users2, purge[k]).None?
    requires forall m :: m !in purge ==> FindUserIdByName(users2, m) == FindUserIdByName(users, m)
    ensures Reconciled(users2, ps)
  {
    forall j | 0 <= j < |ps| && Due(ps[j]) ensures Shows(users2, ps[j].name) {
      assert ps[j].name in ActiveLabels(ps);
      assert ps[j].name !in purge;
    }
    forall n | n in purge ensures FindUserIdByName(users2, n).None? {
      var k :| 0 <= k < |purge| && purge[k] == n;
    }
  }

  /** Line 169-174: the refreshed view when the read gives one, else the one at hand. */
  method Reread(cloud: Cloud, view1: LockView, lockName: string) returns (view: LockView)
    modifies cloud
    ensures view == (if Accepts(Head(old(cloud.faults))) && FindLockByName(cloud.locks, lockName).Some?
                     then FindLockByName(cloud.locks, lockName).value else view1)
    ensures cloud.locks == old(cloud.locks) && cloud.faults == Tail(old(cloud.faults))
    ensures SetCodes(cloud.log) == SetCodes(old(cloud.log)) && DeleteCodes(cloud.log) == DeleteCodes(old(cloud.log))
    ensures old(cloud.Valid()) ==> cloud.Valid()
    ensures Quiet(old(cloud.faults)) ==> Quiet(cloud.faults)
    ensures FindLockByName(old(cloud.locks), lockName) == Some(view1) ==> view == view1
  {
    if Quiet(cloud.faults) {
      QuietTail(cloud.faults);
    }
    ghost var log1 := cloud.log;
    view := view1;
    var reread := cloud.RefreshLockData(lockName);
    if reread.Some? {
      view := reread.value;
    }
    CountsAppend(log1, Listed(ListingUnder(Head(old(cloud.faults)), cloud.locks)));
  }

  /**
   * Lines 167-202: re-read the lock, then delete every guest code on it
   * whose label is not active.
   */
  method CleanupPhase(cloud: Cloud, view1: LockView, lockName: string, propertyName: string, ps: seq<Plan>,
                      active: seq<string>, ch1: Changes)
    returns (ch: Changes)
    modifies cloud
    requires active == ActiveLabels(ps) && DueActive(ps)
    ensures ch.updates == ch1.updates && ch.additions == ch1.additions
    ensures forall x :: x in ch.deletions ==>
      x in ch1.deletions || exists n :: IsGuestName(n) && n !in ActiveLabels(ps) && x == Entry(lockName, n)
    ensures SetCodes(cloud.log) == SetCodes(old(cloud.log))
    ensures old(cloud.Valid()) && Slotted(view1.users) ==> cloud.Valid()
    ensures Quiet(old(cloud.faults)) && FindLockByName(old(cloud.locks), lockName) == Some(view1)
            && WellFormed(view1.users) && DistinctNames(view1.users) && DueShown(view1.users, ps, |ps|) ==>
      && ch.errors == ch1.errors
      && FindLockByName(cloud.locks, lockName).Some? && Reconciled(FindLockByName(cloud.locks, lockName).value.users, ps)
    ensures FindLockByName(old(cloud.locks), lockName) == Some(view1) && Reconciled(view1.users, ps) ==>
      && ch == ch1 && cloud.locks == old(cloud.locks)
      && SetCodes(cloud.log) == SetCodes(old(cloud.log)) && DeleteCodes(cloud.log) == DeleteCodes(old(cloud.log))
  {
    ghost var quiet := Quiet(cloud.faults) && FindLockByName(cloud.locks, lockName) == Some(view1)
                       && WellFormed(view1.users) && DistinctNames(view1.users) && DueShown(view1.users, ps, |ps|);
    ghost var settled := FindLockByName(cloud.locks, lockName) == Some(view1) && Reconciled(view1.users, ps);
    var view := Reread(cloud, view1, lockName);
    var purge := Purge(view.users, active);
    ghost var users := view.users;
    if settled {
      NothingToPurge(view.users, ps);
    }
    if quiet {
      PurgeIsQuiet(lockName, view, cloud.locks, cloud.faults, active);
    }
    ghost var delNames, errs;
    view, ch, delNames, errs := Cleanup(cloud, view, lockName, propertyName, purge, ch1);
    if quiet {
      PurgedIsReconciled(view1.users, view.users, ps, purge);
    }
    DeletionsArePurged(lockName, ch1.deletions, delNames, purge, users, ps);
  }

  /** Every deletion entry of the cleanup names a guest label that is not active. */
  lemma DeletionsArePurged(lockName: string, dels1: seq<string>, delNames: seq<string>, purge: seq<string>,
                           users: seq<User>, ps: seq<Plan>)
    requires purge == Purge(users, ActiveLabels(ps))
    requires forall k :: 0 <= k < |delNames| ==> delNames[k] in purge
    ensures forall x :: x in dels1 + Entries(lockName, delNames) ==>
      x in dels1 || exists n :: IsGuestName(n) && n !in ActiveLabels(ps) && x == Entry(lockName, n)
  {
    forall x | x in dels1 + Entries(lockName, delNames) && x !in dels1
      ensures exists n :: IsGuestName(n) && n !in ActiveLabels(ps) && x == Entry(lockName, n)
    {
      var k :| 0 <= k < |delNames| && x == Entries(lockName, delNames)[k];
      assert delNames[k] in purge;
    }
  }

  /**
   * Lines 62-202 once the lock is found as `view0`: the reservation pass,
   * then the cleanup; an exception in the pass ends the run with its entry.
   */
  method SyncLock(cloud: Cloud, view0: LockView, lockName: string, propertyName: string, ps: seq<Plan>, cfg: Config)
    returns (ch: Changes)
    modifies cloud
    requires DueActive(ps)
    ensures ch.updates == []
    ensures forall x :: x in ch.additions ==> exists j :: 0 <= j < |ps| && Due(ps[j]) && x == Entry(lockName, ps[j].name)
    ensures forall x :: x in ch.deletions ==> exists n :: IsGuestName(n) && n !in ActiveLabels(ps) && x == Entry(lockName, n)
    ensures SetCodes(cloud.log) <= SetCodes(old(cloud.log)) + cfg.addMax * DueCount(ps)
    ensures old(cloud.Valid()) && Slotted(view0.users) ==> cloud.Valid()
    ensures QuietStart(cfg, lockName, ps, view0, old(cloud.locks), old(cloud.faults)) ==>
      && ch.errors == SkipErrors(ps, propertyName)
      && FindLockByName(cloud.locks, lockName).Some? && Reconciled(FindLockByName(cloud.locks, lockName).value.users, ps)
    ensures FindLockByName(old(cloud.locks), lockName) == Some(view0) && NoRaises(ps) && Reconciled(view0.users, ps) ==>
      && ch == Changes([], [], [], SkipErrors(ps, propertyName)) && cloud.locks == old(cloud.locks)
      && SetCodes(cloud.log) == SetCodes(old(cloud.log)) && DeleteCodes(cloud.log) == DeleteCodes(old(cloud.log))
  {
    var view, active, abort;
    view, active, ch, abort := ReservationPass(cloud, view0, lockName, propertyName, ps, cfg);
    if abort.Some? {
      ch := ch.(errors := ch.errors + [Failure(abort.value)]);
      return;
    }
    assert ps[..|ps|] == ps;
    ch := CleanupPhase(cloud, view, lockName, propertyName, ps, active, ch);
  }

  /** The plans of the reservations a run is given; none when it is given nothing to iterate. */
  function PlansOf(rs: Option<seq<Reservation>>, cfg: Config, currentTime: int): (ps: seq<Plan>)
    ensures rs.Some? ==> DueActive(ps) && CodesValid(ps)
  {
    if rs.None? then []
    else
      PlansSound(rs.value, cfg, currentTime);
      Plans(rs.value, cfg, currentTime)
  }

  /** A run gets as far as the reservations: the location has an id, the listing goes through and holds the lock. */
  predicate Reached(locations: Option<seq<Location>>, location: string, lockName: string, locks0: seq<LockView>, faults0: seq<Fault>) {
    && FindLocationByName(locations, location).Some? && FindLocationByName(locations, location).value != []
    && Accepts(Head(faults0)) && FindLockByName(locks0, lockName).Some?
  }

  /**
   * `sync(lock_name, property_name, location, reservations, current_time)`.
   * `locations` is what `get_all_locations` answers and `rs` the
   * reservations (`None` when the caller passes none). The result holds the
   * deletions, updates, additions and errors, in that order.
   */
  method Sync(cloud: Cloud, lockName: string, propertyName: string, location: string, locations: Option<seq<Location>>,
              rs: Option<seq<Reservation>>, cfg: Config, currentTime: int)
    returns (ch: Changes)
    modifies cloud
    ensures FindLocationByName(locations, location).None? ==>
      ch == Changes([], [], [], [LocationMissing(lockName, propertyName)])
      && cloud.locks == old(cloud.locks) && cloud.faults == old(cloud.faults) && cloud.log == old(cloud.log)
    ensures FindLocationByName(locations, location) == Some([]) ==>
      ch == Changes([], [], [], [Failure(NoneNotIterable)])
      && cloud.locks == old(cloud.locks) && cloud.faults == old(cloud.faults) && cloud.log == old(cloud.log)
    ensures FindLocationByName(locations, location).Some? && FindLocationByName(locations, location).value != []
            && !Accepts(Head(old(cloud.faults))) ==>
      ch == Changes([], [], [], [Failure(ListingUnder(Head(old(cloud.faults)), old(cloud.locks)).detail)])
      && cloud.locks == old(cloud.locks)
    ensures FindLocationByName(locations, location).Some? && FindLocationByName(locations, location).value != []
            && Accepts(Head(old(cloud.faults))) && FindLockByName(old(cloud.locks), lockName).None? ==>
      ch == Changes([], [], [], []) && cloud.locks == old(cloud.locks)
    ensures Reached(locations, location, lockName, old(cloud.locks), old(cloud.faults)) && rs.None? ==>
      ch == Changes([], [], [], [Failure(NoneNotIterable)]) && cloud.locks == old(cloud.locks)
    ensures ch.updates == []
    ensures forall x :: x in ch.additions ==>
      exists j :: 0 <= j < |PlansOf(rs, cfg, currentTime)| && Due(PlansOf(rs, cfg, currentTime)[j])
                  && x == Entry(lockName, PlansOf(rs, cfg, currentTime)[j].name)
    ensures forall x :: x in ch.deletions ==>
      exists n :: IsGuestName(n) && n !in ActiveLabels(PlansOf(rs, cfg, currentTime)) && x == Entry(lockName, n)
    ensures SetCodes(cloud.log) <= SetCodes(old(cloud.log)) + cfg.addMax * DueCount(PlansOf(rs, cfg, currentTime))
    ensures old(cloud.Valid()) ==> cloud.Valid()
    ensures && old(cloud.Valid()) && Quiet(old(cloud.faults)) && cfg.addMax >= 1 && cfg.verifyMax >= 1
            && Reached(locations, location, lockName, old(cloud.locks), old(cloud.faults)) && rs.Some?
            && DistinctNames(FindLockByName(old(cloud.locks), lockName).value.users)
            && NoRaises(PlansOf(rs, cfg, currentTime)) ==>
      && ch.errors == SkipErrors(PlansOf(rs, cfg, currentTime), propertyName)
      && FindLockByName(cloud.locks, lockName).Some?
      && Reconciled(FindLockByName(cloud.locks, lockName).value.users, PlansOf(rs, cfg, currentTime))
    ensures && Reached(locations, location, lockName, old(cloud.locks), old(cloud.faults)) && rs.Some?
            && NoRaises(PlansOf(rs, cfg, currentTime))
            && Reconciled(FindLockByName(old(cloud.locks), lockName).value.users, PlansOf(rs, cfg, currentTime)) ==>
      && ch == Changes([], [], [], SkipErrors(PlansOf(rs, cfg, currentTime), propertyName)) && cloud.locks == old(cloud.locks)
      && SetCodes(cloud.log) == SetCodes(old(cloud.log)) && DeleteCodes(cloud.log) == DeleteCodes(old(cloud.log))
  {
    MulLe(0, DueCount(PlansOf(rs, cfg, currentTime)), cfg.addMax);
    var locationId := FindLocationByName(locations, location);
    if locationId.None? {
      return Changes([], [], [], [LocationMissing(lockName, propertyName)]);
    }
    if locationId.value == [] {
      // get_devices("") answers None without a request, and filter_locks(None) raises.
      return Changes([], [], [], [Failure(NoneNotIterable)]);
    }
    if Quiet(cloud.faults) {
      QuietTail(cloud.faults);
    }
    ghost var log0 := cloud.log;
    var listing := cloud.GetLocks();
    CountsAppend(log0, Listed(listing));
    if listing.Failed? {
      return Changes([], [], [], [Failure(listing.detail)]);
    }
    var lock := FindLockByName(listing.locks, lockName);
    if lock.None? {
      return Changes([], [], [], []);
    }
    if rs.None? {
      return Changes([], [], [], [Failure(NoneNotIterable)]);
    }
    var ps := Plans(rs.value, cfg, currentTime);
    assert ps == PlansOf(rs, cfg, currentTime);
    if old(cloud.Valid()) {
      FoundWellFormed(cloud.locks, lockName);
    }
    ch := SyncLock(cloud, lock.value, lockName, propertyName, ps, cfg);
  }
}
