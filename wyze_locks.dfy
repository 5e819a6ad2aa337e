/**
 * The Wyze lock engine, `sync` in src/brands/wyze/locks.py: look the lock
 * up, list its codes, settle the account's user id, delete expired (or all)
 * guest codes, list again when anything was deleted, then for each
 * reservation create the missing code with bounded retry and read-back
 * verification, or update a code whose window has drifted. Every exception
 * the body raises ends the run with one "Unexpected Error" entry.
 */
module WyzeLocks {
  import opened Common
  import opened WyzeApi
  import opened Wyze
  import opened Reservations
  import Clock

  // ---------------------------------------------------------------------------
  // Messages (`Device.LOCK.value` is "Lock")
  // ---------------------------------------------------------------------------

  function DeviceNotFound(lockName: string, propertyName: string): string {
    "Device Not Found: Unable to fetch Lock info for " + lockName + " at " + propertyName
    + ". Please verify the Lock exists and is connected."
  }

  function CodesUnreadable(lockName: string, propertyName: string): string {
    "Lock Code Error: Unable to fetch codes for " + lockName + " at " + propertyName
    + ". The Lock may be offline or experiencing connectivity issues."
  }

  function NoUserId(lockName: string, propertyName: string): string {
    "Authentication Error: Unable to find user_id for Lock " + lockName + " at " + propertyName
    + ". This may indicate an account permissions issue."
  }

  function DeleteFailed(lockName: string, name: string): string {
    "Deleting Lock Code for " + lockName + ": " + name
  }

  function MissingGuest(propertyName: string): string {
    "Missing Data: Reservation is missing guest name for " + propertyName
    + ". Skipping lock code management for this reservation."
  }

  function MissingPhone(first: string, propertyName: string): string {
    "Missing Phone Number: Guest " + first + " has no phone number associated with their reservation at "
    + propertyName + ". Skipping code creation."
  }

  function PhoneTooShort(first: string, propertyName: string): string {
    "Invalid Phone Number: Phone number for guest " + first + " at " + propertyName
    + " doesn't have enough digits. Skipping code creation."
  }

  function PhoneFailed(first: string, propertyName: string, detail: string): string {
    "Phone Number Error: Failed to process phone number for guest " + first + " at " + propertyName
    + ". Error: " + detail
  }

  function AddVerifyFailed(addMax: nat, lockName: string, name: string): string {
    "Failed to add and verify Lock code after " + IntToString(addMax) + " attempts for " + lockName + ": " + name
  }

  function AddFailed(lockName: string, name: string, attempt: nat): string {
    "Failed to add Lock code for " + lockName + ": " + name + " (attempt " + IntToString(attempt) + ")"
  }

  function UpdateFailed(lockName: string, name: string): string {
    "Updating Lock Code for " + lockName + ": " + name
  }

  function Unexpected(propertyName: string, detail: string): string {
    "Unexpected Error in Wyze Lock function for " + propertyName + ": " + detail
  }

  // ---------------------------------------------------------------------------
  // The deletion rule
  // ---------------------------------------------------------------------------

  /** Line 83-85: a guest code, and either every guest code goes or this one is a window that ended before `now`. */
  predicate Eligible(c: Code, now: int, deleteAll: bool) {
    StartsWith(c.name, "Guest") && (deleteAll || (c.permission.kind == Duration && c.permission.end < now))
  }

  /** The codes the deletion pass deletes, in listing order. */
  function EligibleCodes(codes: seq<Code>, now: int, deleteAll: bool): (r: seq<Code>)
    ensures forall c :: c in r <==> c in codes && Eligible(c, now, deleteAll)
    ensures |r| <= |codes|
  {
    if codes == [] then []
    else
      var init := codes[..|codes| - 1];
      var last := codes[|codes| - 1];
      assert codes == init + [last];
      EligibleCodes(init, now, deleteAll) + (if Eligible(last, now, deleteAll) then [last] else [])
  }

  predicate NoneEligible(codes: seq<Code>, now: int, deleteAll: bool) {
    forall i :: 0 <= i < |codes| ==> !Eligible(codes[i], now, deleteAll)
  }

  /** A listing with nothing eligible gives the deletion pass nothing to do. */
  lemma NothingEligible(codes: seq<Code>, now: int, deleteAll: bool)
    requires NoneEligible(codes, now, deleteAll)
    ensures EligibleCodes(codes, now, deleteAll) == []
  {
  }

  /** A code the engine did not shape itself is never deleted unless its name starts with "Guest". */
  lemma OnlyGuestCodesDeleted(codes: seq<Code>, now: int, deleteAll: bool, c: Code)
    requires c in codes && !StartsWith(c.name, "Guest")
    ensures c !in EligibleCodes(codes, now, deleteAll)
  {
  }

  /** The log of the deletion pass: one delete per eligible code, in order. */
  ghost function DeleteCalls(mac: string, doomed: seq<Code>, responses: seq<Response>): (r: seq<Call>)
    requires |responses| == |doomed|
    ensures |r| == |doomed|
  {
    seq(|doomed|, k requires 0 <= k < |doomed| => Deleted(mac, doomed[k].id, responses[k]))
  }

  /** Lines 86-89: the deletion entries, one for each delete that `delete_lock_code` calls a success. */
  function Removed(lockName: string, doomed: seq<Code>, responses: seq<Response>): (r: seq<string>)
    requires |responses| == |doomed|
    ensures |r| <= |doomed|
  {
    if doomed == [] then []
    else
      var n := |doomed| - 1;
      var rest := Removed(lockName, doomed[..n], responses[..n]);
      if DeleteResult(responses[n]) == Some(true) then rest + [Entry(lockName, doomed[n].name)] else rest
  }

  /** The error entries of the deletion pass, one for each delete that is not a success. */
  function NotRemoved(lockName: string, doomed: seq<Code>, responses: seq<Response>): (r: seq<string>)
    requires |responses| == |doomed|
    ensures |r| <= |doomed|
  {
    if doomed == [] then []
    else
      var n := |doomed| - 1;
      var rest := NotRemoved(lockName, doomed[..n], responses[..n]);
      if DeleteResult(responses[n]) == Some(true) then rest else rest + [DeleteFailed(lockName, doomed[n].name)]
  }

  /** A deletion entry names a code whose delete succeeded; an error entry one whose delete did not. */
  lemma {:induction false} RemovedMeans(lockName: string, doomed: seq<Code>, responses: seq<Response>, x: string)
    requires |responses| == |doomed|
    ensures x in Removed(lockName, doomed, responses) ==>
      exists k :: 0 <= k < |doomed| && DeleteResult(responses[k]) == Some(true) && x == Entry(lockName, doomed[k].name)
    ensures x in NotRemoved(lockName, doomed, responses) ==>
      exists k :: 0 <= k < |doomed| && DeleteResult(responses[k]) != Some(true) && x == DeleteFailed(lockName, doomed[k].name)
  {
    if doomed != [] {
      var n := |doomed| - 1;
      RemovedMeans(lockName, doomed[..n], responses[..n], x);
      if x in Removed(lockName, doomed[..n], responses[..n]) {
        var k :| 0 <= k < n && DeleteResult(responses[..n][k]) == Some(true) && x == Entry(lockName, doomed[..n][k].name);
        assert responses[..n][k] == responses[k] && doomed[..n][k] == doomed[k];
      }
      if x in NotRemoved(lockName, doomed[..n], responses[..n]) {
        var k :| 0 <= k < n && DeleteResult(responses[..n][k]) != Some(true) && x == DeleteFailed(lockName, doomed[..n][k].name);
        assert responses[..n][k] == responses[k] && doomed[..n][k] == doomed[k];
      }
    }
  }

  /** Every attempted deletion lands in exactly one of the two lists. */
  lemma {:induction false} RemovedOrNot(lockName: string, doomed: seq<Code>, responses: seq<Response>)
    requires |responses| == |doomed|
    ensures |Removed(lockName, doomed, responses)| + |NotRemoved(lockName, doomed, responses)| == |doomed|
  {
    if doomed != [] {
      var n := |doomed| - 1;
      RemovedOrNot(lockName, doomed[..n], responses[..n]);
    }
  }

  /** Under a vendor that performs every delete, every deletion is recorded and none fails. */
  lemma {:induction false} AllRemoved(lockName: string, doomed: seq<Code>, responses: seq<Response>)
    requires |responses| == |doomed| && forall k :: 0 <= k < |responses| ==> responses[k] == ErrNo(0)
    ensures NotRemoved(lockName, doomed, responses) == []
    ensures |Removed(lockName, doomed, responses)| == |doomed|
  {
    if doomed != [] {
      var n := |doomed| - 1;
      AllRemoved(lockName, doomed[..n], responses[..n]);
    }
  }

  /** One more delete extends the log and exactly one of the two lists. */
  lemma DeletionSnoc(lockName: string, doomed: seq<Code>, responses: seq<Response>, c: Code, r: Response)
    requires |responses| == |doomed|
    ensures Removed(lockName, doomed + [c], responses + [r])
      == Removed(lockName, doomed, responses) + (if DeleteResult(r) == Some(true) then [Entry(lockName, c.name)] else [])
    ensures NotRemoved(lockName, doomed + [c], responses + [r])
      == NotRemoved(lockName, doomed, responses) + (if DeleteResult(r) == Some(true) then [] else [DeleteFailed(lockName, c.name)])
  {
    assert (doomed + [c])[..|doomed|] == doomed;
    assert (responses + [r])[..|responses|] == responses;
  }

  lemma DeleteCallsSnoc(mac: string, doomed: seq<Code>, responses: seq<Response>, c: Code, r: Response)
    requires |responses| == |doomed|
    ensures DeleteCalls(mac, doomed + [c], responses + [r]) == DeleteCalls(mac, doomed, responses) + [Deleted(mac, c.id, r)]
  {
  }

  // ---------------------------------------------------------------------------
  // Log helpers
  // ---------------------------------------------------------------------------

  ghost predicate Grows(before: seq<Call>, after: seq<Call>) {
    |before| <= |after| && after[..|before|] == before
  }

  /** The number of `create_access_code` calls in `calls`. */
  ghost function Creates(calls: seq<Call>): nat {
    if calls == [] then 0
    else Creates(calls[..|calls| - 1]) + (if calls[|calls| - 1].Created? then 1 else 0)
  }

  lemma GrowsTrans(a: seq<Call>, b: seq<Call>, c: seq<Call>)
    requires Grows(a, b) && Grows(b, c)
    ensures Grows(a, c)
  {
    assert c[..|a|] == c[..|b|][..|a|];
  }

  /** The bound on creates after `i` of `n` reservations. */
  lemma BoundStep(i: nat, n: nat, addMax: nat)
    requires i <= n
    ensures i * addMax + addMax == (i + 1) * addMax && i * addMax <= n * addMax
  {
  }

  lemma CreatesAppend(calls: seq<Call>, c: Call)
    ensures Creates(calls + [c]) == Creates(calls) + (if c.Created? then 1 else 0)
  {
    assert (calls + [c])[..|calls|] == calls;
  }

  /** A listing of lock `mac` that shows a code named `name`. */
  ghost predicate ShowsLabel(c: Call, mac: string, name: string) {
    c.Listed? && c.mac == mac && c.result.Some? && FindCode(c.result.value, name).Some?
  }

  lemma QuietTail(fs: seq<Fault>)
    requires Quiet(fs)
    ensures Quiet(Tail(fs)) && Head(fs) == Normal
  {
    if fs != [] {
      forall i | 0 <= i < |fs[1..]| ensures fs[1..][i] == Normal {
        assert fs[1..][i] == fs[i + 1];
      }
    }
  }

  // ---------------------------------------------------------------------------
  // Step 1: the deletion pass and the re-read
  // ---------------------------------------------------------------------------

  /** Lines 86-89 for one code: the delete call and its entry in one of the two lists. */
  method DeleteOne(acct: Account, mac: string, lockName: string, c: Code, ghost done: seq<Code>, ghost responses: seq<Response>,
                   deletions: seq<string>, errors: seq<string>)
      returns (deletions': seq<string>, errors': seq<string>, ghost r: Response)
    requires acct.Valid() && |responses| == |done|
    requires deletions == Removed(lockName, done, responses) && errors == NotRemoved(lockName, done, responses)
    modifies acct
    ensures acct.Valid()
    ensures acct.devices == old(acct.devices) && acct.userId == old(acct.userId) && acct.nextId == old(acct.nextId)
    ensures deletions' == Removed(lockName, done + [c], responses + [r])
    ensures errors' == NotRemoved(lockName, done + [c], responses + [r])
    ensures acct.log == old(acct.log) + [Deleted(mac, c.id, r)]
    ensures OnlyMacChanged(old(acct.locks), acct.locks, mac)
    ensures Quiet(old(acct.faults)) ==> Quiet(acct.faults) && r == ErrNo(0) && acct.Keys(mac) == WithoutId(old(acct.Keys(mac)), c.id)
  {
    if Quiet(acct.faults) { QuietTail(acct.faults); }
    r := Answer(Head(acct.faults));
    var ok := DeleteLockCode(acct, mac, c.id);
    DeletionSnoc(lockName, done, responses, c, r);
    if ok == Some(true) {
      deletions', errors' := deletions + [Entry(lockName, c.name)], errors;
    } else {
      deletions', errors' := deletions, errors + [DeleteFailed(lockName, c.name)];
    }
  }

  /**
   * Lines 82-91: delete each code of `doomed` in turn, recording a deletion
   * or an error for each.
   */
  method DeleteEach(acct: Account, mac: string, lockName: string, doomed: seq<Code>)
      returns (deletions: seq<string>, errors: seq<string>, ghost responses: seq<Response>)
    requires acct.Valid()
    modifies acct
    ensures acct.Valid()
    ensures acct.devices == old(acct.devices) && acct.userId == old(acct.userId) && acct.nextId == old(acct.nextId)
    ensures |responses| == |doomed|
    ensures deletions == Removed(lockName, doomed, responses)
    ensures errors == NotRemoved(lockName, doomed, responses)
    ensures acct.log == old(acct.log) + DeleteCalls(mac, doomed, responses)
    ensures OnlyMacChanged(old(acct.locks), acct.locks, mac)
    ensures Quiet(old(acct.faults)) ==> Quiet(acct.faults)
    ensures Quiet(old(acct.faults)) ==> forall c :: c in acct.Keys(mac) ==> c in old(acct.Keys(mac)) && c !in doomed
  {
    deletions, errors, responses := [], [], [];
    ghost var quiet := Quiet(acct.faults);
    ghost var log0, keys0 := acct.log, acct.Keys(mac);
    ghost var done: seq<Code> := [];
    var i := 0;
    while i < |doomed|
      invariant 0 <= i <= |doomed| && done == doomed[..i] && |responses| == i
      invariant acct.Valid()
      invariant acct.devices == old(acct.devices) && acct.userId == old(acct.userId) && acct.nextId == old(acct.nextId)
      invariant deletions == Removed(lockName, done, responses)
      invariant OnlyMacChanged(old(acct.locks), acct.locks, mac)
      invariant errors == NotRemoved(lockName, done, responses)
      invariant acct.log == log0 + DeleteCalls(mac, done, responses)
      invariant quiet ==> Quiet(acct.faults)
      invariant quiet ==> forall c :: c in acct.Keys(mac) ==> c in keys0 && c !in done
    {
      var c := doomed[i];
      ghost var r;
      deletions, errors, r := DeleteOne(acct, mac, lockName, c, done, responses, deletions, errors);
      DeleteCallsSnoc(mac, done, responses, c, r);
      done, responses := done + [c], responses + [r];
      i := i + 1;
    }
    assert done == doomed;
  }

  /**
   * Lines 79-96: delete every eligible code of the listing `codes`, then list
   * the codes again if any delete was attempted. `refreshed` is the listing
   * the reservation loop works from.
   */
  method PurgeExpired(acct: Account, mac: string, lockName: string, codes: seq<Code>, now: int, deleteAll: bool)
      returns (deletions: seq<string>, errors: seq<string>, refreshed: Option<seq<Code>>, ghost responses: seq<Response>)
    requires acct.Valid()
    modifies acct
    ensures acct.Valid()
    ensures acct.devices == old(acct.devices) && acct.userId == old(acct.userId) && acct.nextId == old(acct.nextId)
    ensures |responses| == |EligibleCodes(codes, now, deleteAll)|
    ensures deletions == Removed(lockName, EligibleCodes(codes, now, deleteAll), responses)
    ensures errors == NotRemoved(lockName, EligibleCodes(codes, now, deleteAll), responses)
    ensures EligibleCodes(codes, now, deleteAll) == [] ==>
      refreshed == Some(codes) && acct.log == old(acct.log) && acct.locks == old(acct.locks) && acct.faults == old(acct.faults)
    ensures EligibleCodes(codes, now, deleteAll) != [] ==>
      acct.log == old(acct.log) + DeleteCalls(mac, EligibleCodes(codes, now, deleteAll), responses) + [Listed(mac, refreshed)]
    ensures OnlyMacChanged(old(acct.locks), acct.locks, mac)
    ensures Quiet(old(acct.faults)) ==> Quiet(acct.faults)
    ensures Quiet(old(acct.faults)) && codes == old(acct.Keys(mac)) ==> refreshed == Some(acct.Keys(mac))
    ensures Quiet(old(acct.faults)) && codes == old(acct.Keys(mac)) ==> NoneEligible(acct.Keys(mac), now, deleteAll)
  {
    var doomed := EligibleCodes(codes, now, deleteAll);
    ghost var quiet := Quiet(acct.faults);
    ghost var original := acct.Keys(mac);
    if doomed != [] {
      deletions, errors, responses := DeleteEach(acct, mac, lockName, doomed);
      if quiet { QuietTail(acct.faults); }
      refreshed := acct.GetKeys(mac);
    } else {
      deletions, errors, responses, refreshed := [], [], [], Some(codes);
    }
    if quiet && codes == original {
      forall j | 0 <= j < |acct.Keys(mac)| ensures !Eligible(acct.Keys(mac)[j], now, deleteAll) {
        var c := acct.Keys(mac)[j];
        assert c in original && c !in doomed;
      }
    }
  }

  // ---------------------------------------------------------------------------
  // Step 2: what each reservation asks of the lock
  // ---------------------------------------------------------------------------

  /** The code a reservation wants: its label, the four digits, and the offset window. */
  datatype Wanted = Wanted(name: string, rawCode: string, begin: int, end: int)

  /** Lines 158-162: the permission of a managed code. */
  function Window(w: Wanted): Permission {
    Permission(Duration, w.begin, w.end)
  }

  /**
   * What the loop body does with a reservation before it looks at the lock:
   * it records a validation error (`Invalid`), raises (`Raises`, with the
   * text of the exception), lets a finished stay pass (`Past`), or manages
   * one code.
   */
  datatype Plan = Invalid(screening: Screening) | Raises(detail: string) | Past | Manage(w: Wanted)

  /** Lines 107-156, in their order: screening, label, both window ends, the `current_time` test. */
  function PlanFor(r: Reservation, cfg: Config, currentTime: int): (p: Plan)
    ensures p.Invalid? <==> Screen(r).NoGuest? || Screen(r).NoPhone? || Screen(r).PhoneError? || Screen(r).ShortPhone?
    ensures p.Invalid? ==> p.screening == Screen(r)
    ensures Screen(r).GuestRaises? ==> p == Raises(Screen(r).detail)
    ensures Screen(r).BlankGuest? ==> p == Raises(IndexOutOfRange)
    ensures Screen(r).Accepted? && Clock.FormatDatetime(r.checkin, cfg.checkInOffset).None? ==> p == Raises(Clock.BadTimestamp(r.checkin))
    ensures p.Manage? || p.Past? <==>
      Screen(r).Accepted? && Clock.FormatDatetime(r.checkin, cfg.checkInOffset).Some? && Clock.FormatDatetime(r.checkout, cfg.checkOutOffset).Some?
    ensures p.Manage? ==> p.w.name == Label(Screen(r).first, r.checkin) && p.w.rawCode == Screen(r).rawCode
    ensures p.Manage? ==> Clock.FormatDatetime(r.checkin, cfg.checkInOffset) == Some(p.w.begin)
    ensures p.Manage? ==> Clock.FormatDatetime(r.checkout, cfg.checkOutOffset) == Some(p.w.end) && currentTime < p.w.end
    ensures p.Past? ==> currentTime >= Clock.FormatDatetime(r.checkout, cfg.checkOutOffset).value
  {
    match Screen(r)
    case NoGuest => Invalid(NoGuest)
    case GuestRaises(e) => Raises(e)
    case BlankGuest => Raises(IndexOutOfRange)
    case NoPhone(f) => Invalid(NoPhone(f))
    case PhoneError(f, e) => Invalid(PhoneError(f, e))
    case ShortPhone(f) => Invalid(ShortPhone(f))
    case Accepted(first, rawCode) =>
      match Clock.FormatDatetime(r.checkin, cfg.checkInOffset)
      case None => Raises(Clock.BadTimestamp(r.checkin))
      case Some(begin) =>
        match Clock.FormatDatetime(r.checkout, cfg.checkOutOffset)
        case None => Raises(Clock.BadTimestamp(r.checkout))
        case Some(end) =>
          if currentTime < end then Manage(Wanted(Label(first, r.checkin), rawCode, begin, end)) else Past
  }

  /** The error entry of a reservation the validation turns away. */
  function SkipMessage(s: Screening, propertyName: string): string {
    match s
    case NoPhone(first) => MissingPhone(first, propertyName)
    case PhoneError(first, e) => PhoneFailed(first, propertyName, e)
    case ShortPhone(first) => PhoneTooShort(first, propertyName)
    case _ => MissingGuest(propertyName)
  }

  /** Line 229 finds nothing to change: the first code with the label has the wanted window. */
  predicate Settled(codes: seq<Code>, w: Wanted) {
    FindCode(codes, w.name).Some?
    && FindCode(codes, w.name).value.permission.begin == w.begin
    && FindCode(codes, w.name).value.permission.end == w.end
  }

  /**
   * The table after a managed reservation under a vendor that performs every
   * call: a create with the next id when the label is absent, an update of
   * the first code with the label when its window differs, nothing otherwise.
   */
  function Effect(codes: seq<Code>, w: Wanted, id: int, userId: Option<int>): seq<Code> {
    match FindCode(codes, w.name)
    case None => codes + [Code(id, w.name, w.rawCode, Window(w), userId)]
    case Some(c) =>
      if c.permission.begin != w.begin || c.permission.end != w.end then WithUpdate(codes, c.id, w.rawCode, w.name, Window(w))
      else codes
  }

  /** Why the update touches only the code it finds: no other code shares its id. */
  lemma OnlyFoundHasId(codes: seq<Code>, name: string)
    requires UniqueIds(codes) && FindCode(codes, name).Some?
    ensures forall i :: 0 <= i < |codes| && codes[i].id == FindCode(codes, name).value.id ==> i == FindIndex(codes, name)
    ensures FindCode(codes, name).value == codes[FindIndex(codes, name)]
  {
  }

  /** After the effect, the reservation's label shows the wanted window. */
  lemma EffectSettles(codes: seq<Code>, w: Wanted, id: int, userId: Option<int>)
    requires UniqueIds(codes)
    ensures Settled(Effect(codes, w, id, userId), w)
  {
    match FindCode(codes, w.name)
    case None =>
      FindIndexAppend(codes, Code(id, w.name, w.rawCode, Window(w), userId), w.name);
    case Some(c) =>
      if c.permission.begin != w.begin || c.permission.end != w.end {
        OnlyFoundHasId(codes, w.name);
        FindIndexUpdate(codes, c.id, w.rawCode, w.name, Window(w), w.name);
      }
  }

  /** The effect leaves the lookup of every other label as it was. */
  lemma EffectKeeps(codes: seq<Code>, w: Wanted, id: int, userId: Option<int>, other: string)
    requires UniqueIds(codes) && other != w.name
    ensures FindCode(Effect(codes, w, id, userId), other) == FindCode(codes, other)
  {
    match FindCode(codes, w.name)
    case None =>
      FindIndexAppend(codes, Code(id, w.name, w.rawCode, Window(w), userId), other);
    case Some(c) =>
      if c.permission.begin != w.begin || c.permission.end != w.end {
        OnlyFoundHasId(codes, w.name);
        FindIndexUpdate(codes, c.id, w.rawCode, w.name, Window(w), other);
      }
  }

  /** The effect of a reservation that has not ended at `now` makes nothing eligible for the next deletion pass. */
  lemma EffectEligible(codes: seq<Code>, w: Wanted, id: int, userId: Option<int>, now: int)
    requires NoneEligible(codes, now, false) && now <= w.end
    ensures NoneEligible(Effect(codes, w, id, userId), now, false)
  {
    var r := Effect(codes, w, id, userId);
    forall i | 0 <= i < |r| ensures !Eligible(r[i], now, false) {
      if i < |codes| && r[i] != codes[i] {
        assert r[i].permission == Window(w);
      }
    }
  }

  /** The effect changes nothing exactly when the label already shows the wanted window. */
  lemma EffectIdle(codes: seq<Code>, w: Wanted, id: int, userId: Option<int>)
    ensures Effect(codes, w, id, userId) == codes <==> Settled(codes, w)
  {
    match FindCode(codes, w.name)
    case None =>
      assert |Effect(codes, w, id, userId)| == |codes| + 1;
    case Some(c) =>
      if c.permission.begin != w.begin || c.permission.end != w.end {
        var i := FindIndex(codes, w.name);
        assert Effect(codes, w, id, userId)[i].permission == Window(w) != codes[i].permission;
      }
  }

  // ---------------------------------------------------------------------------
  // Step 2: the add and verify loops
  // ---------------------------------------------------------------------------

  /** The lock tables of every other MAC are as they were. */
  ghost predicate OnlyMacChanged(before: map<string, seq<Code>>, after: map<string, seq<Code>>, mac: string) {
    forall m :: m != mac ==> (m in before <==> m in after) && (m in before ==> before[m] == after[m])
  }

  lemma FindAppended(codes: seq<Code>, c: Code)
    ensures FindCode(codes + [c], c.name).Some?
  {
    assert (codes + [c])[|codes|] == c;
  }

  lemma KeysUnique(acct: Account, mac: string)
    requires acct.Valid()
    ensures UniqueIds(acct.Keys(mac))
  {
  }

  /**
   * Lines 177-188: list the codes up to `verifyMax` times, stopping at the
   * first listing that shows `name`. A listing that fails is handed to
   * `find_code`, which iterates `None` and raises (`raised`).
   */
  method VerifyAdded(acct: Account, mac: string, name: string, verifyMax: nat) returns (verified: bool, raised: bool)
    requires acct.Valid()
    modifies acct
    ensures acct.Valid()
    ensures acct.locks == old(acct.locks) && acct.nextId == old(acct.nextId)
    ensures acct.devices == old(acct.devices) && acct.userId == old(acct.userId)
    ensures Creates(acct.log) == Creates(old(acct.log)) && Grows(old(acct.log), acct.log)
    ensures verified ==> !raised && |acct.log| > |old(acct.log)| && ShowsLabel(acct.log[|acct.log| - 1], mac, name)
    ensures raised ==> |acct.log| > |old(acct.log)| && acct.log[|acct.log| - 1] == Listed(mac, None)
    ensures !verified && !raised ==> |acct.log| == |old(acct.log)| + verifyMax
    ensures Quiet(old(acct.faults)) && FindCode(old(acct.Keys(mac)), name).Some? ==>
      Quiet(acct.faults) && !raised && (verified <==> verifyMax >= 1)
  {
    verified, raised := false, false;
    ghost var quiet := Quiet(acct.faults) && FindCode(acct.Keys(mac), name).Some?;
    ghost var log0 := acct.log;
    var attempt := 0;
    while attempt < verifyMax && !verified && !raised
      invariant 0 <= attempt <= verifyMax
      invariant acct.locks == old(acct.locks) && acct.nextId == old(acct.nextId)
      invariant acct.devices == old(acct.devices) && acct.userId == old(acct.userId)
      invariant Creates(acct.log) == Creates(log0) && Grows(log0, acct.log) && |acct.log| == |log0| + attempt
      invariant verified ==> !raised && attempt > 0 && ShowsLabel(acct.log[|acct.log| - 1], mac, name)
      invariant raised ==> attempt > 0 && acct.log[|acct.log| - 1] == Listed(mac, None)
      invariant quiet ==> Quiet(acct.faults) && !raised && (attempt > 0 ==> verified)
    {
      if Quiet(acct.faults) { QuietTail(acct.faults); }
      ghost var before := acct.log;
      var listing := acct.GetKeys(mac);
      CreatesAppend(before, Listed(mac, listing));
      attempt := attempt + 1;
      if listing.None? {
        raised := true;
      } else if FindCode(listing.value, name).Some? {
        verified := true;
      }
    }
  }

  /** How the add loop ends. */
  datatype AddOutcome =
    | Added                   // a listing shows the label: one addition entry
    | GaveUp(message: string) // one error entry
    | Silent                  // `LOCK_CODE_ADD_MAX_ATTEMPTS` is 0: the loop never runs
    | Aborted(detail: string) // an exception leaves the loop and the run

  /**
   * One pass of the loop of lines 171-213 at attempt `attempt`: a create,
   * and after a successful one the verify loop. `Silent` is the `continue`
   * to the next attempt, which happens only while attempts remain.
   */
  method AddAttempt(acct: Account, mac: string, lockName: string, w: Wanted, cfg: Config, attempt: nat) returns (o: AddOutcome)
    requires acct.Valid() && 1 <= attempt <= cfg.addMax
    modifies acct
    ensures acct.Valid()
    ensures acct.devices == old(acct.devices) && acct.userId == old(acct.userId)
    ensures OnlyMacChanged(old(acct.locks), acct.locks, mac)
    ensures Grows(old(acct.log), acct.log) && Creates(acct.log) == Creates(old(acct.log)) + 1
    ensures o == Silent ==> attempt < cfg.addMax
    ensures o.Added? ==> |acct.log| > |old(acct.log)| && ShowsLabel(acct.log[|acct.log| - 1], mac, w.name)
    ensures o.GaveUp? ==> o.message == AddVerifyFailed(cfg.addMax, lockName, w.name) || o.message == AddFailed(lockName, w.name, cfg.addMax)
    ensures o.Aborted? ==> (cfg.verifyMax == 0 && o.detail == UnboundVerifyAttempt) || o.detail == NoneNotIterable
    ensures Quiet(old(acct.faults)) && cfg.verifyMax >= 1 ==>
      o == Added && Quiet(acct.faults) && acct.nextId > old(acct.nextId)
      && acct.Keys(mac) == old(acct.Keys(mac)) + [Code(old(acct.nextId), w.name, w.rawCode, Window(w), old(acct.userId))]
  {
    o := Silent;
    ghost var quiet := Quiet(acct.faults);
    if quiet { QuietTail(acct.faults); }
    ghost var before, keys0 := acct.log, acct.Keys(mac);
    ghost var created := Code(acct.nextId, w.name, w.rawCode, Window(w), acct.userId);
    ghost var resp := Answer(Head(acct.faults));
    var ok := AddLockCode(acct, mac, w.rawCode, w.name, Window(w));
    CreatesAppend(before, Created(mac, w.rawCode, w.name, Window(w), resp));
    if ok == Some(true) {
      if quiet { FindAppended(keys0, created); }
      var verified, raised := VerifyAdded(acct, mac, w.name, cfg.verifyMax);
      if raised {
        o := Aborted(NoneNotIterable);
      } else if verified {
        o := Added;
      } else if cfg.verifyMax == 0 {
        o := Aborted(UnboundVerifyAttempt);
      } else if attempt == cfg.addMax {
        o := GaveUp(AddVerifyFailed(cfg.addMax, lockName, w.name));
      }
    } else if attempt == cfg.addMax {
      o := GaveUp(AddFailed(lockName, w.name, attempt));
    }
  }

  /**
   * Lines 171-213: up to `addMax` attempts, stopping at the first that does
   * not continue. With `verifyMax` 0 the test of line 192 reads
   * `verify_attempt` before it was ever bound and raises.
   */
  method AddWithRetry(acct: Account, mac: string, lockName: string, w: Wanted, cfg: Config) returns (o: AddOutcome)
    requires acct.Valid()
    modifies acct
    ensures acct.Valid()
    ensures acct.devices == old(acct.devices) && acct.userId == old(acct.userId)
    ensures OnlyMacChanged(old(acct.locks), acct.locks, mac)
    ensures Grows(old(acct.log), acct.log) && Creates(acct.log) <= Creates(old(acct.log)) + cfg.addMax
    ensures o == Silent <==> cfg.addMax == 0
    ensures o == Silent ==> acct.log == old(acct.log) && acct.locks == old(acct.locks) && acct.faults == old(acct.faults)
    ensures o.Added? ==> |acct.log| > |old(acct.log)| && ShowsLabel(acct.log[|acct.log| - 1], mac, w.name)
    ensures o.GaveUp? ==> o.message == AddVerifyFailed(cfg.addMax, lockName, w.name) || o.message == AddFailed(lockName, w.name, cfg.addMax)
    ensures o.Aborted? ==> (cfg.verifyMax == 0 && o.detail == UnboundVerifyAttempt) || o.detail == NoneNotIterable
    ensures Quiet(old(acct.faults)) && cfg.addMax >= 1 && cfg.verifyMax >= 1 ==>
      o == Added && Quiet(acct.faults) && acct.nextId > old(acct.nextId)
      && acct.Keys(mac) == old(acct.Keys(mac)) + [Code(old(acct.nextId), w.name, w.rawCode, Window(w), old(acct.userId))]
  {
    o := Silent;
    ghost var quiet := Quiet(acct.faults) && cfg.verifyMax >= 1;
    ghost var log0, locks0, faults0, keys0, id0 := acct.log, acct.locks, acct.faults, acct.Keys(mac), acct.nextId;
    var attempt := 1;
    var done := false;
    while attempt <= cfg.addMax && !done
      invariant 1 <= attempt <= cfg.addMax + 1
      invariant acct.Valid() && acct.devices == old(acct.devices) && acct.userId == old(acct.userId)
      invariant OnlyMacChanged(locks0, acct.locks, mac)
      invariant Grows(log0, acct.log) && Creates(acct.log) <= Creates(log0) + attempt - 1
      invariant !done <==> o == Silent
      invariant !done ==> attempt <= cfg.addMax || attempt == 1
      invariant attempt == 1 ==> !done && acct.log == log0 && acct.locks == locks0 && acct.faults == faults0 && acct.nextId == id0
      invariant o.Added? ==> |acct.log| > |log0| && ShowsLabel(acct.log[|acct.log| - 1], mac, w.name)
      invariant o.GaveUp? ==> o.message == AddVerifyFailed(cfg.addMax, lockName, w.name) || o.message == AddFailed(lockName, w.name, cfg.addMax)
      invariant o.Aborted? ==> (cfg.verifyMax == 0 && o.detail == UnboundVerifyAttempt) || o.detail == NoneNotIterable
      invariant quiet && attempt > 1 ==>
        (o == Added && Quiet(acct.faults) && acct.nextId > id0 && acct.Keys(mac) == keys0 + [Code(id0, w.name, w.rawCode, Window(w), acct.userId)])
    {
      o := AddAttempt(acct, mac, lockName, w, cfg, attempt);
      done := o != Silent;
      attempt := attempt + 1;
    }
  }

  // ---------------------------------------------------------------------------
  // Step 2: one reservation
  // ---------------------------------------------------------------------------

  /**
   * Exactly one outcome of the add branch: an addition, one of the two
   * give-up errors, an exception, or (with no attempts configured) nothing.
   */
  predicate AddRecorded(ch: Changes, ch2: Changes, abort: Option<string>, lockName: string, name: string, cfg: Config) {
    && ch2.deletions == ch.deletions && ch2.updates == ch.updates
    && (|| (abort.None? && ch2 == ch.(additions := ch.additions + [Entry(lockName, name)]))
        || (abort.None? && ch2 == ch.(errors := ch.errors + [AddVerifyFailed(cfg.addMax, lockName, name)]))
        || (abort.None? && ch2 == ch.(errors := ch.errors + [AddFailed(lockName, name, cfg.addMax)]))
        || (abort.Some? && ch2 == ch && (abort.value == NoneNotIterable || (cfg.verifyMax == 0 && abort.value == UnboundVerifyAttempt)))
        || (abort.None? && ch2 == ch && cfg.addMax == 0))
  }

  /**
   * Lines 164-234 for a managed reservation, against the listing `existing`
   * the loop works from: add the absent label, or update the first code
   * with the label when its window differs.
   */
  method ManageCode(acct: Account, mac: string, lockName: string, existing: seq<Code>, w: Wanted, cfg: Config, ch: Changes)
      returns (ch2: Changes, abort: Option<string>)
    requires acct.Valid()
    modifies acct
    ensures acct.Valid()
    ensures acct.devices == old(acct.devices) && acct.userId == old(acct.userId)
    ensures OnlyMacChanged(old(acct.locks), acct.locks, mac)
    ensures Grows(old(acct.log), acct.log) && Creates(acct.log) <= Creates(old(acct.log)) + cfg.addMax
    ensures Settled(existing, w) ==>
      ch2 == ch && abort.None? && acct.log == old(acct.log) && acct.locks == old(acct.locks) && acct.faults == old(acct.faults)
    ensures FindCode(existing, w.name).Some? && !Settled(existing, w) ==>
      abort.None? && acct.log == old(acct.log) + [Updated(mac, FindCode(existing, w.name).value.id, w.rawCode, w.name, Window(w), Answer(Head(old(acct.faults))))]
    ensures FindCode(existing, w.name).Some? && !Settled(existing, w) ==>
      ch2 == if Answer(Head(old(acct.faults))) == ErrNo(0) then ch.(updates := ch.updates + [Entry(lockName, w.name)])
             else ch.(errors := ch.errors + [UpdateFailed(lockName, w.name)])
    ensures FindCode(existing, w.name).None? ==> AddRecorded(ch, ch2, abort, lockName, w.name, cfg)
    ensures FindCode(existing, w.name).None? ==> (ch2 == ch && abort.None? <==> cfg.addMax == 0)
    ensures FindCode(existing, w.name).None? && ch2.additions != ch.additions ==>
      |acct.log| > |old(acct.log)| && ShowsLabel(acct.log[|acct.log| - 1], mac, w.name)
    ensures Quiet(old(acct.faults)) && cfg.addMax >= 1 && cfg.verifyMax >= 1 && FindCode(existing, w.name) == FindCode(old(acct.Keys(mac)), w.name) ==>
      Quiet(acct.faults) && abort.None? && acct.Keys(mac) == Effect(old(acct.Keys(mac)), w, old(acct.nextId), old(acct.userId))
  {
    ch2, abort := ch, None;
    var code := FindCode(existing, w.name);
    if code.None? {
      var o := AddWithRetry(acct, mac, lockName, w, cfg);
      match o
      case Added => ch2 := ch.(additions := ch.additions + [Entry(lockName, w.name)]);
      case GaveUp(message) => ch2 := ch.(errors := ch.errors + [message]);
      case Silent =>
      case Aborted(detail) => abort := Some(detail);
    } else {
      var c := code.value;
      if c.permission.begin != w.begin || c.permission.end != w.end {
        if Quiet(acct.faults) { QuietTail(acct.faults); }
        var ok := UpdateLockCode(acct, mac, c.id, w.rawCode, w.name, Window(w));
        if ok == Some(true) {
          ch2 := ch.(updates := ch.updates + [Entry(lockName, w.name)]);
        } else {
          ch2 := ch.(errors := ch.errors + [UpdateFailed(lockName, w.name)]);
        }
        CreatesAppend(old(acct.log), acct.log[|acct.log| - 1]);
        assert acct.log == old(acct.log) + [acct.log[|acct.log| - 1]];
      }
    }
  }

  /** Lines 105-234 for one reservation whose plan is `p`: its error entry, its exception, or the lock work. */
  method ProcessPlan(acct: Account, mac: string, lockName: string, propertyName: string, existing: Option<seq<Code>>,
                     p: Plan, cfg: Config, ch: Changes)
      returns (ch2: Changes, abort: Option<string>)
    requires acct.Valid()
    modifies acct
    ensures acct.Valid()
    ensures acct.devices == old(acct.devices) && acct.userId == old(acct.userId)
    ensures OnlyMacChanged(old(acct.locks), acct.locks, mac)
    ensures Grows(old(acct.log), acct.log) && Creates(acct.log) <= Creates(old(acct.log)) + cfg.addMax
    ensures ch2.deletions == ch.deletions
    ensures !p.Manage? ==> acct.log == old(acct.log) && acct.locks == old(acct.locks) && acct.faults == old(acct.faults)
    ensures p.Invalid? ==> abort.None? && ch2 == ch.(errors := ch.errors + [SkipMessage(p.screening, propertyName)])
    ensures p.Raises? ==> ch2 == ch && abort == Some(p.detail)
    ensures p.Past? ==> ch2 == ch && abort.None?
    ensures p.Manage? && existing.None? ==>
      ch2 == ch && abort == Some(NoneNotIterable) && acct.log == old(acct.log) && acct.locks == old(acct.locks) && acct.faults == old(acct.faults)
    ensures p.Manage? && existing.Some? && Settled(existing.value, p.w) ==>
      ch2 == ch && abort.None? && acct.log == old(acct.log) && acct.locks == old(acct.locks) && acct.faults == old(acct.faults)
    ensures (Quiet(old(acct.faults)) && cfg.addMax >= 1 && cfg.verifyMax >= 1 && p.Manage? && existing.Some?
             && FindCode(existing.value, p.w.name) == FindCode(old(acct.Keys(mac)), p.w.name)) ==>
      Quiet(acct.faults) && abort.None? && acct.Keys(mac) == Effect(old(acct.Keys(mac)), p.w, old(acct.nextId), old(acct.userId))
  {
    ch2, abort := ch, None;
    match p
    case Invalid(screening) =>
      ch2 := ch.(errors := ch.errors + [SkipMessage(screening, propertyName)]);
    case Raises(detail) =>
      abort := Some(detail);
    case Past =>
    case Manage(w) =>
      if existing.None? {
        abort := Some(NoneNotIterable);
      } else {
        ch2, abort := ManageCode(acct, mac, lockName, existing.value, w, cfg, ch);
      }
  }

  // ---------------------------------------------------------------------------
  // Step 2: the reservation loop
  // ---------------------------------------------------------------------------

  /** The plan of each reservation, in order. */
  function Plans(rs: seq<Reservation>, cfg: Config, currentTime: int): (ps: seq<Plan>)
    ensures |ps| == |rs|
  {
    if rs == [] then [] else [PlanFor(rs[0], cfg, currentTime)] + Plans(rs[1..], cfg, currentTime)
  }

  lemma {:induction false} PlansAt(rs: seq<Reservation>, cfg: Config, currentTime: int, j: nat)
    requires j < |rs|
    ensures Plans(rs, cfg, currentTime)[j] == PlanFor(rs[j], cfg, currentTime)
  {
    if j > 0 {
      PlansAt(rs[1..], cfg, currentTime, j - 1);
      assert rs[1..][j - 1] == rs[j];
      assert Plans(rs, cfg, currentTime)[j] == Plans(rs[1..], cfg, currentTime)[j - 1];
    }
  }

  /** Every managed reservation before `i` finds its window on the lock. */
  predicate SettledUpTo(codes: seq<Code>, ps: seq<Plan>, i: int) {
    forall j :: 0 <= j < i && j < |ps| && ps[j].Manage? ==> Settled(codes, ps[j].w)
  }

  /** From `i` on, every managed reservation's label is looked up on `codes` as on `existing`. */
  predicate Agrees(codes: seq<Code>, existing: seq<Code>, ps: seq<Plan>, i: int) {
    forall j :: i <= j < |ps| && 0 <= j && ps[j].Manage? ==> FindCode(codes, ps[j].w.name) == FindCode(existing, ps[j].w.name)
  }

  /** No two managed reservations share a label. */
  predicate DistinctLabels(ps: seq<Plan>) {
    forall j, k :: 0 <= j < k < |ps| && ps[j].Manage? && ps[k].Manage? ==> ps[j].w.name != ps[k].w.name
  }

  /** No reservation makes the loop raise. */
  predicate AllRun(ps: seq<Plan>) {
    forall j :: 0 <= j < |ps| ==> !ps[j].Raises?
  }

  /**
   * The lock is reconciled with the reservations: no guest code is left for
   * the deletion rule, and every managed reservation's label shows its window.
   */
  predicate Reconciled(codes: seq<Code>, ps: seq<Plan>, now: int) {
    NoneEligible(codes, now, false) && SettledUpTo(codes, ps, |ps|)
  }

  /**
   * One managed reservation under a vendor that performs every call keeps
   * the other labels' lookups: every other managed label finds on the new
   * table what it found before.
   */
  lemma PassKeeps(codes: seq<Code>, ps: seq<Plan>, i: nat, id: int, userId: Option<int>)
    requires i < |ps| && ps[i].Manage?
    requires UniqueIds(codes) && DistinctLabels(ps)
    ensures forall j :: 0 <= j < |ps| && j != i && ps[j].Manage? ==>
      FindCode(Effect(codes, ps[i].w, id, userId), ps[j].w.name) == FindCode(codes, ps[j].w.name)
  {
    forall j | 0 <= j < |ps| && j != i && ps[j].Manage?
      ensures FindCode(Effect(codes, ps[i].w, id, userId), ps[j].w.name) == FindCode(codes, ps[j].w.name)
    {
      EffectKeeps(codes, ps[i].w, id, userId, ps[j].w.name);
    }
  }

  /** A reservation the loop does not manage leaves the loop's invariant where it was. */
  lemma PassSkip(codes: seq<Code>, existing: seq<Code>, ps: seq<Plan>, i: nat)
    requires i < |ps| && !ps[i].Manage?
    requires SettledUpTo(codes, ps, i) && Agrees(codes, existing, ps, i)
    ensures SettledUpTo(codes, ps, i + 1) && Agrees(codes, existing, ps, i + 1)
  {
  }

  /** One managed reservation under a vendor that performs every call keeps the loop's invariant. */
  lemma PassStep(codes: seq<Code>, existing: seq<Code>, ps: seq<Plan>, now: int, i: nat, id: int, userId: Option<int>)
    requires i < |ps| && ps[i].Manage? && now <= ps[i].w.end
    requires UniqueIds(codes) && DistinctLabels(ps)
    requires NoneEligible(codes, now, false)
    requires SettledUpTo(codes, ps, i) && Agrees(codes, existing, ps, i)
    ensures var after := Effect(codes, ps[i].w, id, userId);
      NoneEligible(after, now, false) && SettledUpTo(after, ps, i + 1) && Agrees(after, existing, ps, i + 1)
  {
    EffectEligible(codes, ps[i].w, id, userId, now);
    EffectSettles(codes, ps[i].w, id, userId);
    PassKeeps(codes, ps, i, id, userId);
  }

  /** Every managed window ends at or after `now`. */
  predicate Ahead(ps: seq<Plan>, now: int) {
    forall j :: 0 <= j < |ps| && ps[j].Manage? ==> now <= ps[j].w.end
  }

  /** The loop manages only reservations whose window ends after `current_time`. */
  lemma {:induction false} PlansAhead(rs: seq<Reservation>, cfg: Config, currentTime: int, now: int)
    requires now <= currentTime
    ensures Ahead(Plans(rs, cfg, currentTime), now)
  {
    if rs != [] {
      PlansAhead(rs[1..], cfg, currentTime, now);
      var ps := Plans(rs, cfg, currentTime);
      forall j | 1 <= j < |ps| ensures ps[j] == Plans(rs[1..], cfg, currentTime)[j - 1] { }
    }
  }

  /** The invariant of the reservation loop under a vendor that performs every call. */
  ghost predicate PassGood(acct: Account, mac: string, existing: seq<Code>, ps: seq<Plan>, i: int, now: int)
    reads acct
  {
    && Quiet(acct.faults) && NoneEligible(acct.Keys(mac), now, false)
    && SettledUpTo(acct.Keys(mac), ps, i) && Agrees(acct.Keys(mac), existing, ps, i)
  }

  /** The loop body of lines 105-234 at reservation `i`, with its part in the loop's invariants. */
  method PassOne(acct: Account, mac: string, lockName: string, propertyName: string, existing: Option<seq<Code>>,
                 p: Plan, cfg: Config, ch: Changes, ghost ps: seq<Plan>, ghost i: nat, ghost now: int)
      returns (ch2: Changes, abort: Option<string>)
    requires acct.Valid() && i < |ps| && ps[i] == p
    modifies acct
    ensures acct.Valid()
    ensures acct.devices == old(acct.devices) && acct.userId == old(acct.userId)
    ensures OnlyMacChanged(old(acct.locks), acct.locks, mac)
    ensures Grows(old(acct.log), acct.log) && Creates(acct.log) <= Creates(old(acct.log)) + cfg.addMax
    ensures ch2.deletions == ch.deletions
    ensures (cfg.addMax >= 1 && cfg.verifyMax >= 1 && existing.Some? && AllRun(ps) && DistinctLabels(ps) && Ahead(ps, now)
             && old(PassGood(acct, mac, existing.value, ps, i, now))) ==>
      abort.None? && PassGood(acct, mac, existing.value, ps, i + 1, now)
    ensures existing.Some? && SettledUpTo(existing.value, ps, |ps|) ==>
      ch2.updates == ch.updates && ch2.additions == ch.additions
      && acct.log == old(acct.log) && acct.locks == old(acct.locks) && acct.faults == old(acct.faults)
  {
    ghost var keys, id, userId := acct.Keys(mac), acct.nextId, acct.userId;
    ghost var good := cfg.addMax >= 1 && cfg.verifyMax >= 1 && existing.Some? && AllRun(ps) && DistinctLabels(ps) && Ahead(ps, now)
      && PassGood(acct, mac, existing.value, ps, i, now);
    if good { KeysUnique(acct, mac); }
    ch2, abort := ProcessPlan(acct, mac, lockName, propertyName, existing, p, cfg, ch);
    if good {
      if p.Manage? {
        PassStep(keys, existing.value, ps, now, i, id, userId);
      } else {
        PassSkip(keys, existing.value, ps, i);
      }
    }
  }

  /**
   * Lines 105-234: each reservation in turn, until one raises. `existing`
   * is the listing of line 58, or of line 96 after deletions; the loop never
   * lists again. Under a vendor that performs every call, starting from a
   * listing equal to the lock, the loop leaves the lock reconciled (when no
   * two managed reservations share a label); starting from a listing on
   * which every managed label already shows its window, it calls nothing.
   */
  method ReservationPass(acct: Account, mac: string, lockName: string, propertyName: string, existing: Option<seq<Code>>,
                         rs: seq<Reservation>, cfg: Config, currentTime: int, ghost now: int, ch: Changes)
      returns (ch2: Changes, abort: Option<string>)
    requires acct.Valid()
    modifies acct
    ensures acct.Valid()
    ensures acct.devices == old(acct.devices) && acct.userId == old(acct.userId)
    ensures OnlyMacChanged(old(acct.locks), acct.locks, mac)
    ensures Grows(old(acct.log), acct.log) && Creates(acct.log) <= Creates(old(acct.log)) + |rs| * cfg.addMax
    ensures ch2.deletions == ch.deletions
    ensures (Quiet(old(acct.faults)) && cfg.addMax >= 1 && cfg.verifyMax >= 1 && now <= currentTime && existing == Some(old(acct.Keys(mac)))
             && NoneEligible(old(acct.Keys(mac)), now, false) && AllRun(Plans(rs, cfg, currentTime)) && DistinctLabels(Plans(rs, cfg, currentTime))) ==>
      Quiet(acct.faults) && abort.None? && Reconciled(acct.Keys(mac), Plans(rs, cfg, currentTime), now)
    ensures existing.Some? && SettledUpTo(existing.value, Plans(rs, cfg, currentTime), |rs|) ==>
      ch2.updates == ch.updates && ch2.additions == ch.additions
      && acct.log == old(acct.log) && acct.locks == old(acct.locks) && acct.faults == old(acct.faults)
  {
    var ps := Plans(rs, cfg, currentTime);
    ghost var good := Quiet(acct.faults) && cfg.addMax >= 1 && cfg.verifyMax >= 1 && now <= currentTime && existing == Some(acct.Keys(mac))
      && NoneEligible(acct.Keys(mac), now, false) && AllRun(ps) && DistinctLabels(ps);
    if good { PlansAhead(rs, cfg, currentTime, now); }
    ghost var idle := existing.Some? && SettledUpTo(existing.value, ps, |rs|);
    ghost var log0, locks0, faults0 := acct.log, acct.locks, acct.faults;
    ghost var cap := 0;
    ch2, abort := ch, None;
    var i := 0;
    while i < |rs| && abort.None?
      invariant 0 <= i <= |rs|
      invariant acct.Valid() && acct.devices == old(acct.devices) && acct.userId == old(acct.userId)
      invariant OnlyMacChanged(locks0, acct.locks, mac)
      invariant Grows(log0, acct.log) && Creates(acct.log) <= Creates(log0) + cap && cap == i * cfg.addMax
      invariant ch2.deletions == ch.deletions
      invariant good ==> abort.None? && PassGood(acct, mac, existing.value, ps, i, now)
      invariant idle ==> ch2.updates == ch.updates && ch2.additions == ch.additions
      invariant idle ==> acct.log == log0 && acct.locks == locks0 && acct.faults == faults0
    {
      ghost var log1 := acct.log;
      ch2, abort := PassOne(acct, mac, lockName, propertyName, existing, ps[i], cfg, ch2, ps, i, now);
      GrowsTrans(log0, log1, acct.log);
      BoundStep(i, |rs|, cfg.addMax);
      cap := cap + cfg.addMax;
      i := i + 1;
    }
    BoundStep(i, |rs|, cfg.addMax);
  }

  // ---------------------------------------------------------------------------
  // sync
  // ---------------------------------------------------------------------------

  /** The deletion pass creates nothing. */
  lemma {:induction false} NoCreatesInDeletes(log: seq<Call>, mac: string, doomed: seq<Code>, responses: seq<Response>)
    requires |responses| == |doomed|
    ensures Creates(log + DeleteCalls(mac, doomed, responses)) == Creates(log)
  {
    if doomed != [] {
      var n := |doomed| - 1;
      assert doomed == doomed[..n] + [doomed[n]] && responses == responses[..n] + [responses[n]];
      NoCreatesInDeletes(log, mac, doomed[..n], responses[..n]);
      DeleteCallsSnoc(mac, doomed[..n], responses[..n], doomed[n], responses[n]);
      assert log + DeleteCalls(mac, doomed, responses) == (log + DeleteCalls(mac, doomed[..n], responses[..n])) + [Deleted(mac, doomed[n].id, responses[n])];
      CreatesAppend(log + DeleteCalls(mac, doomed[..n], responses[..n]), Deleted(mac, doomed[n].id, responses[n]));
    } else {
      assert log + DeleteCalls(mac, doomed, responses) == log;
    }
  }

  /** The calls of the deletion pass and its re-read extend the log without a create. */
  lemma PurgeLog(log: seq<Call>, mac: string, doomed: seq<Code>, responses: seq<Response>, refreshed: Option<seq<Code>>)
    requires |responses| == |doomed|
    ensures Grows(log, log + DeleteCalls(mac, doomed, responses) + [Listed(mac, refreshed)])
    ensures Creates(log + DeleteCalls(mac, doomed, responses) + [Listed(mac, refreshed)]) == Creates(log)
  {
    var l := log + DeleteCalls(mac, doomed, responses);
    NoCreatesInDeletes(log, mac, doomed, responses);
    CreatesAppend(l, Listed(mac, refreshed));
    assert (l + [Listed(mac, refreshed)])[..|log|] == log;
  }

  /** The reservations the loop sees: `None` and the empty list both end the run after the deletion pass. */
  function Bookings(reservations: Option<seq<Reservation>>): seq<Reservation> {
    if reservations.None? then [] else reservations.value
  }

  /**
   * Lines 79-234, once the lock, its listing `codes` and the user id are
   * known: the deletion pass, the re-read, and the reservation loop, with
   * the "Unexpected Error" entry when the loop raises. From a listing that
   * is already reconciled it makes no call at all.
   */
  method Reconcile(acct: Account, mac: string, lockName: string, propertyName: string, codes: seq<Code>,
                   rs: seq<Reservation>, currentTime: int, now: int, cfg: Config, deleteAll: bool)
      returns (ch: Changes)
    requires acct.Valid()
    modifies acct
    ensures acct.Valid() && acct.devices == old(acct.devices) && acct.userId == old(acct.userId)
    ensures OnlyMacChanged(old(acct.locks), acct.locks, mac)
    ensures Grows(old(acct.log), acct.log) && Creates(acct.log) <= Creates(old(acct.log)) + |rs| * cfg.addMax
    ensures (Quiet(old(acct.faults)) && !deleteAll && now <= currentTime && cfg.addMax >= 1 && cfg.verifyMax >= 1 && codes == KeysOf(old(acct.locks), mac)
             && AllRun(Plans(rs, cfg, currentTime)) && DistinctLabels(Plans(rs, cfg, currentTime))) ==>
      Quiet(acct.faults) && Reconciled(KeysOf(acct.locks, mac), Plans(rs, cfg, currentTime), now)
    ensures !deleteAll && Reconciled(codes, Plans(rs, cfg, currentTime), now) ==>
      ch.deletions == [] && ch.updates == [] && ch.additions == []
      && acct.log == old(acct.log) && acct.locks == old(acct.locks) && acct.faults == old(acct.faults)
  {
    ghost var log1 := acct.log;
    ghost var ps := Plans(rs, cfg, currentTime);
    if !deleteAll && Reconciled(codes, ps, now) { NothingEligible(codes, now, deleteAll); }
    var deletions, errors, refreshed, responses := PurgeExpired(acct, mac, lockName, codes, now, deleteAll);
    if EligibleCodes(codes, now, deleteAll) != [] {
      PurgeLog(log1, mac, EligibleCodes(codes, now, deleteAll), responses, refreshed);
    } else {
      assert acct.log[..|log1|] == log1;
    }
    ch := Changes(deletions, [], [], errors);
    if rs == [] {
      return;
    }
    ghost var log2 := acct.log;
    var abort;
    ch, abort := ReservationPass(acct, mac, lockName, propertyName, refreshed, rs, cfg, currentTime, now, ch);
    GrowsTrans(log1, log2, acct.log);
    if abort.Some? {
      ch := ch.(errors := ch.errors + [Unexpected(propertyName, abort.value)]);
    }
  }

  /** The MAC of the lock named `lockName`, if the account lists one. */
  function MacOf(devices: Option<seq<DeviceInfo>>, lockName: string): Option<string> {
    match GetDeviceByName(devices, lockName)
    case None => None
    case Some(d) => Some(d.mac)
  }

  /** Line 69: `client._user_id = get_user_id_from_existing_codes(...)`. */
  method AdoptUserId(acct: Account, codes: seq<Code>)
    requires acct.Valid()
    modifies acct
    ensures acct.Valid()
    ensures acct.userId == GetUserIdFromExistingCodes(codes, old(acct.userId))
    ensures acct.devices == old(acct.devices) && acct.locks == old(acct.locks) && acct.nextId == old(acct.nextId)
    ensures acct.faults == old(acct.faults) && acct.log == old(acct.log)
  {
    acct.userId := GetUserIdFromExistingCodes(codes, acct.userId);
  }

  /**
   * Lines 54-77 and what follows, once the lock's MAC is known: list its
   * codes, settle the user id, then reconcile. An unreadable listing or a
   * missing user id ends the run with one error and no further call.
   */
  method SyncLock(acct: Account, mac: string, lockName: string, propertyName: string, rs: seq<Reservation>,
                  currentTime: int, now: int, cfg: Config, deleteAll: bool) returns (ch: Changes)
    requires acct.Valid()
    modifies acct
    ensures acct.Valid() && acct.devices == old(acct.devices)
    ensures Listing(Head(old(acct.faults)), KeysOf(old(acct.locks), mac)).None? ==>
      ch == Changes([], [], [], [CodesUnreadable(lockName, propertyName)])
      && acct.log == old(acct.log) + [Listed(mac, None)] && acct.locks == old(acct.locks) && acct.userId == old(acct.userId)
    ensures var listing := Listing(Head(old(acct.faults)), KeysOf(old(acct.locks), mac));
      listing.Some? ==>
      acct.userId == GetUserIdFromExistingCodes(listing.value, old(acct.userId))
      && (acct.userId.None? ==> ch == Changes([], [], [], [NoUserId(lockName, propertyName)])
                                && acct.log == old(acct.log) + [Listed(mac, listing)] && acct.locks == old(acct.locks))
    ensures Grows(old(acct.log), acct.log) && Creates(acct.log) <= Creates(old(acct.log)) + |rs| * cfg.addMax
    ensures (Quiet(old(acct.faults)) && !deleteAll && now <= currentTime && cfg.addMax >= 1 && cfg.verifyMax >= 1
             && GetUserIdFromExistingCodes(KeysOf(old(acct.locks), mac), old(acct.userId)).Some?
             && AllRun(Plans(rs, cfg, currentTime)) && DistinctLabels(Plans(rs, cfg, currentTime))) ==>
      Quiet(acct.faults) && Reconciled(KeysOf(acct.locks, mac), Plans(rs, cfg, currentTime), now)
    ensures (Quiet(old(acct.faults)) && !deleteAll && Reconciled(KeysOf(old(acct.locks), mac), Plans(rs, cfg, currentTime), now)) ==>
      ch.deletions == [] && ch.updates == [] && ch.additions == [] && acct.locks == old(acct.locks)
  {
    ch := Changes([], [], [], []);
    if Quiet(acct.faults) { QuietTail(acct.faults); }
    ghost var log0 := acct.log;
    var existing := acct.GetKeys(mac);
    CreatesAppend(log0, Listed(mac, existing));
    if existing.None? {
      ch := ch.(errors := [CodesUnreadable(lockName, propertyName)]);
      return;
    }
    AdoptUserId(acct, existing.value);
    if acct.userId.None? {
      ch := ch.(errors := [NoUserId(lockName, propertyName)]);
      return;
    }
    ghost var log1 := acct.log;
    ch := Reconcile(acct, mac, lockName, propertyName, existing.value, rs, currentTime, now, cfg, deleteAll);
    GrowsTrans(log0, log1, acct.log);
  }

  /**
   * `sync(client, lock_name, property_name, reservations, current_time,
   * timezone, delete_all_guest_codes)`, with `datetime.now()` as `now`.
   * Lines 47-52: a lock the account does not list ends the run with one
   * error and no call on the lock; otherwise `SyncLock` runs on its MAC.
   */
  method Sync(acct: Account, lockName: string, propertyName: string, reservations: Option<seq<Reservation>>,
              currentTime: int, now: int, cfg: Config, deleteAll: bool) returns (ch: Changes)
    requires acct.Valid()
    modifies acct
    ensures acct.Valid() && acct.devices == old(acct.devices)
    ensures MacOf(old(acct.devices), lockName).None? ==>
      ch == Changes([], [], [], [DeviceNotFound(lockName, propertyName)])
      && acct.log == old(acct.log) && acct.locks == old(acct.locks) && acct.faults == old(acct.faults) && acct.userId == old(acct.userId)
    ensures Grows(old(acct.log), acct.log) && Creates(acct.log) <= Creates(old(acct.log)) + |Bookings(reservations)| * cfg.addMax
    ensures MacOf(old(acct.devices), lockName).Some? ==> var mac := MacOf(old(acct.devices), lockName).value;
      (Listing(Head(old(acct.faults)), KeysOf(old(acct.locks), mac)).None? ==>
       ch == Changes([], [], [], [CodesUnreadable(lockName, propertyName)])
       && acct.log == old(acct.log) + [Listed(mac, None)] && acct.locks == old(acct.locks) && acct.userId == old(acct.userId))
    ensures MacOf(old(acct.devices), lockName).Some? ==> var mac := MacOf(old(acct.devices), lockName).value;
      var listing := Listing(Head(old(acct.faults)), KeysOf(old(acct.locks), mac));
      (listing.Some? ==>
         acct.userId == GetUserIdFromExistingCodes(listing.value, old(acct.userId))
         && (acct.userId.None? ==> ch == Changes([], [], [], [NoUserId(lockName, propertyName)])
                                   && acct.log == old(acct.log) + [Listed(mac, listing)] && acct.locks == old(acct.locks)))
    ensures MacOf(old(acct.devices), lockName).Some? ==> var mac := MacOf(old(acct.devices), lockName).value;
      ((Quiet(old(acct.faults)) && !deleteAll && now <= currentTime && cfg.addMax >= 1 && cfg.verifyMax >= 1
        && GetUserIdFromExistingCodes(KeysOf(old(acct.locks), mac), old(acct.userId)).Some?
        && AllRun(Plans(Bookings(reservations), cfg, currentTime)) && DistinctLabels(Plans(Bookings(reservations), cfg, currentTime))) ==>
       Quiet(acct.faults) && Reconciled(KeysOf(acct.locks, mac), Plans(Bookings(reservations), cfg, currentTime), now))
    ensures MacOf(old(acct.devices), lockName).Some? ==> var mac := MacOf(old(acct.devices), lockName).value;
      ((Quiet(old(acct.faults)) && !deleteAll && Reconciled(KeysOf(old(acct.locks), mac), Plans(Bookings(reservations), cfg, currentTime), now)) ==>
       ch.deletions == [] && ch.updates == [] && ch.additions == [] && acct.locks == old(acct.locks))
  {
    var device := GetDeviceByName(acct.devices, lockName);
    if device.None? {
      ch := Changes([], [], [], [DeviceNotFound(lockName, propertyName)]);
      return;
    }
    ch := SyncLock(acct, device.value.mac, lockName, propertyName, Bookings(reservations), currentTime, now, cfg, deleteAll);
  }
}
