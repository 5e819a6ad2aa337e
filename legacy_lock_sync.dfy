/**
 * The legacy Wyze script, `process_reservations` in src/lock_sync.py: for
 * each Hospitable property with reservations, find its front-door lock,
 * list the codes once, delete expired (or all) guest codes, then add or
 * update one code per reservation, judged against that one listing, and
 * post a Slack summary. Any exception ends the whole run with one
 * "Error in function" message.
 *
 * The Slack messages the run posts are the method's result. The vendor is
 * the `Account` of module WyzeApi with its fault script.
 */
module LegacyLockSync {
  import opened Common
  import opened WyzeApi
  import opened Wyze
  import opened Reservations
  import Clock
  import WyzeLocks
  import Summaries

  // ---------------------------------------------------------------------------
  // Messages
  // ---------------------------------------------------------------------------

  const NoHospitableAuth := "Unable to authenticate with Hospitable API."
  const NoProperties := "Unable to fetch properties from Hospitable API."
  const NoWyzeAuth := "Unable to authenticate with Wyze API."
  const NoUserId := ":4934-error: Unable to find user_id"

  function NoReservations(propertyName: string): string {
    "No reservations for property " + propertyName + "."
  }

  function SkippingLocks(propertyName: string): string {
    "Skipping locks for property " + propertyName + "."
  }

  function NoLockInfo(lockName: string, propertyName: string): string {
    "Unable to fetch lock info for " + lockName + " at " + propertyName + "."
  }

  function NoLockCodes(lockName: string, propertyName: string): string {
    "Unable to fetch lock codes for " + lockName + " at " + propertyName + "."
  }

  /** Lines 159-161: what the outer handler posts. */
  function InFunction(detail: string): string {
    "Error in function: " + detail
  }

  function DeleteError(name: string): string { "Deleting Code for " + name }
  function AddError(name: string): string { "Adding Code for " + name }
  function UpdateError(name: string): string { "Updating Code for " + name }

  /** Lines 243-245: what `add_lock_code` posts when the SDK raises; `e` is the exception's text. */
  function AddRaised(name: string, mac: string, e: string): string {
    "Error adding lock code " + name + " to " + mac + ": " + e
  }

  /** Lines 263-265: `update_lock_code` names the access code, not the label. */
  function UpdateRaised(accessCode: string, mac: string, e: string): string {
    "Error updating lock code " + accessCode + " in " + mac + ": " + e
  }

  function DeleteRaised(id: int, mac: string, e: string): string {
    "Error deleting lock code " + IntToString(id) + " from " + mac + ": " + e
  }

  /** `str(e)` of the UnboundLocalError line 120 raises while `label` is still unbound. */
  const UnboundLabel := "cannot access local variable 'label' where it is not associated with a value"
  /** `str(e)` of the TypeError of `v[-4:]` on a value that is not a string. */
  function NotSubscriptable(v: Field): string {
    "'" + FieldType(v) + "' object is not subscriptable"
  }

  // ---------------------------------------------------------------------------
  // Inputs
  // ---------------------------------------------------------------------------

  /** A Hospitable property and what `get_reservations` returns for it. */
  datatype Property = Property(name: string, reservations: Option<seq<Reservation>>)

  /**
   * The environment: `CHECK_IN_OFFSET_HOURS`, which both window ends use
   * (line 20 reads it for the check-out offset too), and the TEST switch.
   */
  datatype Settings = Settings(offset: int, test: bool, testPropertyName: string)

  /** Line 82. */
  function LockName(propertyName: string): string {
    propertyName + " - FD"
  }

  /** `not reservations`. */
  predicate NoBookings(rs: Option<seq<Reservation>>) {
    rs.None? || rs.value == []
  }

  // ---------------------------------------------------------------------------
  // One reservation (lines 124-136)
  // ---------------------------------------------------------------------------

  /** What a reservation makes the loop do: raise, with the exception's text, or write one code. */
  datatype Plan = Fails(detail: string) | Writes(w: WyzeLocks.Wanted)

  /**
   * Lines 124-136 in their order: the first word of the guest name, the
   * last four characters of the phone (digits or not), the label, and the
   * two window ends, each shifted by its offset. The same steps make up
   * lines 102-108 of the older sync-locks function; this script passes the
   * check-in offset for both ends.
   */
  function PlanFor(r: Reservation, checkInOffset: int, checkOutOffset: int): (p: Plan)
    ensures p.Writes? <==>
      r.guest.Str? && !AllSpace(r.guest.s) && r.phone.Str?
      && Clock.FormatDatetime(r.checkin, checkInOffset).Some? && Clock.FormatDatetime(r.checkout, checkOutOffset).Some?
    ensures r.guest.NoKey? ==> p == Fails(KeyErrorText("guest"))
    ensures !r.guest.NoKey? && !r.guest.Str? ==> p == Fails(NoSplit(r.guest))
    ensures r.guest.Str? && AllSpace(r.guest.s) ==> p == Fails(IndexOutOfRange)
    ensures r.guest.Str? && !AllSpace(r.guest.s) && r.phone.NoKey? ==> p == Fails(KeyErrorText("phone"))
    ensures r.guest.Str? && !AllSpace(r.guest.s) && !r.phone.NoKey? && !r.phone.Str? ==> p == Fails(NotSubscriptable(r.phone))
    ensures p.Writes? ==>
      p.w.name == Label(FirstWord(r.guest.s).value, r.checkin) && p.w.rawCode == TakeLast(r.phone.s, 4)
      && Clock.FormatDatetime(r.checkin, checkInOffset) == Some(p.w.begin) && Clock.FormatDatetime(r.checkout, checkOutOffset) == Some(p.w.end)
  {
    match r.guest
    case NoKey => Fails(KeyErrorText("guest"))
    case Str(g) =>
      (match FirstWord(g)
       case None => Fails(IndexOutOfRange)
       case Some(first) =>
         match r.phone
         case NoKey => Fails(KeyErrorText("phone"))
         case Str(phone) =>
           (match Clock.FormatDatetime(r.checkin, checkInOffset)
            case None => Fails(Clock.BadTimestamp(r.checkin))
            case Some(begin) =>
              match Clock.FormatDatetime(r.checkout, checkOutOffset)
              case None => Fails(Clock.BadTimestamp(r.checkout))
              case Some(end) => Writes(WyzeLocks.Wanted(Label(first, r.checkin), TakeLast(phone, 4), begin, end)))
         case _ => Fails(NotSubscriptable(r.phone)))
    case _ => Fails(NoSplit(r.guest))
  }

  /** The window keeps the stay's length: both ends move by the same offset. */
  lemma WindowKeepsLength(r: Reservation, offset: int)
    requires PlanFor(r, offset, offset).Writes?
    ensures var w := PlanFor(r, offset, offset).w;
      w.end - w.begin == Clock.Seconds(Clock.ParseDateTime(r.checkout).value) - Clock.Seconds(Clock.ParseDateTime(r.checkin).value)
  {
  }

  /**
   * A guest whose phone has fewer than four digits, which the Wyze engine
   * turns away, still gets a code here: whatever the phone ends with.
   */
  lemma ShortPhoneStillWrites(r: Reservation, offset: int)
    requires Screen(r).ShortPhone?
    requires Clock.FormatDatetime(r.checkin, offset).Some? && Clock.FormatDatetime(r.checkout, offset).Some?
    ensures PlanFor(r, offset, offset).Writes? && PlanFor(r, offset, offset).w.rawCode == TakeLast(r.phone.s, 4)
    ensures !AllDigits(PlanFor(r, offset, offset).w.rawCode) || |PlanFor(r, offset, offset).w.rawCode| < 4
  {
    SuffixDigits(r.phone.s);
  }

  /** An all-digit tail of `s` is at most as long as the digits of `s`. */
  lemma SuffixDigits(s: string)
    ensures AllDigits(TakeLast(s, 4)) ==> |TakeLast(s, 4)| <= |Digits(s)|
  {
    var raw := TakeLast(s, 4);
    var pre := s[..|s| - |raw|];
    assert s == pre + raw;
    DigitsAppend(pre, raw);
    if AllDigits(raw) {
      DigitsOfDigits(raw);
    }
  }

  function Plans(rs: seq<Reservation>, checkInOffset: int, checkOutOffset: int): (ps: seq<Plan>)
    ensures |ps| == |rs|
    ensures forall k :: 0 <= k < |rs| ==> ps[k] == PlanFor(rs[k], checkInOffset, checkOutOffset)
  {
    seq(|rs|, k requires 0 <= k < |rs| => PlanFor(rs[k], checkInOffset, checkOutOffset))
  }

  /** The position of the first reservation that raises, or `|ps|`. */
  function FailIndex(ps: seq<Plan>): (k: nat)
    ensures k <= |ps|
    ensures forall j :: 0 <= j < k ==> ps[j].Writes?
    ensures k < |ps| ==> ps[k].Fails?
  {
    if ps == [] then 0 else if ps[0].Fails? then 0 else 1 + FailIndex(ps[1..])
  }

  /** The codes the first `k` plans want. */
  function Wanteds(ps: seq<Plan>, k: nat): (ws: seq<WyzeLocks.Wanted>)
    requires k <= |ps| && forall j :: 0 <= j < k ==> ps[j].Writes?
    ensures |ws| == k && forall j :: 0 <= j < k ==> ws[j] == ps[j].w
  {
    seq(k, j requires 0 <= j < k && k <= |ps| && ps[j].Writes? => ps[j].w)
  }

  /** The codes the plans before the first failing one want. */
  function WrittenOf(ps: seq<Plan>): (ws: seq<WyzeLocks.Wanted>)
    ensures ws == Wanteds(ps, FailIndex(ps))
    ensures |ws| == FailIndex(ps) && forall j :: 0 <= j < |ws| ==> ws[j] == ps[j].w
  {
    Wanteds(ps, FailIndex(ps))
  }

  // ---------------------------------------------------------------------------
  // The deletion pass (lines 113-120)
  // ---------------------------------------------------------------------------

  /** `if delete_lock_code(...)`, `if add_lock_code(...)`, `if update_lock_code(...)`: truthy only for `ErrNo` 0. */
  predicate Ok(r: Response) {
    MutationResult(r) == Some(true)
  }

  predicate AllOk(rs: seq<Response>) {
    forall k :: 0 <= k < |rs| ==> Ok(rs[k])
  }

  /** The names whose delete succeeded, in order. */
  function Swept(doomed: seq<Code>, responses: seq<Response>): (r: seq<string>)
    requires |responses| == |doomed|
    ensures |r| <= |doomed|
  {
    if doomed == [] then []
    else
      var n := |doomed| - 1;
      Swept(doomed[..n], responses[..n]) + (if Ok(responses[n]) then [doomed[n].name] else [])
  }

  /** The error entries of the failed deletes: each names `label`, whatever was being deleted. */
  function Unswept(doomed: seq<Code>, responses: seq<Response>, lastLabel: string): (r: seq<string>)
    requires |responses| == |doomed|
    ensures |r| <= |doomed|
  {
    if doomed == [] then []
    else
      var n := |doomed| - 1;
      Unswept(doomed[..n], responses[..n], lastLabel) + (if Ok(responses[n]) then [] else [DeleteError(lastLabel)])
  }

  /** The Slack messages the delete wrapper posts, one for each delete the SDK raised on. */
  function DeleteNotes(mac: string, doomed: seq<Code>, responses: seq<Response>, e: string): seq<string>
    requires |responses| == |doomed|
  {
    if doomed == [] then []
    else
      var n := |doomed| - 1;
      DeleteNotes(mac, doomed[..n], responses[..n], e) + (if responses[n].ApiError? then [DeleteRaised(doomed[n].id, mac, e)] else [])
  }

  /** A deletion entry names a code whose delete succeeded. */
  lemma {:induction false} SweptMeans(doomed: seq<Code>, responses: seq<Response>, x: string)
    requires |responses| == |doomed|
    ensures x in Swept(doomed, responses) <==> exists k :: 0 <= k < |doomed| && Ok(responses[k]) && doomed[k].name == x
  {
    if doomed != [] {
      var n := |doomed| - 1;
      SweptMeans(doomed[..n], responses[..n], x);
      if exists k :: 0 <= k < n && Ok(responses[..n][k]) && doomed[..n][k].name == x {
        var k :| 0 <= k < n && Ok(responses[..n][k]) && doomed[..n][k].name == x;
        assert responses[k] == responses[..n][k] && doomed[k] == doomed[..n][k];
      }
      if exists k :: 0 <= k < |doomed| && Ok(responses[k]) && doomed[k].name == x {
        var k :| 0 <= k < |doomed| && Ok(responses[k]) && doomed[k].name == x;
        if k < n {
          assert responses[..n][k] == responses[k] && doomed[..n][k] == doomed[k];
        }
      }
    }
  }

  /** Every delete lands in exactly one of the two lists once `label` is bound. */
  lemma {:induction false} SweptOrNot(doomed: seq<Code>, responses: seq<Response>, lastLabel: string)
    requires |responses| == |doomed|
    ensures |Swept(doomed, responses)| + |Unswept(doomed, responses, lastLabel)| == |doomed|
  {
    if doomed != [] {
      SweptOrNot(doomed[..|doomed| - 1], responses[..|doomed| - 1], lastLabel);
    }
  }

  lemma SweepSnoc(mac: string, doomed: seq<Code>, responses: seq<Response>, c: Code, r: Response, lastLabel: string, e: string)
    requires |responses| == |doomed|
    ensures Swept(doomed + [c], responses + [r]) == Swept(doomed, responses) + (if Ok(r) then [c.name] else [])
    ensures Unswept(doomed + [c], responses + [r], lastLabel) == Unswept(doomed, responses, lastLabel) + (if Ok(r) then [] else [DeleteError(lastLabel)])
    ensures DeleteNotes(mac, doomed + [c], responses + [r], e)
      == DeleteNotes(mac, doomed, responses, e) + (if r.ApiError? then [DeleteRaised(c.id, mac, e)] else [])
  {
    assert (doomed + [c])[..|doomed|] == doomed;
    assert (responses + [r])[..|responses|] == responses;
  }

  /** The listing after deleting every code of `doomed` in turn. */
  function RemoveAll(table: seq<Code>, doomed: seq<Code>): seq<Code> {
    if doomed == [] then table
    else WithoutId(RemoveAll(table, doomed[..|doomed| - 1]), doomed[|doomed| - 1].id)
  }

  lemma {:induction false} RemoveAllMeans(table: seq<Code>, doomed: seq<Code>, c: Code)
    ensures c in RemoveAll(table, doomed) <==> c in table && forall k :: 0 <= k < |doomed| ==> c.id != doomed[k].id
  {
    if doomed != [] {
      var n := |doomed| - 1;
      RemoveAllMeans(table, doomed[..n], c);
      assert forall k :: 0 <= k < n ==> doomed[..n][k] == doomed[k];
    }
  }

  lemma RemoveAllSnoc(table: seq<Code>, doomed: seq<Code>, c: Code)
    ensures RemoveAll(table, doomed + [c]) == WithoutId(RemoveAll(table, doomed), c.id)
  {
    assert (doomed + [c])[..|doomed|] == doomed;
  }

  lemma AllOkSnoc(rs: seq<Response>, r: Response)
    ensures AllOk(rs + [r]) <==> AllOk(rs) && Ok(r)
  {
    if AllOk(rs + [r]) {
      forall k | 0 <= k < |rs| ensures Ok(rs[k]) { assert rs[k] == (rs + [r])[k]; }
      assert Ok((rs + [r])[|rs|]);
    }
  }

  /**
   * Lines 114-120 for the code at index `i` of `doomed`: the delete call and
   * its entry, or the UnboundLocalError; `responses` are the answers to the
   * deletes before it, none of which aborted.
   */
  method SweepOne(acct: Account, mac: string, doomed: seq<Code>, i: nat, lastLabel: Option<string>, e: string,
                  ghost responses: seq<Response>, deletions: seq<string>, errors: seq<string>, notes: seq<string>,
                  ghost log0: seq<Call>, ghost keys0: seq<Code>, ghost quiet: bool)
      returns (deletions': seq<string>, errors': seq<string>, notes': seq<string>, aborted: bool, ghost r: Response)
    requires acct.Valid() && i < |doomed| && |responses| == i
    requires deletions == Swept(doomed[..i], responses) && notes == DeleteNotes(mac, doomed[..i], responses, e)
    requires lastLabel.Some? ==> errors == Unswept(doomed[..i], responses, lastLabel.value)
    requires lastLabel.None? ==> errors == [] && AllOk(responses)
    requires acct.log == log0 + WyzeLocks.DeleteCalls(mac, doomed[..i], responses)
    requires quiet ==> Quiet(acct.faults) && AllOk(responses) && acct.Keys(mac) == RemoveAll(keys0, doomed[..i])
    modifies acct
    ensures acct.Valid()
    ensures acct.devices == old(acct.devices) && acct.userId == old(acct.userId) && acct.nextId == old(acct.nextId)
    ensures deletions' == Swept(doomed[..i + 1], responses + [r]) && notes' == DeleteNotes(mac, doomed[..i + 1], responses + [r], e)
    ensures lastLabel.Some? ==> errors' == Unswept(doomed[..i + 1], responses + [r], lastLabel.value)
    ensures lastLabel.None? ==> errors' == []
    ensures aborted <==> lastLabel.None? && !AllOk(responses + [r])
    ensures aborted ==> AllOk((responses + [r])[..i])
    ensures acct.log == log0 + WyzeLocks.DeleteCalls(mac, doomed[..i + 1], responses + [r])
    ensures WyzeLocks.OnlyMacChanged(old(acct.locks), acct.locks, mac)
    ensures quiet ==> Quiet(acct.faults) && AllOk(responses + [r]) && acct.Keys(mac) == RemoveAll(keys0, doomed[..i + 1])
  {
    var c := doomed[i];
    TakeOneMore(doomed, i);
    if Quiet(acct.faults) { WyzeLocks.QuietTail(acct.faults); }
    r := Answer(Head(acct.faults));
    var resp := acct.DeleteAccessCode(mac, c.id);
    SweepSnoc(mac, doomed[..i], responses, c, r, if lastLabel.Some? then lastLabel.value else "", e);
    WyzeLocks.DeleteCallsSnoc(mac, doomed[..i], responses, c, r);
    RemoveAllSnoc(keys0, doomed[..i], c);
    AllOkSnoc(responses, r);
    assert (responses + [r])[..i] == responses;
    notes' := if resp.ApiError? then notes + [DeleteRaised(c.id, mac, e)] else notes;
    deletions', errors', aborted := deletions, errors, false;
    if MutationResult(resp) == Some(true) {
      deletions' := deletions + [c.name];
    } else if lastLabel.Some? {
      errors' := errors + [DeleteError(lastLabel.value)];
    } else {
      aborted := true;
    }
  }

  /**
   * Lines 113-120 over the eligible codes `doomed`: delete each, recording
   * its name when the delete succeeds. A failed delete records an entry
   * naming `lastLabel`, the value of the reservation loop's variable; while
   * no property has run that loop (`lastLabel` is `None`) the append raises
   * UnboundLocalError and the pass ends there.
   */
  method Sweep(acct: Account, mac: string, doomed: seq<Code>, lastLabel: Option<string>, e: string)
      returns (deletions: seq<string>, errors: seq<string>, notes: seq<string>, aborted: bool, ghost responses: seq<Response>)
    requires acct.Valid()
    modifies acct
    ensures acct.Valid()
    ensures acct.devices == old(acct.devices) && acct.userId == old(acct.userId) && acct.nextId == old(acct.nextId)
    ensures |responses| <= |doomed|
    ensures deletions == Swept(doomed[..|responses|], responses)
    ensures notes == DeleteNotes(mac, doomed[..|responses|], responses, e)
    ensures acct.log == old(acct.log) + WyzeLocks.DeleteCalls(mac, doomed[..|responses|], responses)
    ensures WyzeLocks.OnlyMacChanged(old(acct.locks), acct.locks, mac)
    ensures aborted <==> lastLabel.None? && !AllOk(responses)
    ensures !aborted ==> |responses| == |doomed|
    ensures aborted ==> |responses| >= 1 && AllOk(responses[..|responses| - 1])
    ensures lastLabel.Some? ==> errors == Unswept(doomed, responses, lastLabel.value)
    ensures lastLabel.None? ==> errors == []
    ensures Quiet(old(acct.faults)) ==>
      Quiet(acct.faults) && AllOk(responses) && acct.Keys(mac) == RemoveAll(old(acct.Keys(mac)), doomed)
  {
    deletions, errors, notes, aborted, responses := [], [], [], false, [];
    ghost var quiet := Quiet(acct.faults);
    ghost var log0, keys0 := acct.log, acct.Keys(mac);
    var i := 0;
    while i < |doomed| && !aborted
      invariant 0 <= i <= |doomed| && |responses| == i
      invariant acct.Valid()
      invariant acct.devices == old(acct.devices) && acct.userId == old(acct.userId) && acct.nextId == old(acct.nextId)
      invariant deletions == Swept(doomed[..i], responses)
      invariant notes == DeleteNotes(mac, doomed[..i], responses, e)
      invariant acct.log == log0 + WyzeLocks.DeleteCalls(mac, doomed[..i], responses)
      invariant WyzeLocks.OnlyMacChanged(old(acct.locks), acct.locks, mac)
      invariant aborted <==> lastLabel.None? && !AllOk(responses)
      invariant aborted ==> i >= 1 && AllOk(responses[..i - 1])
      invariant lastLabel.Some? ==> errors == Unswept(doomed[..i], responses, lastLabel.value)
      invariant lastLabel.None? ==> errors == []
      invariant quiet ==> Quiet(acct.faults) && AllOk(responses) && acct.Keys(mac) == RemoveAll(keys0, doomed[..i])
    {
      ghost var r;
      deletions, errors, notes, aborted, r := SweepOne(acct, mac, doomed, i, lastLabel, e, responses, deletions, errors, notes, log0, keys0, quiet);
      responses := responses + [r];
      i := i + 1;
    }
    assert !aborted ==> doomed[..i] == doomed;
  }

  // ---------------------------------------------------------------------------
  // The reservation pass (lines 123-154)
  // ---------------------------------------------------------------------------

  /** `label_exists(existing_codes, label)` and `next(...)`: the first code of the one listing so named. */
  function Present(codes: seq<Code>, w: WyzeLocks.Wanted): Option<Code> {
    FindCode(codes, w.name)
  }

  /** The call one reservation makes: a create for an absent label, else an update of the first match. */
  ghost function WriteCall(mac: string, codes: seq<Code>, w: WyzeLocks.Wanted, r: Response): Call {
    match Present(codes, w)
    case None => Created(mac, w.rawCode, w.name, WyzeLocks.Window(w), r)
    case Some(c) => Updated(mac, c.id, w.rawCode, w.name, WyzeLocks.Window(w), r)
  }

  ghost function WriteCalls(mac: string, codes: seq<Code>, ws: seq<WyzeLocks.Wanted>, responses: seq<Response>): (r: seq<Call>)
    requires |responses| == |ws|
    ensures |r| == |ws|
  {
    seq(|ws|, k requires 0 <= k < |ws| && |responses| == |ws| => WriteCall(mac, codes, ws[k], responses[k]))
  }

  /** The one entry a reservation records. */
  function Outcome(codes: seq<Code>, w: WyzeLocks.Wanted, r: Response): (ch: Changes)
    ensures ch.deletions == []
    ensures |ch.updates| + |ch.additions| + |ch.errors| == 1
  {
    if Present(codes, w).None? then
      if Ok(r) then Changes([], [], [w.name], []) else Changes([], [], [], [AddError(w.name)])
    else
      if Ok(r) then Changes([], [w.name], [], []) else Changes([], [], [], [UpdateError(w.name)])
  }

  function Plus(a: Changes, b: Changes): Changes {
    Changes(a.deletions + b.deletions, a.updates + b.updates, a.additions + b.additions, a.errors + b.errors)
  }

  /** The entries of the reservation pass, in order. */
  function Tally(codes: seq<Code>, ws: seq<WyzeLocks.Wanted>, responses: seq<Response>): (ch: Changes)
    requires |responses| == |ws|
    ensures ch.deletions == []
  {
    if ws == [] then Changes([], [], [], [])
    else
      var n := |ws| - 1;
      Plus(Tally(codes, ws[..n], responses[..n]), Outcome(codes, ws[n], responses[n]))
  }

  /** The Slack messages the add and update wrappers post when the SDK raises. */
  function WriteNotes(mac: string, codes: seq<Code>, ws: seq<WyzeLocks.Wanted>, responses: seq<Response>, e: string): seq<string>
    requires |responses| == |ws|
  {
    if ws == [] then []
    else
      var n := |ws| - 1;
      WriteNotes(mac, codes, ws[..n], responses[..n], e)
      + (if !responses[n].ApiError? then []
         else if Present(codes, ws[n]).None? then [AddRaised(ws[n].name, mac, e)]
         else [UpdateRaised(ws[n].rawCode, mac, e)])
  }

  /** The number of labels absent from the listing: the creates. */
  function Absent(codes: seq<Code>, ws: seq<WyzeLocks.Wanted>): nat {
    if ws == [] then 0
    else Absent(codes, ws[..|ws| - 1]) + (if Present(codes, ws[|ws| - 1]).None? then 1 else 0)
  }

  /** One reservation's effect on the lock under a vendor that performs it. */
  function Effect(table: seq<Code>, codes: seq<Code>, w: WyzeLocks.Wanted, id: int, userId: Option<int>): seq<Code> {
    match Present(codes, w)
    case None => table + [Code(id, w.name, w.rawCode, WyzeLocks.Window(w), userId)]
    case Some(c) => WithUpdate(table, c.id, w.rawCode, w.name, WyzeLocks.Window(w))
  }

  /** The lock after the reservation pass under a vendor that performs every call. */
  function Applied(table: seq<Code>, codes: seq<Code>, ws: seq<WyzeLocks.Wanted>, nextId: int, userId: Option<int>): seq<Code> {
    if ws == [] then table
    else
      var n := |ws| - 1;
      Effect(Applied(table, codes, ws[..n], nextId, userId), codes, ws[n], nextId + Absent(codes, ws[..n]), userId)
  }

  /** Every reservation records exactly one entry: an update, an addition or an error. */
  lemma {:induction false} OneEntryEach(codes: seq<Code>, ws: seq<WyzeLocks.Wanted>, responses: seq<Response>)
    requires |responses| == |ws|
    ensures var t := Tally(codes, ws, responses); |t.updates| + |t.additions| + |t.errors| == |ws|
  {
    if ws != [] {
      OneEntryEach(codes, ws[..|ws| - 1], responses[..|ws| - 1]);
    }
  }

  /**
   * A vendor that answers every call with `ErrNo` 0 makes every label of
   * the listing an update, even where the window already matches, and
   * every other label an addition.
   */
  lemma {:induction false} AllOkTally(codes: seq<Code>, ws: seq<WyzeLocks.Wanted>, responses: seq<Response>, x: string)
    requires |responses| == |ws| && AllOk(responses)
    ensures Tally(codes, ws, responses).errors == []
    ensures x in Tally(codes, ws, responses).updates <==> exists k :: 0 <= k < |ws| && ws[k].name == x && Present(codes, ws[k]).Some?
    ensures x in Tally(codes, ws, responses).additions <==> exists k :: 0 <= k < |ws| && ws[k].name == x && Present(codes, ws[k]).None?
  {
    if ws != [] {
      var n := |ws| - 1;
      assert AllOk(responses[..n]) by {
        forall k | 0 <= k < n ensures Ok(responses[..n][k]) { assert responses[..n][k] == responses[k]; }
      }
      AllOkTally(codes, ws[..n], responses[..n], x);
      assert Ok(responses[n]);
      assert forall k :: 0 <= k < n ==> ws[..n][k] == ws[k];
    }
  }

  /** Labels the listing does not show are each created, however many reservations share one. */
  lemma DuplicateLabelsCreateTwice(mac: string, codes: seq<Code>, ws: seq<WyzeLocks.Wanted>, responses: seq<Response>, i: nat, j: nat)
    requires |responses| == |ws| && i < j < |ws| && ws[i].name == ws[j].name && Present(codes, ws[i]).None?
    ensures WriteCalls(mac, codes, ws, responses)[i].Created? && WriteCalls(mac, codes, ws, responses)[j].Created?
    ensures WriteCalls(mac, codes, ws, responses)[i].name == WriteCalls(mac, codes, ws, responses)[j].name
  {
  }

  lemma WriteCallsSnoc(mac: string, codes: seq<Code>, ws: seq<WyzeLocks.Wanted>, responses: seq<Response>, w: WyzeLocks.Wanted, r: Response)
    requires |responses| == |ws|
    ensures WriteCalls(mac, codes, ws + [w], responses + [r]) == WriteCalls(mac, codes, ws, responses) + [WriteCall(mac, codes, w, r)]
  {
  }

  lemma WriteSnoc(mac: string, codes: seq<Code>, ws: seq<WyzeLocks.Wanted>, responses: seq<Response>,
                  w: WyzeLocks.Wanted, r: Response, e: string)
    requires |responses| == |ws|
    ensures Tally(codes, ws + [w], responses + [r]) == Plus(Tally(codes, ws, responses), Outcome(codes, w, r))
    ensures WriteNotes(mac, codes, ws + [w], responses + [r], e) == WriteNotes(mac, codes, ws, responses, e)
      + (if !r.ApiError? then [] else if Present(codes, w).None? then [AddRaised(w.name, mac, e)] else [UpdateRaised(w.rawCode, mac, e)])
  {
    assert (ws + [w])[..|ws|] == ws;
    assert (responses + [r])[..|responses|] == responses;
    assert Tally(codes, ws + [w], responses + [r]) == Plus(Tally(codes, ws, responses), Outcome(codes, w, r));
  }

  lemma AppliedSnoc(codes: seq<Code>, ws: seq<WyzeLocks.Wanted>, w: WyzeLocks.Wanted, nextId: int, userId: Option<int>, table: seq<Code>)
    ensures Absent(codes, ws + [w]) == Absent(codes, ws) + (if Present(codes, w).None? then 1 else 0)
    ensures Applied(table, codes, ws + [w], nextId, userId)
      == Effect(Applied(table, codes, ws, nextId, userId), codes, w, nextId + Absent(codes, ws), userId)
  {
    assert (ws + [w])[..|ws|] == ws;
  }

  /**
   * The one call lines 138-151 make for a reservation: a create when its
   * label is absent from `codes`, else an update of the first match.
   * `ws` and `responses` are the reservations already written and their
   * answers, `log0`, `keys0` and `next0` the account before the pass.
   */
  method WriteWanted(acct: Account, mac: string, codes: seq<Code>, w: WyzeLocks.Wanted,
                     ghost ws: seq<WyzeLocks.Wanted>, ghost responses: seq<Response>,
                     ghost log0: seq<Call>, ghost keys0: seq<Code>, ghost next0: int, ghost quiet: bool)
      returns (resp: Response)
    requires acct.Valid() && |responses| == |ws|
    requires acct.log == log0 + WriteCalls(mac, codes, ws, responses)
    requires quiet ==>
      Quiet(acct.faults) && AllOk(responses) && acct.Keys(mac) == Applied(keys0, codes, ws, next0, acct.userId) && acct.nextId == next0 + Absent(codes, ws)
    modifies acct
    ensures acct.Valid()
    ensures acct.devices == old(acct.devices) && acct.userId == old(acct.userId)
    ensures resp == Answer(Head(old(acct.faults)))
    ensures acct.log == log0 + WriteCalls(mac, codes, ws + [w], responses + [resp])
    ensures WyzeLocks.OnlyMacChanged(old(acct.locks), acct.locks, mac)
    ensures quiet ==>
      Quiet(acct.faults) && AllOk(responses + [resp])
      && acct.Keys(mac) == Applied(keys0, codes, ws + [w], next0, acct.userId)
      && acct.nextId == next0 + Absent(codes, ws + [w])
  {
    if Quiet(acct.faults) { WyzeLocks.QuietTail(acct.faults); }
    AppliedSnoc(codes, ws, w, next0, acct.userId, keys0);
    resp := WriteCode(acct, mac, codes, w);
    WriteCallsSnoc(mac, codes, ws, responses, w, resp);
    AllOkSnoc(responses, resp);
  }

  /** The create or update of `WriteWanted`, on its own: its effect on the lock is `Effect`. */
  method WriteCode(acct: Account, mac: string, codes: seq<Code>, w: WyzeLocks.Wanted) returns (resp: Response)
    requires acct.Valid()
    modifies acct
    ensures acct.Valid()
    ensures acct.devices == old(acct.devices) && acct.userId == old(acct.userId) && acct.faults == Tail(old(acct.faults))
    ensures resp == Answer(Head(old(acct.faults)))
    ensures acct.log == old(acct.log) + [WriteCall(mac, codes, w, resp)]
    ensures WyzeLocks.OnlyMacChanged(old(acct.locks), acct.locks, mac)
    ensures Applies(Head(old(acct.faults))) ==>
      acct.Keys(mac) == Effect(old(acct.Keys(mac)), codes, w, old(acct.nextId), acct.userId)
      && acct.nextId == old(acct.nextId) + (if Present(codes, w).None? then 1 else 0)
  {
    var existing := Present(codes, w);
    if existing.None? {
      resp := acct.CreateAccessCode(mac, w.rawCode, w.name, WyzeLocks.Window(w));
    } else {
      resp := acct.UpdateAccessCode(mac, existing.value.id, w.rawCode, w.name, WyzeLocks.Window(w));
    }
  }

  /**
   * Lines 138-151 for one reservation: one create or one update, and its
   * entry; `ws` and `responses` are the reservations already done.
   */
  method WriteOne(acct: Account, mac: string, codes: seq<Code>, w: WyzeLocks.Wanted, e: string, ch: Changes, notes: seq<string>,
                  ghost ws: seq<WyzeLocks.Wanted>, ghost responses: seq<Response>, ghost log0: seq<Call>, ghost keys0: seq<Code>, ghost next0: int, ghost quiet: bool)
      returns (ch2: Changes, notes2: seq<string>, ghost r: Response)
    requires acct.Valid() && |responses| == |ws|
    requires ch == Tally(codes, ws, responses) && notes == WriteNotes(mac, codes, ws, responses, e)
    requires acct.log == log0 + WriteCalls(mac, codes, ws, responses)
    requires quiet ==>
      Quiet(acct.faults) && AllOk(responses) && acct.Keys(mac) == Applied(keys0, codes, ws, next0, acct.userId) && acct.nextId == next0 + Absent(codes, ws)
    modifies acct
    ensures acct.Valid()
    ensures acct.devices == old(acct.devices) && acct.userId == old(acct.userId)
    ensures ch2 == Tally(codes, ws + [w], responses + [r])
    ensures notes2 == WriteNotes(mac, codes, ws + [w], responses + [r], e)
    ensures acct.log == log0 + WriteCalls(mac, codes, ws + [w], responses + [r])
    ensures WyzeLocks.OnlyMacChanged(old(acct.locks), acct.locks, mac)
    ensures quiet ==>
      Quiet(acct.faults) && AllOk(responses + [r])
      && acct.Keys(mac) == Applied(keys0, codes, ws + [w], next0, acct.userId)
      && acct.nextId == next0 + Absent(codes, ws + [w])
  {
    var resp := WriteWanted(acct, mac, codes, w, ws, responses, log0, keys0, next0, quiet);
    r := resp;
    WriteSnoc(mac, codes, ws, responses, w, r, e);
    var absent := Present(codes, w).None?;
    notes2 := if !resp.ApiError? then notes
              else if absent then notes + [AddRaised(w.name, mac, e)]
              else notes + [UpdateRaised(w.rawCode, mac, e)];
    ch2 := Plus(ch, Outcome(codes, w, resp));
  }

  /**
   * Lines 123-154: every reservation up to the first one that raises makes
   * exactly one call, judged against `codes`, the listing taken before the
   * deletions; a raising reservation ends the pass with its exception.
   */
  method WritePass(acct: Account, mac: string, codes: seq<Code>, ps: seq<Plan>, e: string)
      returns (ch: Changes, notes: seq<string>, crash: Option<string>, ghost responses: seq<Response>)
    requires acct.Valid()
    modifies acct
    ensures acct.Valid()
    ensures acct.devices == old(acct.devices) && acct.userId == old(acct.userId)
    ensures var k := FailIndex(ps);
      && |responses| == k
      && crash == (if k < |ps| then Some(ps[k].detail) else None)
      && ch == Tally(codes, WrittenOf(ps), responses)
      && notes == WriteNotes(mac, codes, WrittenOf(ps), responses, e)
      && acct.log == old(acct.log) + WriteCalls(mac, codes, WrittenOf(ps), responses)
    ensures WyzeLocks.OnlyMacChanged(old(acct.locks), acct.locks, mac)
    ensures Quiet(old(acct.faults)) ==>
      Quiet(acct.faults) && AllOk(responses)
      && acct.Keys(mac) == Applied(old(acct.Keys(mac)), codes, WrittenOf(ps), old(acct.nextId), old(acct.userId))
  {
    ch, notes, crash, responses := Changes([], [], [], []), [], None, [];
    ghost var quiet := Quiet(acct.faults);
    ghost var log0, keys0, next0 := acct.log, acct.Keys(mac), acct.nextId;
    ghost var ws: seq<WyzeLocks.Wanted> := [];
    var i := 0;
    while i < |ps|
      invariant i <= FailIndex(ps) && |responses| == i && ws == Wanteds(ps, i)
      invariant crash.None?
      invariant acct.Valid()
      invariant acct.devices == old(acct.devices) && acct.userId == old(acct.userId)
      invariant ch == Tally(codes, ws, responses)
      invariant notes == WriteNotes(mac, codes, ws, responses, e)
      invariant acct.log == log0 + WriteCalls(mac, codes, ws, responses)
      invariant WyzeLocks.OnlyMacChanged(old(acct.locks), acct.locks, mac)
      invariant quiet ==>
        Quiet(acct.faults) && AllOk(responses)
        && acct.Keys(mac) == Applied(keys0, codes, ws, next0, acct.userId)
        && acct.nextId == next0 + Absent(codes, ws)
    {
      if ps[i].Fails? {
        crash := Some(ps[i].detail);
        break;
      }
      var w := ps[i].w;
      ghost var r;
      ch, notes, r := WriteOne(acct, mac, codes, w, e, ch, notes, ws, responses, log0, keys0, next0, quiet);
      WantedsSnoc(ps, i);
      ws, responses := ws + [w], responses + [r];
      i := i + 1;
    }
    assert i == FailIndex(ps) && ws == WrittenOf(ps);
  }

  lemma WantedsSnoc(ps: seq<Plan>, k: nat)
    requires k < |ps| && forall j :: 0 <= j <= k ==> ps[j].Writes?
    ensures Wanteds(ps, k + 1) == Wanteds(ps, k) + [ps[k].w]
  {
  }

  /** Every label the reservation pass writes starts with "Guest", so the next deletion pass may take it. */
  lemma {:induction false} WantedAreGuests(rs: seq<Reservation>, checkInOffset: int, checkOutOffset: int)
    ensures var ps := Plans(rs, checkInOffset, checkOutOffset);
      forall k :: 0 <= k < FailIndex(ps) ==> StartsWith(WrittenOf(ps)[k].name, "Guest")
  {
    var ps := Plans(rs, checkInOffset, checkOutOffset);
    forall k | 0 <= k < FailIndex(ps) ensures StartsWith(WrittenOf(ps)[k].name, "Guest") {
      var r := rs[k];
      assert ps[k] == PlanFor(r, checkInOffset, checkOutOffset);
      LabelIsGuest(FirstWord(r.guest.s).value, r.checkin);
    }
  }

  /** No code of `table` is named `x` or shares an id with a code of `doomed`. */
  ghost predicate Clear(table: seq<Code>, x: string, doomed: seq<Code>) {
    forall t :: t in table ==> t.name != x && forall d :: d in doomed ==> t.id != d.id
  }

  lemma WithUpdateAbsent(table: seq<Code>, id: int, accessCode: string, name: string, permission: Permission)
    requires forall t :: t in table ==> t.id != id
    ensures WithUpdate(table, id, accessCode, name, permission) == table
  {
    var r := WithUpdate(table, id, accessCode, name, permission);
    forall i | 0 <= i < |table| ensures r[i] == table[i] {
      assert table[i] in table;
    }
  }

  /** One write keeps the deleted ids and the name `x` off the lock, when its label starts with "Guest". */
  lemma ClearStep(codes: seq<Code>, w: WyzeLocks.Wanted, table: seq<Code>, id: int, userId: Option<int>,
                  x: string, doomed: seq<Code>)
    requires FindCode(codes, x).Some? && StartsWith(w.name, "Guest")
    requires forall c :: c in codes && StartsWith(c.name, "Guest") ==> c in doomed
    requires forall d :: d in doomed ==> d.id < id
    requires Clear(table, x, doomed) && forall t :: t in table ==> t.id < id
    ensures Clear(Effect(table, codes, w, id, userId), x, doomed)
    ensures forall t :: t in Effect(table, codes, w, id, userId) ==> t.id < id + (if Present(codes, w).None? then 1 else 0)
  {
    match Present(codes, w)
    case None =>
      var c := Code(id, w.name, w.rawCode, WyzeLocks.Window(w), userId);
      assert w.name != x;
      assert forall t :: t in table + [c] ==> t in table || t == c;
    case Some(c) =>
      assert c in doomed;
      WithUpdateAbsent(table, c.id, w.rawCode, w.name, WyzeLocks.Window(w));
  }

  lemma {:induction false} ClearAfterWrites(codes: seq<Code>, ws: seq<WyzeLocks.Wanted>, nextId: int, userId: Option<int>,
                                            x: string, now: int, table: seq<Code>)
    requires forall c :: c in codes ==> c.id < nextId
    requires forall k :: 0 <= k < |ws| ==> StartsWith(ws[k].name, "Guest")
    requires FindCode(codes, x).Some?
    requires Clear(table, x, WyzeLocks.EligibleCodes(codes, now, true))
    requires forall t :: t in table ==> t.id < nextId
    ensures Clear(Applied(table, codes, ws, nextId, userId), x, WyzeLocks.EligibleCodes(codes, now, true))
    ensures forall t :: t in Applied(table, codes, ws, nextId, userId) ==> t.id < nextId + Absent(codes, ws)
  {
    var doomed := WyzeLocks.EligibleCodes(codes, now, true);
    if ws != [] {
      var n := |ws| - 1;
      var w := ws[n];
      assert forall k :: 0 <= k < n ==> ws[..n][k] == ws[k];
      ClearAfterWrites(codes, ws[..n], nextId, userId, x, now, table);
      assert ws == ws[..n] + [w];
      AppliedSnoc(codes, ws[..n], w, nextId, userId, table);
      ClearStep(codes, w, Applied(table, codes, ws[..n], nextId, userId), nextId + Absent(codes, ws[..n]), userId, x, doomed);
    }
  }

  /**
   * With `delete_all_guest_codes` set, a vendor that performs every call,
   * and the listing read before the deletions: every Guest code that was on
   * the lock is gone at the end, even when a reservation still wants it.
   * The deletion pass removes it, and the reservation pass, judging by the
   * stale listing, sends an update to the deleted id instead of a create.
   */
  lemma DeleteAllStrandsGuests(codes: seq<Code>, ws: seq<WyzeLocks.Wanted>, nextId: int, userId: Option<int>, x: string, now: int)
    requires forall c :: c in codes ==> c.id < nextId
    requires forall k :: 0 <= k < |ws| ==> StartsWith(ws[k].name, "Guest")
    requires FindCode(codes, x).Some? && StartsWith(x, "Guest")
    ensures FindCode(Applied(RemoveAll(codes, WyzeLocks.EligibleCodes(codes, now, true)), codes, ws, nextId, userId), x).None?
  {
    var doomed := WyzeLocks.EligibleCodes(codes, now, true);
    var table := RemoveAll(codes, doomed);
    forall t | t in table ensures t.name != x && (forall d :: d in doomed ==> t.id != d.id) && t.id < nextId {
      RemoveAllMeans(codes, doomed, t);
      assert t.name == x ==> t in doomed;
      forall d | d in doomed ensures t.id != d.id {
        var k :| 0 <= k < |doomed| && doomed[k] == d;
      }
    }
    ClearAfterWrites(codes, ws, nextId, userId, x, now, table);
    var final := Applied(table, codes, ws, nextId, userId);
    forall i | 0 <= i < |final| ensures final[i].name != x {
      assert final[i] in final;
    }
  }

  // ---------------------------------------------------------------------------
  // Which lock a stretch of the log touches
  // ---------------------------------------------------------------------------

  ghost predicate OnMac(calls: seq<Call>, mac: string) {
    forall k :: 0 <= k < |calls| ==> calls[k].mac == mac
  }

  /** `after` extends `before` by calls on lock `mac` only; by none at all when `mac` is `None`. */
  ghost predicate Confined(before: seq<Call>, after: seq<Call>, mac: Option<string>) {
    && |before| <= |after| && after[..|before|] == before
    && (mac.None? ==> after == before)
    && (mac.Some? ==> OnMac(after[|before|..], mac.value))
  }

  lemma DeleteCallsOnMac(mac: string, doomed: seq<Code>, responses: seq<Response>)
    requires |responses| == |doomed|
    ensures OnMac(WyzeLocks.DeleteCalls(mac, doomed, responses), mac)
  {
  }

  lemma WriteCallsOnMac(mac: string, codes: seq<Code>, ws: seq<WyzeLocks.Wanted>, responses: seq<Response>)
    requires |responses| == |ws|
    ensures OnMac(WriteCalls(mac, codes, ws, responses), mac)
  {
  }

  lemma ConfinedAppend(before: seq<Call>, calls: seq<Call>, mac: string)
    requires OnMac(calls, mac)
    ensures Confined(before, before + calls, Some(mac))
  {
    assert (before + calls)[|before|..] == calls;
  }

  lemma ConfinedTrans(a: seq<Call>, b: seq<Call>, c: seq<Call>, mac: Option<string>)
    requires Confined(a, b, mac) && Confined(b, c, mac)
    ensures Confined(a, c, mac)
  {
    if mac.Some? {
      forall k | 0 <= k < |c[|a|..]| ensures c[|a|..][k].mac == mac.value {
        if |a| + k < |b| {
          assert c[|a|..][k] == b[|a|..][k];
        } else {
          assert c[|a|..][k] == c[|b|..][|a| + k - |b|];
        }
      }
    }
  }

  /** No new call is confined to any lock. */
  lemma ConfinedNone(a: seq<Call>, b: seq<Call>, mac: Option<string>)
    requires Confined(a, b, None)
    ensures Confined(a, b, mac)
  {
    assert b[|a|..] == [];
  }

  // ---------------------------------------------------------------------------
  // One lock (lines 107-157)
  // ---------------------------------------------------------------------------

  /** The error entries of the deletion pass: none while `label` is unbound, since the first failure raises. */
  function SweepErrors(doomed: seq<Code>, responses: seq<Response>, lastLabel: Option<string>): seq<string>
    requires |responses| == |doomed|
  {
    if lastLabel.Some? then Unswept(doomed, responses, lastLabel.value) else []
  }

  /** The four lists of the summary: the deletion pass's names and error entries, then the tally of the reservation pass. */
  function Recorded(deletions: seq<string>, errors: seq<string>, t: Changes): Changes {
    Changes(deletions, t.updates, t.additions, errors + t.errors)
  }

  /**
   * Lines 107-157 once the user id is known: the deletion pass over the
   * eligible codes of `codes`, the reservation pass against the same
   * `codes`, and the summary. `crash` is the text of an exception that ends
   * the run; `label2` is the value `label` holds afterwards.
   */
  method SyncLock(acct: Account, mac: string, propertyName: string, codes: seq<Code>, rs: seq<Reservation>,
                  offset: int, now: int, deleteAll: bool, e: string, lastLabel: Option<string>)
      returns (out: seq<string>, crash: Option<string>, label2: Option<string>, ghost dResp: seq<Response>, ghost wResp: seq<Response>)
    requires acct.Valid()
    modifies acct
    ensures acct.Valid()
    ensures acct.devices == old(acct.devices) && acct.userId == old(acct.userId)
    ensures WyzeLocks.OnlyMacChanged(old(acct.locks), acct.locks, mac)
    ensures var doomed := WyzeLocks.EligibleCodes(codes, now, deleteAll);
      |dResp| <= |doomed|
      && (lastLabel.None? && !AllOk(dResp) ==>
            crash == Some(UnboundLabel) && wResp == []
            && out == DeleteNotes(mac, doomed[..|dResp|], dResp, e)
            && acct.log == old(acct.log) + WyzeLocks.DeleteCalls(mac, doomed[..|dResp|], dResp))
    ensures var doomed := WyzeLocks.EligibleCodes(codes, now, deleteAll);
      var ps := Plans(rs, offset, offset);
      var ws := WrittenOf(ps);
      (lastLabel.Some? || AllOk(dResp)) ==>
        |dResp| == |doomed| && |wResp| == |ws|
        && acct.log == old(acct.log) + WyzeLocks.DeleteCalls(mac, doomed, dResp) + WriteCalls(mac, codes, ws, wResp)
        && (FailIndex(ps) < |ps| ==>
              crash == Some(ps[FailIndex(ps)].detail)
              && out == DeleteNotes(mac, doomed, dResp, e) + WriteNotes(mac, codes, ws, wResp, e))
        && (FailIndex(ps) == |ps| ==>
              crash.None? && label2 == (if rs == [] then lastLabel else Some(ws[|ws| - 1].name))
              && out == DeleteNotes(mac, doomed, dResp, e) + WriteNotes(mac, codes, ws, wResp, e)
                        + [Summaries.LegacySummary(propertyName, Recorded(Swept(doomed, dResp), SweepErrors(doomed, dResp, lastLabel), Tally(codes, ws, wResp)))])
    ensures Confined(old(acct.log), acct.log, Some(mac))
    ensures Quiet(old(acct.faults)) && FailIndex(Plans(rs, offset, offset)) == |rs| ==> crash.None?
    ensures Quiet(old(acct.faults)) ==>
      Quiet(acct.faults) && AllOk(dResp) && AllOk(wResp)
      && acct.Keys(mac)
         == Applied(RemoveAll(old(acct.Keys(mac)), WyzeLocks.EligibleCodes(codes, now, deleteAll)), codes,
                    WrittenOf(Plans(rs, offset, offset)), old(acct.nextId), old(acct.userId))
  {
    var doomed := WyzeLocks.EligibleCodes(codes, now, deleteAll);
    ghost var log0 := acct.log;
    var deletions, errors, dNotes, aborted;
    deletions, errors, dNotes, aborted, dResp := Sweep(acct, mac, doomed, lastLabel, e);
    DeleteCallsOnMac(mac, doomed[..|dResp|], dResp);
    if aborted {
      out, crash, label2, wResp := dNotes, Some(UnboundLabel), lastLabel, [];
      ConfinedAppend(log0, WyzeLocks.DeleteCalls(mac, doomed[..|dResp|], dResp), mac);
      return;
    }
    assert doomed[..|dResp|] == doomed;
    ghost var log1 := acct.log;
    ConfinedAppend(log0, WyzeLocks.DeleteCalls(mac, doomed, dResp), mac);
    out, crash, label2, wResp := WriteAndReport(acct, mac, propertyName, codes, rs, offset, e, lastLabel, doomed, dResp, deletions, errors, dNotes);
    ConfinedTrans(log0, log1, acct.log, Some(mac));
  }

  /** Lines 123-157 after a deletion pass that ran to its end: the reservation pass, then the summary. */
  method WriteAndReport(acct: Account, mac: string, propertyName: string, codes: seq<Code>, rs: seq<Reservation>, offset: int,
                        e: string, lastLabel: Option<string>, ghost doomed: seq<Code>, ghost dResp: seq<Response>,
                        deletions: seq<string>, errors: seq<string>, dNotes: seq<string>)
      returns (out: seq<string>, crash: Option<string>, label2: Option<string>, ghost wResp: seq<Response>)
    requires acct.Valid() && |dResp| == |doomed|
    requires deletions == Swept(doomed, dResp) && errors == SweepErrors(doomed, dResp, lastLabel)
    modifies acct
    ensures acct.Valid()
    ensures acct.devices == old(acct.devices) && acct.userId == old(acct.userId)
    ensures WyzeLocks.OnlyMacChanged(old(acct.locks), acct.locks, mac)
    ensures var ps := Plans(rs, offset, offset);
      var ws := WrittenOf(ps);
      && |wResp| == |ws|
      && acct.log == old(acct.log) + WriteCalls(mac, codes, ws, wResp)
      && (FailIndex(ps) < |ps| ==> crash == Some(ps[FailIndex(ps)].detail) && out == dNotes + WriteNotes(mac, codes, ws, wResp, e))
      && (FailIndex(ps) == |ps| ==>
            crash.None? && label2 == (if rs == [] then lastLabel else Some(ws[|ws| - 1].name))
            && out == dNotes + WriteNotes(mac, codes, ws, wResp, e)
                      + [Summaries.LegacySummary(propertyName, Recorded(Swept(doomed, dResp), SweepErrors(doomed, dResp, lastLabel), Tally(codes, ws, wResp)))])
    ensures Confined(old(acct.log), acct.log, Some(mac))
    ensures Quiet(old(acct.faults)) ==>
      Quiet(acct.faults) && AllOk(wResp)
      && acct.Keys(mac) == Applied(old(acct.Keys(mac)), codes, WrittenOf(Plans(rs, offset, offset)), old(acct.nextId), old(acct.userId))
  {
    ghost var log0 := acct.log;
    var ps := Plans(rs, offset, offset);
    var ch, wNotes;
    ch, wNotes, crash, wResp := WritePass(acct, mac, codes, ps, e);
    out := dNotes + wNotes;
    label2 := lastLabel;
    WriteCallsOnMac(mac, codes, WrittenOf(ps), wResp);
    ConfinedAppend(log0, WriteCalls(mac, codes, WrittenOf(ps), wResp), mac);
    if crash.None? {
      ghost var ws := WrittenOf(ps);
      if rs != [] {
        assert ps[|ps| - 1].w == ws[|ws| - 1];
        label2 := Some(ps[|ps| - 1].w.name);
      }
      out := out + [Summaries.LegacySummary(propertyName, Recorded(deletions, errors, ch))];
    }
  }

  // ---------------------------------------------------------------------------
  // One property (lines 73-157)
  // ---------------------------------------------------------------------------

  /** Lines 78-87: the property is passed over before any call on a lock. */
  predicate Gated(p: Property, s: Settings) {
    NoBookings(p.reservations) || (s.test && LockName(p.name) != s.testPropertyName)
  }

  /** What the gates post. */
  function GateMessage(p: Property, s: Settings): string {
    if NoBookings(p.reservations) then NoReservations(p.name) else SkippingLocks(p.name)
  }

  /** Every reservation of the property gets past lines 124-136 without raising. */
  predicate Writable(p: Property, checkInOffset: int, checkOutOffset: int) {
    p.reservations.Some? ==> forall k :: 0 <= k < |p.reservations.value| ==> PlanFor(p.reservations.value[k], checkInOffset, checkOutOffset).Writes?
  }

  lemma WritableRuns(rs: seq<Reservation>, checkInOffset: int, checkOutOffset: int)
    ensures (forall k :: 0 <= k < |rs| ==> PlanFor(rs[k], checkInOffset, checkOutOffset).Writes?)
      ==> FailIndex(Plans(rs, checkInOffset, checkOutOffset)) == |rs|
  {
  }

  /**
   * Lines 94-157 for the lock with MAC `mac`: list its codes, settle the
   * user id, then run the two passes. `stop` is the `return` of line 105.
   */
  method VisitLock(acct: Account, mac: string, p: Property, rs: seq<Reservation>, s: Settings, now: int, deleteAll: bool,
                   e: string, lastLabel: Option<string>)
      returns (out: seq<string>, crash: Option<string>, stop: bool, label2: Option<string>)
    requires acct.Valid()
    modifies acct
    ensures acct.Valid() && acct.devices == old(acct.devices)
    ensures Confined(old(acct.log), acct.log, Some(mac))
    ensures var listing := Listing(Head(old(acct.faults)), KeysOf(old(acct.locks), mac));
      && (listing.None? ==>
            out == [NoLockCodes(LockName(p.name), p.name)] && crash.None? && !stop && label2 == lastLabel && acct.locks == old(acct.locks))
      && (listing.Some? ==>
            acct.userId == GetUserIdFromExistingCodes(listing.value, old(acct.userId))
            && (acct.userId.None? ==> out == [NoUserId] && crash.None? && stop && acct.locks == old(acct.locks)))
    ensures stop ==> out == [NoUserId] && crash.None?
    ensures Quiet(old(acct.faults)) ==> Quiet(acct.faults)
    ensures Quiet(old(acct.faults)) && FailIndex(Plans(rs, s.offset, s.offset)) == |rs| ==> crash.None?
    ensures var codes := KeysOf(old(acct.locks), mac);
      Quiet(old(acct.faults)) && GetUserIdFromExistingCodes(codes, old(acct.userId)).Some? ==>
        acct.Keys(mac) == Applied(RemoveAll(codes, WyzeLocks.EligibleCodes(codes, now, deleteAll)), codes,
                                  WrittenOf(Plans(rs, s.offset, s.offset)), old(acct.nextId), acct.userId)
  {
    ghost var log0 := acct.log;
    if Quiet(acct.faults) { WyzeLocks.QuietTail(acct.faults); }
    var existing := acct.GetKeys(mac);
    ConfinedAppend(log0, [Listed(mac, existing)], mac);
    crash, stop, label2 := None, false, lastLabel;
    if existing.None? {
      out := [NoLockCodes(LockName(p.name), p.name)];
      return;
    }
    WyzeLocks.AdoptUserId(acct, existing.value);
    if acct.userId.None? {
      out, stop := [NoUserId], true;
      return;
    }
    ghost var log1 := acct.log;
    ghost var dResp, wResp;
    out, crash, label2, dResp, wResp := SyncLock(acct, mac, p.name, existing.value, rs, s.offset, now, deleteAll, e, lastLabel);
    ConfinedTrans(log0, log1, acct.log, Some(mac));
  }

  /**
   * Lines 74-157 for one property: the gates of lines 78-98, each posting
   * one message and moving on, then `VisitLock` on the lock's MAC.
   */
  method Visit(acct: Account, p: Property, s: Settings, now: int, deleteAll: bool, e: string, lastLabel: Option<string>)
      returns (out: seq<string>, crash: Option<string>, stop: bool, label2: Option<string>)
    requires acct.Valid()
    modifies acct
    ensures acct.Valid() && acct.devices == old(acct.devices)
    ensures Confined(old(acct.log), acct.log, if Gated(p, s) then None else WyzeLocks.MacOf(old(acct.devices), LockName(p.name)))
    ensures Gated(p, s) ==>
      out == [GateMessage(p, s)] && crash.None? && !stop && label2 == lastLabel
      && acct.locks == old(acct.locks) && acct.faults == old(acct.faults) && acct.userId == old(acct.userId)
    ensures !Gated(p, s) && WyzeLocks.MacOf(old(acct.devices), LockName(p.name)).None? ==>
      out == [NoLockInfo(LockName(p.name), p.name)] && crash.None? && !stop && label2 == lastLabel
      && acct.locks == old(acct.locks) && acct.faults == old(acct.faults) && acct.userId == old(acct.userId)
    ensures !Gated(p, s) && WyzeLocks.MacOf(old(acct.devices), LockName(p.name)).Some? ==>
      var mac := WyzeLocks.MacOf(old(acct.devices), LockName(p.name)).value;
      var listing := Listing(Head(old(acct.faults)), KeysOf(old(acct.locks), mac));
      && (listing.None? ==>
            out == [NoLockCodes(LockName(p.name), p.name)] && crash.None? && !stop && label2 == lastLabel && acct.locks == old(acct.locks))
      && (listing.Some? ==>
            acct.userId == GetUserIdFromExistingCodes(listing.value, old(acct.userId))
            && (acct.userId.None? ==> out == [NoUserId] && stop && acct.locks == old(acct.locks)))
    ensures stop ==> out == [NoUserId] && crash.None?
    ensures Quiet(old(acct.faults)) ==> Quiet(acct.faults) && (Writable(p, s.offset, s.offset) ==> crash.None?)
    ensures !Gated(p, s) && WyzeLocks.MacOf(old(acct.devices), LockName(p.name)).Some? ==>
      var mac := WyzeLocks.MacOf(old(acct.devices), LockName(p.name)).value;
      var codes := KeysOf(old(acct.locks), mac);
      var ps := Plans(p.reservations.value, s.offset, s.offset);
      Quiet(old(acct.faults)) && GetUserIdFromExistingCodes(codes, old(acct.userId)).Some? ==>
        acct.Keys(mac) == Applied(RemoveAll(codes, WyzeLocks.EligibleCodes(codes, now, deleteAll)), codes,
                                  WrittenOf(ps), old(acct.nextId), acct.userId)
  {
    if NoBookings(p.reservations) {
      out, crash, stop, label2 := [NoReservations(p.name)], None, false, lastLabel;
      return;
    }
    var lockName := LockName(p.name);
    if s.test {
      if lockName != s.testPropertyName {
        out, crash, stop, label2 := [SkippingLocks(p.name)], None, false, lastLabel;
        return;
      }
    }
    var device := GetDeviceByName(acct.devices, lockName);
    if device.None? {
      out, crash, stop, label2 := [NoLockInfo(lockName, p.name)], None, false, lastLabel;
      return;
    }
    WritableRuns(p.reservations.value, s.offset, s.offset);
    out, crash, stop, label2 := VisitLock(acct, device.value.mac, p, p.reservations.value, s, now, deleteAll, e, lastLabel);
  }

  // ---------------------------------------------------------------------------
  // The run (lines 51-161)
  // ---------------------------------------------------------------------------

  /** `not properties`. */
  predicate NoListing(properties: Option<seq<Property>>) {
    properties.None? || properties.value == []
  }

  /** How one property's visit ended: its messages, the exception that ends the run, and the `return` of line 105. */
  datatype Visited = Visited(out: seq<string>, crash: Option<string>, stop: bool)

  /** What a visit adds to the run's messages: its own, then the outer handler's when it raised. */
  function Posted(v: Visited): seq<string> {
    v.out + (if v.crash.Some? then [InFunction(v.crash.value)] else [])
  }

  /** The run's messages after the visits `vs`, in visiting order. */
  function Messages(vs: seq<Visited>): seq<string> {
    if vs == [] then [] else Messages(vs[..|vs| - 1]) + Posted(vs[|vs| - 1])
  }

  /**
   * The visits of a run over `n` properties: at most one per property, in
   * order; every visit but the last goes on; the run ends before the last
   * property only after a raise or a stop.
   */
  predicate RunShape(vs: seq<Visited>, n: nat) {
    && |vs| <= n
    && (forall k :: 0 <= k < |vs| - 1 ==> vs[k].crash.None? && !vs[k].stop)
    && (|vs| < n ==> vs != [] && (vs[|vs| - 1].crash.Some? || vs[|vs| - 1].stop))
  }

  /**
   * What the visit of property `p` posts when a gate or the device lookup
   * turns it away, and that a stop posts only the missing user id.
   */
  predicate TurnedAwayAt(v: Visited, p: Property, s: Settings, devices: Option<seq<DeviceInfo>>) {
    && (Gated(p, s) ==> v == Visited([GateMessage(p, s)], None, false))
    && (!Gated(p, s) && WyzeLocks.MacOf(devices, LockName(p.name)).None? ==>
          v == Visited([NoLockInfo(LockName(p.name), p.name)], None, false))
    && (v.stop ==> v.out == [NoUserId] && v.crash.None?)
  }

  /** `TurnedAwayAt` for every visit, each against its own property. */
  predicate TurnedAway(vs: seq<Visited>, ps: seq<Property>, s: Settings, devices: Option<seq<DeviceInfo>>) {
    |vs| <= |ps| && forall k :: 0 <= k < |vs| ==> TurnedAwayAt(vs[k], ps[k], s, devices)
  }

  lemma TurnedAwaySnoc(vs: seq<Visited>, ps: seq<Property>, s: Settings, devices: Option<seq<DeviceInfo>>, v: Visited)
    requires TurnedAway(vs, ps, s, devices) && |vs| < |ps| && TurnedAwayAt(v, ps[|vs|], s, devices)
    ensures TurnedAway(vs + [v], ps, s, devices)
  {
  }

  /**
   * `process_reservations(delete_all_guest_codes)`: the Slack messages of
   * one run, in order. `authenticated` and `wyzeAuthenticated` are whether
   * the two logins return a token, `properties` what `get_properties`
   * returns, each with the reservations `get_reservations` returns for it,
   * `now` is `datetime.now()` and `e` the text of any exception the SDK
   * raises. `crashed` says the run ended in the outer handler; `visits`
   * are the properties' visits, whose messages make up the run's.
   */
  method ProcessReservations(acct: Account, authenticated: bool, properties: Option<seq<Property>>, wyzeAuthenticated: bool,
                             s: Settings, now: int, deleteAll: bool, e: string)
      returns (msgs: seq<string>, ghost crashed: bool, ghost visits: seq<Visited>)
    requires acct.Valid()
    modifies acct
    ensures acct.Valid() && acct.devices == old(acct.devices)
    ensures !authenticated ==> msgs == [NoHospitableAuth] && acct.log == old(acct.log) && acct.locks == old(acct.locks)
    ensures authenticated && NoListing(properties) ==> msgs == [NoProperties] && acct.log == old(acct.log) && acct.locks == old(acct.locks)
    ensures authenticated && !NoListing(properties) && !wyzeAuthenticated ==>
      msgs == [NoWyzeAuth] && acct.log == old(acct.log) && acct.locks == old(acct.locks)
    ensures authenticated && !NoListing(properties) && wyzeAuthenticated ==>
      && msgs == Messages(visits) && RunShape(visits, |properties.value|)
      && TurnedAway(visits, properties.value, s, old(acct.devices))
      && (crashed <==> visits != [] && visits[|visits| - 1].crash.Some?)
    ensures crashed ==> |msgs| >= 1 && exists d :: msgs[|msgs| - 1] == InFunction(d)
    ensures s.test ==> Confined(old(acct.log), acct.log, WyzeLocks.MacOf(old(acct.devices), s.testPropertyName))
    ensures Quiet(old(acct.faults)) && properties.Some? && (forall k :: 0 <= k < |properties.value| ==> Writable(properties.value[k], s.offset, s.offset))
      ==> !crashed && Quiet(acct.faults)
  {
    crashed, visits := false, [];
    if !authenticated {
      msgs := [NoHospitableAuth];
      return;
    }
    if NoListing(properties) {
      msgs := [NoProperties];
      return;
    }
    if !wyzeAuthenticated {
      msgs := [NoWyzeAuth];
      return;
    }
    msgs, crashed, visits := VisitAll(acct, properties.value, s, now, deleteAll, e);
  }

  /** `Visit` seen from the run: the visit as a value, with what the run's contract needs of it. */
  method VisitStep(acct: Account, p: Property, s: Settings, now: int, deleteAll: bool, e: string, lastLabel: Option<string>)
      returns (v: Visited, label2: Option<string>)
    requires acct.Valid()
    modifies acct
    ensures acct.Valid() && acct.devices == old(acct.devices)
    ensures TurnedAwayAt(v, p, s, old(acct.devices))
    ensures s.test ==> Confined(old(acct.log), acct.log, WyzeLocks.MacOf(old(acct.devices), s.testPropertyName))
    ensures Quiet(old(acct.faults)) ==> Quiet(acct.faults) && (Writable(p, s.offset, s.offset) ==> v.crash.None?)
  {
    ghost var log0 := acct.log;
    var out, crash, stop;
    out, crash, stop, label2 := Visit(acct, p, s, now, deleteAll, e, lastLabel);
    v := Visited(out, crash, stop);
    if s.test && Gated(p, s) {
      ConfinedNone(log0, acct.log, WyzeLocks.MacOf(old(acct.devices), s.testPropertyName));
    }
  }

  /** Lines 74-157: the properties visited in order, until one raises or stops the run. */
  method VisitAll(acct: Account, ps: seq<Property>, s: Settings, now: int, deleteAll: bool, e: string)
      returns (msgs: seq<string>, ghost crashed: bool, ghost visits: seq<Visited>)
    requires acct.Valid()
    modifies acct
    ensures acct.Valid() && acct.devices == old(acct.devices)
    ensures msgs == Messages(visits) && RunShape(visits, |ps|) && TurnedAway(visits, ps, s, old(acct.devices))
    ensures crashed <==> visits != [] && visits[|visits| - 1].crash.Some?
    ensures crashed ==> |msgs| >= 1 && msgs[|msgs| - 1] == InFunction(visits[|visits| - 1].crash.value)
    ensures s.test ==> Confined(old(acct.log), acct.log, WyzeLocks.MacOf(old(acct.devices), s.testPropertyName))
    ensures Quiet(old(acct.faults)) && (forall k :: 0 <= k < |ps| ==> Writable(ps[k], s.offset, s.offset))
      ==> !crashed && Quiet(acct.faults)
  {
    crashed := false;
    ghost var quiet := Quiet(acct.faults) && forall k :: 0 <= k < |ps| ==> Writable(ps[k], s.offset, s.offset);
    ghost var log0 := acct.log;
    var lastLabel: Option<string> := None;
    msgs, visits := [], [];
    var i := 0;
    while i < |ps|
      invariant 0 <= i <= |ps| && |visits| == i
      invariant acct.Valid() && acct.devices == old(acct.devices)
      invariant s.test ==> Confined(log0, acct.log, WyzeLocks.MacOf(old(acct.devices), s.testPropertyName))
      invariant quiet ==> Quiet(acct.faults)
      invariant msgs == Messages(visits) && TurnedAway(visits, ps, s, old(acct.devices))
      invariant forall k :: 0 <= k < i ==> visits[k].crash.None? && !visits[k].stop
    {
      ghost var log1 := acct.log;
      var v;
      v, lastLabel := VisitStep(acct, ps[i], s, now, deleteAll, e, lastLabel);
      MessagesSnoc(visits, v);
      TurnedAwaySnoc(visits, ps, s, old(acct.devices), v);
      visits := visits + [v];
      msgs := msgs + v.out;
      if s.test {
        ConfinedTrans(log0, log1, acct.log, WyzeLocks.MacOf(old(acct.devices), s.testPropertyName));
      }
      if v.crash.Some? {
        msgs := msgs + [InFunction(v.crash.value)];
        crashed := true;
        return;
      }
      if v.stop {
        return;
      }
      i := i + 1;
    }
  }

  lemma MessagesSnoc(vs: seq<Visited>, v: Visited)
    ensures Messages(vs + [v]) == Messages(vs) + Posted(v)
  {
    assert (vs + [v])[..|vs|] == vs;
  }
}
