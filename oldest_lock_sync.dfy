/**
 * The oldest Wyze script, `process_reservations` in
 * src/sync-locks/sync-locks-function/lock-sync.py. It has the same shape
 * as the legacy script (module LegacyLockSync), with three differences:
 * it records every attempted delete, add and update whatever the vendor
 * answers; a wrapper turns a non-zero `ErrNo` into a WyzeApiError that it
 * catches and posts; and the summary lists bare names with no Errors
 * section. The plan of a reservation, the listing judgement and the lock
 * table functions are the legacy module's.
 */
module OldestLockSync {
  import opened Common
  import opened WyzeApi
  import opened Wyze
  import opened Reservations
  import WyzeLocks
  import Summaries
  import OldestErrorMapping
  import opened LegacyLockSync

  // ---------------------------------------------------------------------------
  // Messages and settings
  // ---------------------------------------------------------------------------

  function NoReservationsFetched(propertyName: string): string {
    "Unable to fetch reservations for property " + propertyName + "."
  }

  function NoLockInfoFor(lockName: string): string {
    "Unable to fetch lock info for " + lockName + "."
  }

  function NoLockCodesFor(lockName: string): string {
    "Unable to fetch lock codes for " + lockName + "."
  }

  /**
   * `str(e)` of the WyzeApiError a wrapper raises for a non-zero `ErrNo`
   * (lines 209-210, 225-226, 238-239). The response's repr is written as a
   * dictionary holding only `ErrNo`.
   */
  function Raised(errNo: int): string {
    OldestErrorMapping.GetErrorMessage(errNo) + "; Original response: {'ErrNo': " + IntToString(errNo) + "}"
  }

  /** The text a wrapper posts for a call that did not answer `ErrNo` 0; `e` is the SDK's own exception text. */
  function Detail(r: Response, e: string): string {
    if r.ApiError? then e else Raised(r.errNo)
  }

  /** Lines 22-26: the offsets, `DELETE_ALL_GUEST_CODES` and the TEST switch, all read from the environment. */
  datatype Settings = Settings(checkInOffset: int, checkOutOffset: int, deleteAll: bool, test: bool, testPropertyName: string)

  function PlansOf(rs: seq<Reservation>, s: Settings): seq<Plan> {
    Plans(rs, s.checkInOffset, s.checkOutOffset)
  }

  /** Each end of the window moves by its own offset: the two conversions of lines 107-108. */
  lemma WindowOffsets(r: Reservation, s: Settings)
    requires PlanFor(r, s.checkInOffset, s.checkOutOffset).Writes?
    ensures var w := PlanFor(r, s.checkInOffset, s.checkOutOffset).w;
      && w.begin - s.checkInOffset * 3600 == Clock.Seconds(Clock.ParseDateTime(r.checkin).value)
      && w.end - s.checkOutOffset * 3600 == Clock.Seconds(Clock.ParseDateTime(r.checkout).value)
  {
  }

  // ---------------------------------------------------------------------------
  // The deletion pass (lines 92-98)
  // ---------------------------------------------------------------------------

  function Names(cs: seq<Code>): (r: seq<string>)
    ensures |r| == |cs| && forall k :: 0 <= k < |cs| ==> r[k] == cs[k].name
  {
    seq(|cs|, k requires 0 <= k < |cs| => cs[k].name)
  }

  /** The messages `delete_lock_code` posts: one for each delete not answered with `ErrNo` 0. */
  function PurgeNotes(mac: string, doomed: seq<Code>, responses: seq<Response>, e: string): seq<string>
    requires |responses| == |doomed|
  {
    if doomed == [] then []
    else
      var n := |doomed| - 1;
      PurgeNotes(mac, doomed[..n], responses[..n], e)
      + (if Ok(responses[n]) then [] else [DeleteRaised(doomed[n].id, mac, Detail(responses[n], e))])
  }

  lemma PurgeSnoc(mac: string, doomed: seq<Code>, responses: seq<Response>, c: Code, r: Response, e: string)
    requires |responses| == |doomed|
    ensures PurgeNotes(mac, doomed + [c], responses + [r], e)
      == PurgeNotes(mac, doomed, responses, e) + (if Ok(r) then [] else [DeleteRaised(c.id, mac, Detail(r, e))])
    ensures Names(doomed + [c]) == Names(doomed) + [c.name]
  {
    assert (doomed + [c])[..|doomed|] == doomed;
    assert (responses + [r])[..|responses|] == responses;
  }

  /** A vendor that answers every delete with `ErrNo` 0 draws no message. */
  lemma {:induction false} QuietPurgeIsSilent(mac: string, doomed: seq<Code>, responses: seq<Response>, e: string)
    requires |responses| == |doomed| && AllOk(responses)
    ensures PurgeNotes(mac, doomed, responses, e) == []
  {
    if doomed != [] {
      var n := |doomed| - 1;
      assert AllOk(responses[..n]) by {
        forall k | 0 <= k < n ensures Ok(responses[..n][k]) { assert responses[..n][k] == responses[k]; }
      }
      QuietPurgeIsSilent(mac, doomed[..n], responses[..n], e);
      assert Ok(responses[n]);
    }
  }

  /**
   * Lines 97-98 for the code at index `i` of `doomed`: the delete, its name
   * recorded whatever the answer; `responses` are the answers to the
   * deletes before it.
   */
  method PurgeOne(acct: Account, mac: string, doomed: seq<Code>, i: nat, e: string, ghost responses: seq<Response>,
                  deletions: seq<string>, notes: seq<string>, ghost log0: seq<Call>, ghost keys0: seq<Code>, ghost quiet: bool)
      returns (deletions': seq<string>, notes': seq<string>, ghost r: Response)
    requires acct.Valid() && i < |doomed| && |responses| == i
    requires deletions == Names(doomed[..i]) && notes == PurgeNotes(mac, doomed[..i], responses, e)
    requires acct.log == log0 + WyzeLocks.DeleteCalls(mac, doomed[..i], responses)
    requires quiet ==> Quiet(acct.faults) && AllOk(responses) && acct.Keys(mac) == RemoveAll(keys0, doomed[..i])
    modifies acct
    ensures acct.Valid()
    ensures acct.devices == old(acct.devices) && acct.userId == old(acct.userId) && acct.nextId == old(acct.nextId)
    ensures deletions' == Names(doomed[..i + 1]) && notes' == PurgeNotes(mac, doomed[..i + 1], responses + [r], e)
    ensures acct.log == log0 + WyzeLocks.DeleteCalls(mac, doomed[..i + 1], responses + [r])
    ensures WyzeLocks.OnlyMacChanged(old(acct.locks), acct.locks, mac)
    ensures quiet ==> Quiet(acct.faults) && AllOk(responses + [r]) && acct.Keys(mac) == RemoveAll(keys0, doomed[..i + 1])
  {
    var c := doomed[i];
    TakeOneMore(doomed, i);
    if Quiet(acct.faults) { WyzeLocks.QuietTail(acct.faults); }
    r := Answer(Head(acct.faults));
    var resp := acct.DeleteAccessCode(mac, c.id);
    PurgeSnoc(mac, doomed[..i], responses, c, r, e);
    WyzeLocks.DeleteCallsSnoc(mac, doomed[..i], responses, c, r);
    RemoveAllSnoc(keys0, doomed[..i], c);
    AllOkSnoc(responses, r);
    notes' := if MutationResult(resp) == Some(true) then notes else notes + [DeleteRaised(c.id, mac, Detail(resp, e))];
    deletions' := deletions + [c.name];
  }

  /** Lines 93-98: delete every eligible code in listing order, recording each name. */
  method Purge(acct: Account, mac: string, doomed: seq<Code>, e: string)
      returns (deletions: seq<string>, notes: seq<string>, ghost responses: seq<Response>)
    requires acct.Valid()
    modifies acct
    ensures acct.Valid()
    ensures acct.devices == old(acct.devices) && acct.userId == old(acct.userId) && acct.nextId == old(acct.nextId)
    ensures |responses| == |doomed|
    ensures deletions == Names(doomed)
    ensures notes == PurgeNotes(mac, doomed, responses, e)
    ensures acct.log == old(acct.log) + WyzeLocks.DeleteCalls(mac, doomed, responses)
    ensures WyzeLocks.OnlyMacChanged(old(acct.locks), acct.locks, mac)
    ensures Quiet(old(acct.faults)) ==>
      Quiet(acct.faults) && AllOk(responses) && acct.Keys(mac) == RemoveAll(old(acct.Keys(mac)), doomed)
  {
    deletions, notes, responses := [], [], [];
    ghost var quiet := Quiet(acct.faults);
    ghost var log0, keys0 := acct.log, acct.Keys(mac);
    var i := 0;
    while i < |doomed|
      invariant 0 <= i <= |doomed| && |responses| == i
      invariant acct.Valid()
      invariant acct.devices == old(acct.devices) && acct.userId == old(acct.userId) && acct.nextId == old(acct.nextId)
      invariant deletions == Names(doomed[..i])
      invariant notes == PurgeNotes(mac, doomed[..i], responses, e)
      invariant acct.log == log0 + WyzeLocks.DeleteCalls(mac, doomed[..i], responses)
      invariant WyzeLocks.OnlyMacChanged(old(acct.locks), acct.locks, mac)
      invariant quiet ==> Quiet(acct.faults) && AllOk(responses) && acct.Keys(mac) == RemoveAll(keys0, doomed[..i])
    {
      ghost var r;
      deletions, notes, r := PurgeOne(acct, mac, doomed, i, e, responses, deletions, notes, log0, keys0, quiet);
      responses := responses + [r];
      i := i + 1;
    }
    assert doomed[..i] == doomed;
  }

  // ---------------------------------------------------------------------------
  // The reservation pass (lines 100-125)
  // ---------------------------------------------------------------------------

  /** The labels recorded as updates: those the listing shows. */
  function PresentNames(codes: seq<Code>, ws: seq<WyzeLocks.Wanted>): seq<string> {
    if ws == [] then []
    else
      var n := |ws| - 1;
      PresentNames(codes, ws[..n]) + (if Present(codes, ws[n]).Some? then [ws[n].name] else [])
  }

  /** The labels recorded as additions: those the listing does not show. */
  function AbsentNames(codes: seq<Code>, ws: seq<WyzeLocks.Wanted>): seq<string> {
    if ws == [] then []
    else
      var n := |ws| - 1;
      AbsentNames(codes, ws[..n]) + (if Present(codes, ws[n]).None? then [ws[n].name] else [])
  }

  /** The messages the add and update wrappers post: one for each call not answered with `ErrNo` 0. */
  function PassNotes(mac: string, codes: seq<Code>, ws: seq<WyzeLocks.Wanted>, responses: seq<Response>, e: string): seq<string>
    requires |responses| == |ws|
  {
    if ws == [] then []
    else
      var n := |ws| - 1;
      PassNotes(mac, codes, ws[..n], responses[..n], e)
      + (if Ok(responses[n]) then []
         else if Present(codes, ws[n]).None? then [AddRaised(ws[n].name, mac, Detail(responses[n], e))]
         else [UpdateRaised(ws[n].rawCode, mac, Detail(responses[n], e))])
  }

  /** Every reservation is recorded exactly once, as an update or as an addition, whatever the vendor answers. */
  lemma {:induction false} RecordedOnce(codes: seq<Code>, ws: seq<WyzeLocks.Wanted>, x: string)
    ensures |PresentNames(codes, ws)| + |AbsentNames(codes, ws)| == |ws|
    ensures x in PresentNames(codes, ws) <==> exists k :: 0 <= k < |ws| && ws[k].name == x && Present(codes, ws[k]).Some?
    ensures x in AbsentNames(codes, ws) <==> exists k :: 0 <= k < |ws| && ws[k].name == x && Present(codes, ws[k]).None?
  {
    if ws != [] {
      var n := |ws| - 1;
      RecordedOnce(codes, ws[..n], x);
      assert forall k :: 0 <= k < n ==> ws[..n][k] == ws[k];
    }
  }

  lemma RecordSnoc(codes: seq<Code>, ws: seq<WyzeLocks.Wanted>, w: WyzeLocks.Wanted)
    ensures PresentNames(codes, ws + [w]) == PresentNames(codes, ws) + (if Present(codes, w).Some? then [w.name] else [])
    ensures AbsentNames(codes, ws + [w]) == AbsentNames(codes, ws) + (if Present(codes, w).None? then [w.name] else [])
  {
    assert (ws + [w])[..|ws|] == ws;
  }

  lemma PassNotesSnoc(mac: string, codes: seq<Code>, ws: seq<WyzeLocks.Wanted>, responses: seq<Response>,
                      w: WyzeLocks.Wanted, r: Response, e: string)
    requires |responses| == |ws|
    ensures PassNotes(mac, codes, ws + [w], responses + [r], e) == PassNotes(mac, codes, ws, responses, e)
      + (if Ok(r) then [] else if Present(codes, w).None? then [AddRaised(w.name, mac, Detail(r, e))] else [UpdateRaised(w.rawCode, mac, Detail(r, e))])
  {
    assert (ws + [w])[..|ws|] == ws;
    assert (responses + [r])[..|responses|] == responses;
  }

  /** Lines 116-125 for one reservation: one create or one update, recorded whatever the answer. */
  method PassOne(acct: Account, mac: string, codes: seq<Code>, w: WyzeLocks.Wanted, e: string,
                 updates: seq<string>, additions: seq<string>, notes: seq<string>,
                 ghost ws: seq<WyzeLocks.Wanted>, ghost responses: seq<Response>, ghost log0: seq<Call>, ghost keys0: seq<Code>, ghost next0: int, ghost quiet: bool)
      returns (updates': seq<string>, additions': seq<string>, notes': seq<string>, ghost r: Response)
    requires acct.Valid() && |responses| == |ws|
    requires updates == PresentNames(codes, ws) && additions == AbsentNames(codes, ws) && notes == PassNotes(mac, codes, ws, responses, e)
    requires acct.log == log0 + WriteCalls(mac, codes, ws, responses)
    requires quiet ==>
      Quiet(acct.faults) && AllOk(responses) && acct.Keys(mac) == Applied(keys0, codes, ws, next0, acct.userId) && acct.nextId == next0 + Absent(codes, ws)
    modifies acct
    ensures acct.Valid()
    ensures acct.devices == old(acct.devices) && acct.userId == old(acct.userId)
    ensures updates' == PresentNames(codes, ws + [w]) && additions' == AbsentNames(codes, ws + [w])
    ensures notes' == PassNotes(mac, codes, ws + [w], responses + [r], e)
    ensures acct.log == log0 + WriteCalls(mac, codes, ws + [w], responses + [r])
    ensures WyzeLocks.OnlyMacChanged(old(acct.locks), acct.locks, mac)
    ensures quiet ==>
      Quiet(acct.faults) && AllOk(responses + [r])
      && acct.Keys(mac) == Applied(keys0, codes, ws + [w], next0, acct.userId)
      && acct.nextId == next0 + Absent(codes, ws + [w])
  {
    var resp := WriteWanted(acct, mac, codes, w, ws, responses, log0, keys0, next0, quiet);
    r := resp;
    RecordSnoc(codes, ws, w);
    PassNotesSnoc(mac, codes, ws, responses, w, r, e);
    var absent := Present(codes, w).None?;
    notes' := if MutationResult(resp) == Some(true) then notes
              else if absent then notes + [AddRaised(w.name, mac, Detail(resp, e))]
              else notes + [UpdateRaised(w.rawCode, mac, Detail(resp, e))];
    if absent {
      updates', additions' := updates, additions + [w.name];
    } else {
      updates', additions' := updates + [w.name], additions;
    }
  }

  /**
   * Lines 101-125: every reservation up to the first one that raises makes
   * one call, judged against `codes`, the listing read before the
   * deletions; a raising reservation ends the pass with its exception.
   */
  method Pass(acct: Account, mac: string, codes: seq<Code>, ps: seq<Plan>, e: string)
      returns (updates: seq<string>, additions: seq<string>, notes: seq<string>, crash: Option<string>, ghost responses: seq<Response>)
    requires acct.Valid()
    modifies acct
    ensures acct.Valid()
    ensures acct.devices == old(acct.devices) && acct.userId == old(acct.userId)
    ensures var k := FailIndex(ps);
      && |responses| == k
      && crash == (if k < |ps| then Some(ps[k].detail) else None)
      && updates == PresentNames(codes, WrittenOf(ps)) && additions == AbsentNames(codes, WrittenOf(ps))
      && notes == PassNotes(mac, codes, WrittenOf(ps), responses, e)
      && acct.log == old(acct.log) + WriteCalls(mac, codes, WrittenOf(ps), responses)
    ensures WyzeLocks.OnlyMacChanged(old(acct.locks), acct.locks, mac)
    ensures Quiet(old(acct.faults)) ==>
      Quiet(acct.faults) && AllOk(responses)
      && acct.Keys(mac) == Applied(old(acct.Keys(mac)), codes, WrittenOf(ps), old(acct.nextId), old(acct.userId))
  {
    updates, additions, notes, crash, responses := [], [], [], None, [];
    ghost var quiet := Quiet(acct.faults);
    ghost var log0, keys0, next0 := acct.log, acct.Keys(mac), acct.nextId;
    ghost var ws: seq<WyzeLocks.Wanted> := [];
    var i := 0;
    while i < |ps|
      invariant i <= FailIndex(ps) && |responses| == i && ws == Wanteds(ps, i)
      invariant crash.None?
      invariant acct.Valid()
      invariant acct.devices == old(acct.devices) && acct.userId == old(acct.userId)
      invariant updates == PresentNames(codes, ws) && additions == AbsentNames(codes, ws)
      invariant notes == PassNotes(mac, codes, ws, responses, e)
      invariant acct.log == log0 + WriteCalls(mac, codes, ws, responses)
      invariant WyzeLocks.OnlyMacChanged(old(acct.locks), acct.locks, mac)
      invariant quiet ==>
        Quiet(acct.faults) && AllOk(responses)
        && acct.Keys(mac) == Applied(keys0, codes, ws, next0, acct.userId)
        && acct.nextId == next0 + Absent(codes, ws)
    {
      if ps[i].Fails? {
        crash := Some(ps[i].detail);
        break;
      }
      var w := ps[i].w;
      ghost var r;
      updates, additions, notes, r := PassOne(acct, mac, codes, w, e, updates, additions, notes, ws, responses, log0, keys0, next0, quiet);
      WantedsSnoc(ps, i);
      ws, responses := ws + [w], responses + [r];
      i := i + 1;
    }
    assert i == FailIndex(ps) && ws == WrittenOf(ps);
  }

  // ---------------------------------------------------------------------------
  // One lock (lines 76-128)
  // ---------------------------------------------------------------------------

  /**
   * Lines 88-128 once the user id is known: the deletion pass over the
   * eligible codes of `codes`, the reservation pass against the same
   * `codes`, and the summary; `crash` is the text of an exception that ends
   * the run.
   */
  method SyncLock(acct: Account, mac: string, propertyName: string, codes: seq<Code>, rs: seq<Reservation>,
                  s: Settings, now: int, e: string)
      returns (out: seq<string>, crash: Option<string>, ghost dResp: seq<Response>, ghost wResp: seq<Response>)
    requires acct.Valid()
    modifies acct
    ensures acct.Valid()
    ensures acct.devices == old(acct.devices) && acct.userId == old(acct.userId)
    ensures WyzeLocks.OnlyMacChanged(old(acct.locks), acct.locks, mac)
    ensures Confined(old(acct.log), acct.log, Some(mac))
    ensures var doomed := WyzeLocks.EligibleCodes(codes, now, s.deleteAll);
      var ps := PlansOf(rs, s);
      var ws := WrittenOf(ps);
      && |dResp| == |doomed| && |wResp| == |ws|
      && acct.log == old(acct.log) + WyzeLocks.DeleteCalls(mac, doomed, dResp) + WriteCalls(mac, codes, ws, wResp)
      && crash == (if FailIndex(ps) < |ps| then Some(ps[FailIndex(ps)].detail) else None)
      && (FailIndex(ps) < |ps| ==> out == PurgeNotes(mac, doomed, dResp, e) + PassNotes(mac, codes, ws, wResp, e))
      && (FailIndex(ps) == |ps| ==>
            out == PurgeNotes(mac, doomed, dResp, e) + PassNotes(mac, codes, ws, wResp, e)
                   + [Summaries.OldestSummary(propertyName, Names(doomed), PresentNames(codes, ws), AbsentNames(codes, ws))])
    ensures Quiet(old(acct.faults)) ==>
      Quiet(acct.faults) && AllOk(dResp) && AllOk(wResp)
      && acct.Keys(mac)
         == Applied(RemoveAll(old(acct.Keys(mac)), WyzeLocks.EligibleCodes(codes, now, s.deleteAll)), codes,
                    WrittenOf(PlansOf(rs, s)), old(acct.nextId), old(acct.userId))
  {
    var doomed := WyzeLocks.EligibleCodes(codes, now, s.deleteAll);
    ghost var log0 := acct.log;
    var deletions, dNotes;
    deletions, dNotes, dResp := Purge(acct, mac, doomed, e);
    DeleteCallsOnMac(mac, doomed, dResp);
    ConfinedAppend(log0, WyzeLocks.DeleteCalls(mac, doomed, dResp), mac);
    ghost var log1 := acct.log;
    var ps := Plans(rs, s.checkInOffset, s.checkOutOffset);
    var updates, additions, wNotes;
    updates, additions, wNotes, crash, wResp := Pass(acct, mac, codes, ps, e);
    WriteCallsOnMac(mac, codes, WrittenOf(ps), wResp);
    ConfinedAppend(log1, WriteCalls(mac, codes, WrittenOf(ps), wResp), mac);
    ConfinedTrans(log0, log1, acct.log, Some(mac));
    out := dNotes + wNotes;
    if crash.None? {
      out := out + [Summaries.OldestSummary(propertyName, deletions, updates, additions)];
    }
  }

  /**
   * The summary reads back as the three lists, with no errors, whenever the
   * listing's names and the dates of the check-ins are single lines (every
   * label and every deleted name begins with "Guest").
   */
  lemma SummaryReadsBack(propertyName: string, codes: seq<Code>, rs: seq<Reservation>, s: Settings, now: int)
    requires Summaries.OneLine(propertyName)
    requires forall k :: 0 <= k < |codes| ==> Summaries.OneLine(codes[k].name)
    requires forall k :: 0 <= k < |rs| ==> Summaries.OneLine(Take(rs[k].checkin, 10))
    ensures var doomed := WyzeLocks.EligibleCodes(codes, now, s.deleteAll);
      var ws := WrittenOf(PlansOf(rs, s));
      Summaries.ReadOldest(Summaries.OldestSummary(propertyName, Names(doomed), PresentNames(codes, ws), AbsentNames(codes, ws)))
        == Some(Summaries.Report(propertyName, Changes(Names(doomed), PresentNames(codes, ws), AbsentNames(codes, ws), [])))
  {
    var doomed := WyzeLocks.EligibleCodes(codes, now, s.deleteAll);
    var ps := PlansOf(rs, s);
    var ws := WrittenOf(ps);
    assert Summaries.GuestItems(Names(doomed)) by {
      forall k | 0 <= k < |doomed| ensures StartsWith(doomed[k].name, "Guest") && Summaries.OneLine(doomed[k].name) {
        assert doomed[k] in doomed;
        var j :| 0 <= j < |codes| && codes[j] == doomed[k];
      }
    }
    WantedAreGuests(rs, s.checkInOffset, s.checkOutOffset);
    assert forall k :: 0 <= k < |ws| ==> Summaries.OneLine(ws[k].name) by {
      forall k | 0 <= k < |ws| ensures Summaries.OneLine(ws[k].name) {
        assert ps[k] == PlanFor(rs[k], s.checkInOffset, s.checkOutOffset);
        LabelOneLine(rs[k].guest.s, rs[k].checkin);
      }
    }
    GuestNames(codes, ws);
    Summaries.OldestRoundTrip(propertyName, Names(doomed), PresentNames(codes, ws), AbsentNames(codes, ws));
  }

  /** A label is one line when the first ten characters of the check-in are. */
  lemma LabelOneLine(guest: string, checkin: string)
    requires FirstWord(guest).Some? && Summaries.OneLine(Take(checkin, 10))
    ensures Summaries.OneLine(Label(FirstWord(guest).value, checkin))
  {
    FirstWordOneLine(guest);
    RemoveOneLine(Take(checkin, 10));
  }

  /** A first name holds no whitespace, so no line break. */
  lemma FirstWordOneLine(g: string)
    requires FirstWord(g).Some?
    ensures Summaries.OneLine(FirstWord(g).value)
  {
    assert InRanges('\n', SpaceRanges[1..]) by { assert SpaceRanges[1] == ('\t', '\r'); }
    assert IsSpace('\n');
  }

  lemma RemoveOneLine(t: string)
    requires Summaries.OneLine(t)
    ensures Summaries.OneLine(Remove(t, '-'))
  {
  }

  lemma {:induction false} GuestNames(codes: seq<Code>, ws: seq<WyzeLocks.Wanted>)
    requires forall k :: 0 <= k < |ws| ==> StartsWith(ws[k].name, "Guest") && Summaries.OneLine(ws[k].name)
    ensures Summaries.GuestItems(PresentNames(codes, ws)) && Summaries.GuestItems(AbsentNames(codes, ws))
  {
    if ws != [] {
      var n := |ws| - 1;
      assert forall k :: 0 <= k < n ==> ws[..n][k] == ws[k];
      GuestNames(codes, ws[..n]);
    }
  }

  /**
   * With `DELETE_ALL_GUEST_CODES` set and a vendor that performs every call,
   * a reservation whose label was on the lock is reported under "Updated
   * Codes" while the lock ends the run without a code of that name: the
   * deletion pass removed it and the update went to the deleted id.
   */
  lemma PhantomUpdate(codes: seq<Code>, ws: seq<WyzeLocks.Wanted>, nextId: int, userId: Option<int>, now: int, k: nat)
    requires forall c :: c in codes ==> c.id < nextId
    requires forall j :: 0 <= j < |ws| ==> StartsWith(ws[j].name, "Guest")
    requires k < |ws| && FindCode(codes, ws[k].name).Some?
    ensures ws[k].name in PresentNames(codes, ws)
    ensures FindCode(Applied(RemoveAll(codes, WyzeLocks.EligibleCodes(codes, now, true)), codes, ws, nextId, userId), ws[k].name).None?
  {
    RecordedOnce(codes, ws, ws[k].name);
    DeleteAllStrandsGuests(codes, ws, nextId, userId, ws[k].name, now);
  }

  // ---------------------------------------------------------------------------
  // One property and the run (lines 32-132)
  // ---------------------------------------------------------------------------

  predicate Skipped(p: Property, s: Settings) {
    NoBookings(p.reservations) || (s.test && LockName(p.name) != s.testPropertyName)
  }

  function SkipMessage(p: Property): string {
    if NoBookings(p.reservations) then NoReservationsFetched(p.name) else SkippingLocks(p.name)
  }

  /** Lines 76-128 for the lock with MAC `mac`; `stop` is the `return` of line 86. */
  method VisitLock(acct: Account, mac: string, p: Property, rs: seq<Reservation>, s: Settings, now: int, e: string)
      returns (out: seq<string>, crash: Option<string>, stop: bool)
    requires acct.Valid()
    modifies acct
    ensures acct.Valid() && acct.devices == old(acct.devices)
    ensures Confined(old(acct.log), acct.log, Some(mac))
    ensures var listing := Listing(Head(old(acct.faults)), KeysOf(old(acct.locks), mac));
      && (listing.None? ==> out == [NoLockCodesFor(LockName(p.name))] && crash.None? && !stop && acct.locks == old(acct.locks))
      && (listing.Some? ==>
            acct.userId == GetUserIdFromExistingCodes(listing.value, old(acct.userId))
            && (acct.userId.None? ==> out == [NoUserId] && crash.None? && stop && acct.locks == old(acct.locks)))
    ensures stop ==> out == [NoUserId] && crash.None?
    ensures Quiet(old(acct.faults)) ==> Quiet(acct.faults)
    ensures FailIndex(PlansOf(rs, s)) == |rs| ==> crash.None?
    ensures var codes := KeysOf(old(acct.locks), mac);
      Quiet(old(acct.faults)) && GetUserIdFromExistingCodes(codes, old(acct.userId)).Some? ==>
        acct.Keys(mac) == Applied(RemoveAll(codes, WyzeLocks.EligibleCodes(codes, now, s.deleteAll)), codes,
                                  WrittenOf(PlansOf(rs, s)), old(acct.nextId), acct.userId)
  {
    ghost var log0 := acct.log;
    if Quiet(acct.faults) { WyzeLocks.QuietTail(acct.faults); }
    var existing := acct.GetKeys(mac);
    ConfinedAppend(log0, [Listed(mac, existing)], mac);
    crash, stop := None, false;
    if existing.None? {
      out := [NoLockCodesFor(LockName(p.name))];
      return;
    }
    WyzeLocks.AdoptUserId(acct, existing.value);
    if acct.userId.None? {
      out, stop := [NoUserId], true;
      return;
    }
    ghost var log1 := acct.log;
    ghost var dResp, wResp;
    out, crash, dResp, wResp := SyncLock(acct, mac, p.name, existing.value, rs, s, now, e);
    ConfinedTrans(log0, log1, acct.log, Some(mac));
  }

  /** Lines 55-128 for one property: the gates of lines 59-80, then `VisitLock`. */
  method Visit(acct: Account, p: Property, s: Settings, now: int, e: string) returns (out: seq<string>, crash: Option<string>, stop: bool)
    requires acct.Valid()
    modifies acct
    ensures acct.Valid() && acct.devices == old(acct.devices)
    ensures Confined(old(acct.log), acct.log, if Skipped(p, s) then None else WyzeLocks.MacOf(old(acct.devices), LockName(p.name)))
    ensures Skipped(p, s) ==>
      out == [SkipMessage(p)] && crash.None? && !stop
      && acct.locks == old(acct.locks) && acct.faults == old(acct.faults) && acct.userId == old(acct.userId)
    ensures !Skipped(p, s) && WyzeLocks.MacOf(old(acct.devices), LockName(p.name)).None? ==>
      out == [NoLockInfoFor(LockName(p.name))] && crash.None? && !stop
      && acct.locks == old(acct.locks) && acct.faults == old(acct.faults) && acct.userId == old(acct.userId)
    ensures stop ==> out == [NoUserId] && crash.None?
    ensures Quiet(old(acct.faults)) ==> Quiet(acct.faults)
    ensures Writable(p, s.checkInOffset, s.checkOutOffset) ==> crash.None?
    ensures !Skipped(p, s) && WyzeLocks.MacOf(old(acct.devices), LockName(p.name)).Some? ==>
      var mac := WyzeLocks.MacOf(old(acct.devices), LockName(p.name)).value;
      var codes := KeysOf(old(acct.locks), mac);
      var ps := PlansOf(p.reservations.value, s);
      Quiet(old(acct.faults)) && GetUserIdFromExistingCodes(codes, old(acct.userId)).Some? ==>
        acct.Keys(mac) == Applied(RemoveAll(codes, WyzeLocks.EligibleCodes(codes, now, s.deleteAll)), codes,
                                  WrittenOf(ps), old(acct.nextId), acct.userId)
  {
    if NoBookings(p.reservations) {
      out, crash, stop := [NoReservationsFetched(p.name)], None, false;
      return;
    }
    var lockName := LockName(p.name);
    if s.test {
      if lockName != s.testPropertyName {
        out, crash, stop := [SkippingLocks(p.name)], None, false;
        return;
      }
    }
    var device := GetDeviceByName(acct.devices, lockName);
    if device.None? {
      out, crash, stop := [NoLockInfoFor(lockName)], None, false;
      return;
    }
    WritableRuns(p.reservations.value, s.checkInOffset, s.checkOutOffset);
    out, crash, stop := VisitLock(acct, device.value.mac, p, p.reservations.value, s, now, e);
  }

  /**
   * What the visit of property `p` posts when a gate or the device lookup
   * turns it away, and that a stop posts only the missing user id.
   */
  predicate PassedOver(v: Visited, p: Property, s: Settings, devices: Option<seq<DeviceInfo>>) {
    && (Skipped(p, s) ==> v == Visited([SkipMessage(p)], None, false))
    && (!Skipped(p, s) && WyzeLocks.MacOf(devices, LockName(p.name)).None? ==>
          v == Visited([NoLockInfoFor(LockName(p.name))], None, false))
    && (v.stop ==> v.out == [NoUserId] && v.crash.None?)
  }

  /** `PassedOver` for every visit, each against its own property. */
  predicate AllPassedOver(vs: seq<Visited>, ps: seq<Property>, s: Settings, devices: Option<seq<DeviceInfo>>) {
    |vs| <= |ps| && forall k :: 0 <= k < |vs| ==> PassedOver(vs[k], ps[k], s, devices)
  }

  lemma AllPassedOverSnoc(vs: seq<Visited>, ps: seq<Property>, s: Settings, devices: Option<seq<DeviceInfo>>, v: Visited)
    requires AllPassedOver(vs, ps, s, devices) && |vs| < |ps| && PassedOver(v, ps[|vs|], s, devices)
    ensures AllPassedOver(vs + [v], ps, s, devices)
  {
  }

  /**
   * `process_reservations()`: the Slack messages of one run, in order, with
   * the same inputs as the legacy run. Vendor failures never end it: only
   * a reservation that raises does, through the outer handler. `visits`
   * are the properties' visits, whose messages make up the run's.
   */
  method ProcessReservations(acct: Account, authenticated: bool, properties: Option<seq<Property>>, wyzeAuthenticated: bool,
                             s: Settings, now: int, e: string)
      returns (msgs: seq<string>, ghost crashed: bool, ghost visits: seq<Visited>)
    requires acct.Valid()
    modifies acct
    ensures acct.Valid() && acct.devices == old(acct.devices)
    ensures !authenticated ==> msgs == [NoHospitableAuth] && acct.log == old(acct.log) && acct.locks == old(acct.locks)
    ensures authenticated && NoListing(properties) ==> msgs == [NoProperties] && acct.log == old(acct.log) && acct.locks == old(acct.locks)
    ensures authenticated && !NoListing(properties) && !wyzeAuthenticated ==>
      msgs == [NoWyzeAuth] && acct.log == old(acct.log) && acct.locks == old(acct.locks)
    ensures authenticated && !NoListing(properties) && wyzeAuthenticated ==>
      && msgs == Messages(visits) && RunShape(visits, |properties.value|)
      && AllPassedOver(visits, properties.value, s, old(acct.devices))
      && (crashed <==> visits != [] && visits[|visits| - 1].crash.Some?)
    ensures crashed ==> |msgs| >= 1 && exists d :: msgs[|msgs| - 1] == InFunction(d)
    ensures s.test ==> Confined(old(acct.log), acct.log, WyzeLocks.MacOf(old(acct.devices), s.testPropertyName))
    ensures properties.Some? && (forall k :: 0 <= k < |properties.value| ==> Writable(properties.value[k], s.checkInOffset, s.checkOutOffset))
      ==> !crashed
  {
    crashed, visits := false, [];
    if !authenticated {
      msgs := [NoHospitableAuth];
      return;
    }
    if NoListing(properties) {
      msgs := [NoProperties];
      return;
    }
    if !wyzeAuthenticated {
      msgs := [NoWyzeAuth];
      return;
    }
    msgs, crashed, visits := VisitAll(acct, properties.value, s, now, e);
  }

  /** `Visit` seen from the run: the visit as a value, with what the run's contract needs of it. */
  method VisitStep(acct: Account, p: Property, s: Settings, now: int, e: string) returns (v: Visited)
    requires acct.Valid()
    modifies acct
    ensures acct.Valid() && acct.devices == old(acct.devices)
    ensures PassedOver(v, p, s, old(acct.devices))
    ensures s.test ==> Confined(old(acct.log), acct.log, WyzeLocks.MacOf(old(acct.devices), s.testPropertyName))
    ensures Writable(p, s.checkInOffset, s.checkOutOffset) ==> v.crash.None?
  {
    ghost var log0 := acct.log;
    var out, crash, stop;
    out, crash, stop := Visit(acct, p, s, now, e);
    v := Visited(out, crash, stop);
    if s.test && Skipped(p, s) {
      ConfinedNone(log0, acct.log, WyzeLocks.MacOf(old(acct.devices), s.testPropertyName));
    }
  }

  /** Lines 55-128: the properties visited in order, until one raises or stops the run. */
  method VisitAll(acct: Account, ps: seq<Property>, s: Settings, now: int, e: string)
      returns (msgs: seq<string>, ghost crashed: bool, ghost visits: seq<Visited>)
    requires acct.Valid()
    modifies acct
    ensures acct.Valid() && acct.devices == old(acct.devices)
    ensures msgs == Messages(visits) && RunShape(visits, |ps|) && AllPassedOver(visits, ps, s, old(acct.devices))
    ensures crashed <==> visits != [] && visits[|visits| - 1].crash.Some?
    ensures crashed ==> |msgs| >= 1 && msgs[|msgs| - 1] == InFunction(visits[|visits| - 1].crash.value)
    ensures s.test ==> Confined(old(acct.log), acct.log, WyzeLocks.MacOf(old(acct.devices), s.testPropertyName))
    ensures (forall k :: 0 <= k < |ps| ==> Writable(ps[k], s.checkInOffset, s.checkOutOffset)) ==> !crashed
  {
    crashed := false;
    ghost var log0 := acct.log;
    msgs, visits := [], [];
    var i := 0;
    while i < |ps|
      invariant 0 <= i <= |ps| && |visits| == i
      invariant acct.Valid() && acct.devices == old(acct.devices)
      invariant s.test ==> Confined(log0, acct.log, WyzeLocks.MacOf(old(acct.devices), s.testPropertyName))
      invariant msgs == Messages(visits) && AllPassedOver(visits, ps, s, old(acct.devices))
      invariant forall k :: 0 <= k < i ==> visits[k].crash.None? && !visits[k].stop
    {
      ghost var log1 := acct.log;
      var v := VisitStep(acct, ps[i], s, now, e);
      MessagesSnoc(visits, v);
      AllPassedOverSnoc(visits, ps, s, old(acct.devices), v);
      visits := visits + [v];
      msgs := msgs + v.out;
      if s.test {
        ConfinedTrans(log0, log1, acct.log, WyzeLocks.MacOf(old(acct.devices), s.testPropertyName));
      }
      if v.crash.Some? {
        msgs := msgs + [InFunction(v.crash.value)];
        crashed := true;
        return;
      }
      if v.stop {
        return;
      }
      i := i + 1;
    }
  }
}
