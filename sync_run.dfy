/**
 * src/sync.py:128-222, `process_reservations(devices, delete_all_guest_codes)`:
 * the authentications, then for each active property its reservations,
 * its lights, thermostats and locks, and its Slack summary. An exception
 * anywhere ends the run with one Slack message.
 *
 * The Slack messages this file sends are the run's output, in the order
 * they are sent; the lock and light engines post further messages of their
 * own, which are not part of it.
 * What the Hospitable and Wyze logins answer, the Hospitable listing, the
 * table's active entries and the engines' answers are inputs.
 */
module SyncRun {
  import opened Common
  import opened Reservations
  import Summaries
  import opened SyncDriver
  import opened SyncLights
  import opened SyncThermostats

  /** A property as `get_properties` lists it. */
  datatype Listed = Listed(id: string, name: string)

  /** The run's environment variables (lines 38-48): NON_PROD, TEST_PROPERTY_NAME and ALWAYS_SEND_SLACK_SUMMARY. */
  datatype Settings = Settings(nonProd: bool, testPropertyName: string, alwaysSendSummary: bool)

  /**
   * What the collaborators answer: `get_reservations(token, property_id)`,
   * the light settings and switches, the thermostat engines, and the lock
   * engines of a property (their calls carry the property's reservations
   * and the run's time).
   */
  datatype Vendors = Vendors(reservations: Option<string> -> Option<seq<Reservation>>,
                             lightSettings: LightSettings,
                             lightSync: LightSync,
                             thermostats: Engines,
                             locks: Property -> LockCall -> Changes)

  /** A Slack message of the run: a plain text, a property's summary, or the text of the exception that ended the run. */
  datatype Message = Notice(text: string) | Summary(propertyName: string, changes: Changes) | Crash(detail: Option<string>)

  const HospitableAuthFailed := "Unable to authenticate with Hospitable API."
  const HospitablePropertiesFailed := "Unable to fetch properties from Hospitable API."
  const WyzeAuthFailed := "Unable to authenticate with Wyze API."

  function SkipText(name: string): string {
    "Skipping property " + name + " in non-production mode."
  }

  function NoReservationsText(name: string): string {
    "No reservations for property " + name + "."
  }

  function CrashText(detail: string): string {
    "Error in process_reservations: " + detail
  }

  /** The text Slack receives for a message; None for an exception whose text is not modelled. */
  function SlackText(m: Message): Option<string> {
    match m
    case Notice(text) => Some(text)
    case Summary(name, changes) => Some(Summaries.NotifySummary(name, changes))
    case Crash(detail) => if detail.Some? then Some(CrashText(detail.value)) else None
  }

  /** A token or listing Python finds truthy. */
  predicate Present(token: Option<string>) {
    token.Some? && token.value != ""
  }

  // ---------------------------------------------------------------------------
  // One property, lines 180-216
  // ---------------------------------------------------------------------------

  /** Line 187: the id of the first listed property with the name, or None. */
  function PropertyId(listing: seq<Listed>, name: string): (r: Option<string>)
    ensures r.Some? <==> exists i :: 0 <= i < |listing| && listing[i].name == name
    ensures r.Some? ==> exists i :: 0 <= i < |listing| && listing[i] == Listed(r.value, name)
  {
    if listing == [] then None
    else if listing[0].name == name then Some(listing[0].id)
    else
      var rest := PropertyId(listing[1..], name);
      assert forall i :: 1 <= i < |listing| ==> listing[i] == listing[1..][i - 1];
      if rest.Some? then
        ghost var k :| 0 <= k < |listing[1..]| && listing[1..][k] == Listed(rest.value, name);
        assert listing[k + 1] == Listed(rest.value, name);
        rest
      else
        assert forall i :: 0 <= i < |listing| && listing[i].name == name ==> i >= 1 && listing[1..][i - 1].name == name;
        rest
  }

  /** The id of the first match wins, whatever is listed after it. */
  lemma {:induction false} FirstIdWins(before: seq<Listed>, id: string, name: string, after: seq<Listed>)
    requires forall i :: 0 <= i < |before| ==> before[i].name != name
    ensures PropertyId(before + [Listed(id, name)] + after, name) == Some(id)
  {
    var listing := before + [Listed(id, name)] + after;
    if before != [] {
      assert listing[0] == before[0];
      assert listing[1..] == before[1..] + [Listed(id, name)] + after;
      FirstIdWins(before[1..], id, name, after);
    }
  }

  /** Line 187 as written: the generator `next(...)` goes over the listing until the first match. */
  method FindPropertyId(listing: seq<Listed>, name: string) returns (id: Option<string>)
    ensures id == PropertyId(listing, name)
  {
    var i := 0;
    while i < |listing|
      invariant 0 <= i <= |listing|
      invariant PropertyId(listing, name) == PropertyId(listing[i..], name)
    {
      if listing[i].name == name {
        return Some(listing[i].id);
      }
      assert listing[i..][1..] == listing[i + 1..];
      i := i + 1;
    }
    return None;
  }

  /** Lines 186-191: the reservations of a Hospitable property, None for any other. */
  function StaysOf(p: Property, listing: seq<Listed>, v: Vendors): Option<seq<Reservation>> {
    if p.rowKey == Hospitable then v.reservations(PropertyId(listing, p.partitionKey)) else None
  }

  /** `not reservations`: None or an empty list. */
  predicate NoStays(rs: Option<seq<Reservation>>) {
    rs.None? || rs.value == []
  }

  /** Lines 194-196: a property other than the test one is skipped in non-production mode. */
  predicate Skipped(p: Property, s: Settings) {
    s.nonProd && p.partitionKey != s.testPropertyName
  }

  /** Lines 199-200: the lights' pass, when they are requested. */
  function LightsPass(p: Property, rs: Option<seq<Reservation>>, devices: seq<Devices>, v: Vendors): LightsRun {
    if Lights in devices then LightsOf(p, rs, v.lightSettings, v.lightSync) else LightsRun([], NoChanges)
  }

  /** Lines 202-204: the thermostats' pass, when they are requested. */
  function ThermostatsPass(p: Property, rs: Option<seq<Reservation>>, devices: seq<Devices>, t: Timing, v: Vendors): ThermostatsRun {
    if Thermostats in devices then ThermostatsOf(p, rs, t, v.thermostats) else ThermostatsRan([], NoChanges)
  }

  /** Lines 210-212: the locks' pass, when they are requested. */
  function LocksPass(p: Property, devices: seq<Devices>, deleteAll: bool, v: Vendors): LocksRun {
    if Locks in devices then LocksOf(p, deleteAll, v.locks(p)) else LocksRun([], NoChanges)
  }

  /** Lines 199-204: the lights' and then the thermostats' pass, and the lists they collect. */
  function Early(p: Property, rs: Option<seq<Reservation>>, devices: seq<Devices>, t: Timing, v: Vendors): (r: Attempt<Changes>)
    ensures r.Ok? <==> LightsPass(p, rs, devices, v).LightsRun? && ThermostatsPass(p, rs, devices, t, v).ThermostatsRan?
    ensures r.Ok? ==> r.value == Extend(LightsPass(p, rs, devices, v).changes, ThermostatsPass(p, rs, devices, t, v).changes)
  {
    var lights := LightsPass(p, rs, devices, v);
    if lights.LightsFailed? then Failure(Some(lights.detail))
    else
      var thermostats := ThermostatsPass(p, rs, devices, t, v);
      if thermostats.ThermostatsFailed? then Failure(thermostats.detail)
      else Ok(Extend(lights.changes, thermostats.changes))
  }

  /** Every pass the property gets runs to its end. */
  predicate Completes(p: Property, rs: Option<seq<Reservation>>, devices: seq<Devices>, deleteAll: bool, t: Timing, v: Vendors) {
    Early(p, rs, devices, t, v).Ok? && LocksPass(p, devices, deleteAll, v).LocksRun?
  }

  /** The property's four lists once every pass has run: the lights', the thermostats' and the locks' entries, in that order. */
  function Collected(p: Property, rs: Option<seq<Reservation>>, devices: seq<Devices>, deleteAll: bool, t: Timing, v: Vendors): Changes
    requires Completes(p, rs, devices, deleteAll, t, v)
  {
    Extend(Early(p, rs, devices, t, v).value, LocksPass(p, devices, deleteAll, v).changes)
  }

  /** The property names of the summaries among the messages, in order. */
  function SummaryNames(ms: seq<Message>): seq<string> {
    if ms == [] then []
    else (if ms[0].Summary? then [ms[0].propertyName] else []) + SummaryNames(ms[1..])
  }

  /** The summaries of two runs of messages are those of each, one after the other. */
  lemma {:induction false} SummaryNamesAppend(a: seq<Message>, b: seq<Message>)
    ensures SummaryNames(a + b) == SummaryNames(a) + SummaryNames(b)
  {
    if a != [] {
      var head := if a[0].Summary? then [a[0].propertyName] else [];
      assert (a + b)[0] == a[0];
      assert (a + b)[1..] == a[1..] + b;
      SummaryNamesAppend(a[1..], b);
      calc {
        SummaryNames(a + b);
        head + SummaryNames(a[1..] + b);
        head + (SummaryNames(a[1..]) + SummaryNames(b));
        (head + SummaryNames(a[1..])) + SummaryNames(b);
      }
    } else {
      assert a + b == b;
    }
  }

  /** Whether the summary is sent for the lists (line 215). */
  predicate Summarised(changes: Changes, s: Settings) {
    s.alwaysSendSummary || !Summaries.Unchanged(changes)
  }

  /**
   * Lines 199-216 once the passes have answered: an exception of the
   * early passes, or of the locks after the no-reservations notice, is the
   * last message; otherwise the notice and the summary, which is sent
   * exactly when the flag asks for it or some list is not empty.
   */
  function Closing(name: string, rs: Option<seq<Reservation>>, s: Settings, early: Attempt<Changes>, locks: LocksRun)
    : (r: (seq<Message>, bool))
    ensures r.1 <==> r.0 != [] && r.0[|r.0| - 1].Crash?
    ensures r.1 <==> early.Failure? || locks.LocksFailed?
    ensures forall i :: 0 <= i < |r.0| - 1 ==> r.0[i].Notice?
    ensures forall i :: 0 <= i < |r.0| && r.0[i].Summary? ==> r.0[i].propertyName == name
    ensures early.Ok? && locks.LocksRun? ==>
      && SummaryNames(r.0) == (if Summarised(Extend(early.value, locks.changes), s) then [name] else [])
      && (forall i :: 0 <= i < |r.0| && r.0[i].Summary? ==> r.0[i].changes == Extend(early.value, locks.changes))
  {
    if early.Failure? then ([Crash(early.detail)], true)
    else
      var notice := if NoStays(rs) && s.alwaysSendSummary then [Notice(NoReservationsText(name))] else [];
      if locks.LocksFailed? then (notice + [Crash(Some(locks.detail))], true)
      else
        var changes := Extend(early.value, locks.changes);
        var summary := if Summarised(changes, s) then [Summary(name, changes)] else [];
        SummaryNamesAppend(notice, summary);
        (notice + summary, false)
  }

  /**
   * One turn of the loop of lines 180-216: the messages sent for the
   * property, and whether an exception ended the run there. A skipped
   * property gets only the skip notice; a property whose passes all run
   * gets the summary of the three passes' lists exactly when it is due;
   * an exception of a pass is the last message.
   */
  function PropertyRun(p: Property, devices: seq<Devices>, deleteAll: bool, listing: seq<Listed>, s: Settings, t: Timing, v: Vendors)
    : (r: (seq<Message>, bool))
    ensures Skipped(p, s) ==> r == ([Notice(SkipText(p.partitionKey))], false)
    ensures r.1 <==> r.0 != [] && r.0[|r.0| - 1].Crash?
    ensures forall i :: 0 <= i < |r.0| - 1 ==> r.0[i].Notice?
    ensures forall i :: 0 <= i < |r.0| && r.0[i].Summary? ==> r.0[i].propertyName == p.partitionKey
  {
    var rs := StaysOf(p, listing, v);
    if Skipped(p, s) then ([Notice(SkipText(p.partitionKey))], false)
    else Closing(p.partitionKey, rs, s, Early(p, rs, devices, t, v), LocksPass(p, devices, deleteAll, v))
  }

  /**
   * A property that is not skipped ends the run exactly when one of its
   * passes raises; when none does, its summary carries the three passes'
   * lists and is sent exactly when it is due.
   */
  lemma PropertySummary(p: Property, devices: seq<Devices>, deleteAll: bool, listing: seq<Listed>, s: Settings, t: Timing, v: Vendors)
    requires !Skipped(p, s)
    ensures var r := PropertyRun(p, devices, deleteAll, listing, s, t, v);
      r.1 <==> !Completes(p, StaysOf(p, listing, v), devices, deleteAll, t, v)
    ensures var r := PropertyRun(p, devices, deleteAll, listing, s, t, v);
      var rs := StaysOf(p, listing, v);
      Completes(p, rs, devices, deleteAll, t, v) ==>
        && SummaryNames(r.0) == (if Summarised(Collected(p, rs, devices, deleteAll, t, v), s) then [p.partitionKey] else [])
        && (forall i :: 0 <= i < |r.0| && r.0[i].Summary? ==> r.0[i].changes == Collected(p, rs, devices, deleteAll, t, v))
  {
    var rs := StaysOf(p, listing, v);
    var early := Early(p, rs, devices, t, v);
    var locks := LocksPass(p, devices, deleteAll, v);
    assert PropertyRun(p, devices, deleteAll, listing, s, t, v) == Closing(p.partitionKey, rs, s, early, locks);
  }

  // ---------------------------------------------------------------------------
  // The run
  // ---------------------------------------------------------------------------

  /** The run after one more property: nothing more once an exception has ended it. */
  function Continue(before: (seq<Message>, bool), next: (seq<Message>, bool)): (seq<Message>, bool) {
    if before.1 then before else (before.0 + next.0, next.1)
  }

  /** Messages whose only exception, if any, is the last one. */
  predicate CrashLast(ms: seq<Message>) {
    forall i :: 0 <= i < |ms| - 1 ==> !ms[i].Crash?
  }

  /** The messages end with an exception exactly when the run says so, and only the last one can be one. */
  predicate Shaped(r: (seq<Message>, bool)) {
    (r.1 <==> r.0 != [] && r.0[|r.0| - 1].Crash?) && CrashLast(r.0)
  }

  /** Going one property further keeps the run's messages shaped. */
  lemma ContinueKeepsShape(before: (seq<Message>, bool), next: (seq<Message>, bool))
    requires Shaped(before) && Shaped(next)
    ensures Shaped(Continue(before, next))
  {
    if !before.1 {
      var all := before.0 + next.0;
      forall i | 0 <= i < |all| - 1 ensures !all[i].Crash? {
        if i < |before.0| - 1 {
          assert all[i] == before.0[i];
        } else if i == |before.0| - 1 {
          assert all[i] == before.0[|before.0| - 1];
        } else {
          assert all[i] == next.0[i - |before.0|];
        }
      }
      if next.0 != [] {
        assert all[|all| - 1] == next.0[|next.0| - 1];
      } else {
        assert all == before.0;
      }
    }
  }

  /**
   * The loop over the first properties: the messages sent, and whether an
   * exception ended the run. An exception ends the run: it is the last
   * message, and the run says so exactly when it is.
   */
  function RunOver(ps: seq<Property>, devices: seq<Devices>, deleteAll: bool, listing: seq<Listed>, s: Settings, t: Timing, v: Vendors)
    : (r: (seq<Message>, bool))
    ensures r.1 <==> r.0 != [] && r.0[|r.0| - 1].Crash?
    ensures CrashLast(r.0)
  {
    if ps == [] then ([], false)
    else
      var before := RunOver(ps[..|ps| - 1], devices, deleteAll, listing, s, t, v);
      var next := PropertyRun(ps[|ps| - 1], devices, deleteAll, listing, s, t, v);
      assert CrashLast(next.0);
      ContinueKeepsShape(before, next);
      Continue(before, next)
  }

  /** The loop of lines 180-216 goes one property further. */
  lemma RunStep(ps: seq<Property>, i: nat, devices: seq<Devices>, deleteAll: bool, listing: seq<Listed>, s: Settings, t: Timing, v: Vendors)
    requires i < |ps|
    ensures RunOver(ps[..i + 1], devices, deleteAll, listing, s, t, v)
      == Continue(RunOver(ps[..i], devices, deleteAll, listing, s, t, v), PropertyRun(ps[i], devices, deleteAll, listing, s, t, v))
  {
    assert ps[..i + 1][..i] == ps[..i];
  }

  /**
   * `process_reservations`: a failed Hospitable login, an empty listing
   * or a failed Wyze login sends one message and ends the run; otherwise
   * the loop over the active properties.
   */
  function Run(token: Option<string>, listing: Option<seq<Listed>>, wyzeToken: Option<string>, entries: seq<Property>,
               devices: seq<Devices>, deleteAll: bool, s: Settings, t: Timing, v: Vendors): (ms: seq<Message>)
    ensures !Present(token) ==> ms == [Notice(HospitableAuthFailed)]
    ensures Present(token) && (listing.None? || listing.value == []) ==> ms == [Notice(HospitablePropertiesFailed)]
    ensures Present(token) && listing.Some? && listing.value != [] && !Present(wyzeToken) ==> ms == [Notice(WyzeAuthFailed)]
  {
    if !Present(token) then [Notice(HospitableAuthFailed)]
    else if listing.None? || listing.value == [] then [Notice(HospitablePropertiesFailed)]
    else if !Present(wyzeToken) then [Notice(WyzeAuthFailed)]
    else RunOver(Selected(entries, devices), devices, deleteAll, listing.value, s, t, v).0
  }

  /** Once a property has ended the run, the properties after it send nothing. */
  lemma {:induction false} CrashSticks(ps: seq<Property>, n: nat, devices: seq<Devices>, deleteAll: bool, listing: seq<Listed>,
                                       s: Settings, t: Timing, v: Vendors)
    requires n <= |ps|
    requires RunOver(ps[..n], devices, deleteAll, listing, s, t, v).1
    ensures RunOver(ps, devices, deleteAll, listing, s, t, v) == RunOver(ps[..n], devices, deleteAll, listing, s, t, v)
    decreases |ps|
  {
    if n < |ps| {
      var front := ps[..|ps| - 1];
      assert front[..n] == ps[..n];
      CrashSticks(front, n, devices, deleteAll, listing, s, t, v);
    } else {
      assert ps[..n] == ps;
    }
  }

  function Names(ps: seq<Property>): seq<string> {
    if ps == [] then [] else Names(ps[..|ps| - 1]) + [ps[|ps| - 1].partitionKey]
  }

  /**
   * In production with ALWAYS_SEND_SLACK_SUMMARY, a run that no exception
   * ends sends one summary per property, in the order of the properties.
   */
  lemma {:induction false} EveryPropertySummarised(ps: seq<Property>, devices: seq<Devices>, deleteAll: bool, listing: seq<Listed>,
                                                   s: Settings, t: Timing, v: Vendors)
    requires s.alwaysSendSummary && !s.nonProd
    requires !RunOver(ps, devices, deleteAll, listing, s, t, v).1
    ensures SummaryNames(RunOver(ps, devices, deleteAll, listing, s, t, v).0) == Names(ps)
  {
    if ps != [] {
      var front := ps[..|ps| - 1];
      var p := ps[|ps| - 1];
      var before := RunOver(front, devices, deleteAll, listing, s, t, v);
      assert !before.1;
      EveryPropertySummarised(front, devices, deleteAll, listing, s, t, v);
      var r := PropertyRun(p, devices, deleteAll, listing, s, t, v);
      PropertySummary(p, devices, deleteAll, listing, s, t, v);
      SummaryNamesAppend(before.0, r.0);
    }
  }

  /** In non-production mode, only the test property is ever summarised. */
  lemma {:induction false} NonProdSummarisesOnlyTest(ps: seq<Property>, devices: seq<Devices>, deleteAll: bool, listing: seq<Listed>,
                                                     s: Settings, t: Timing, v: Vendors)
    requires s.nonProd
    ensures var ms := RunOver(ps, devices, deleteAll, listing, s, t, v).0;
      forall i :: 0 <= i < |ms| && ms[i].Summary? ==> ms[i].propertyName == s.testPropertyName
  {
    if ps != [] {
      var front := ps[..|ps| - 1];
      NonProdSummarisesOnlyTest(front, devices, deleteAll, listing, s, t, v);
      var before := RunOver(front, devices, deleteAll, listing, s, t, v);
      assert var ms := RunOver(front, devices, deleteAll, listing, s, t, v).0;
        forall i :: 0 <= i < |ms| && ms[i].Summary? ==> ms[i].propertyName == s.testPropertyName;
      assert forall k :: 0 <= k < |before.0| && before.0[k].Summary? ==> before.0[k].propertyName == s.testPropertyName;
      if !before.1 {
        var r := PropertyRun(ps[|ps| - 1], devices, deleteAll, listing, s, t, v);
        var ms := before.0 + r.0;
        forall i | 0 <= i < |ms| && ms[i].Summary? ensures ms[i].propertyName == s.testPropertyName {
          if i < |before.0| {
            assert ms[i] == before.0[i];
            assert before.0[i].propertyName == s.testPropertyName;
          } else {
            var j := i - |before.0|;
            assert ms[i] == r.0[j];
            if !Skipped(ps[|ps| - 1], s) {
              assert r.0[j].propertyName == ps[|ps| - 1].partitionKey == s.testPropertyName;
            }
          }
        }
      }
    }
  }

  // ---------------------------------------------------------------------------
  // The run as written
  // ---------------------------------------------------------------------------

  /** Lines 199-204 as written: the lights' and the thermostats' pass, extending the property's lists. */
  method ProcessDevices(p: Property, rs: Option<seq<Reservation>>, devices: seq<Devices>, t: Timing, v: Vendors)
      returns (r: Attempt<Changes>)
    ensures r == Early(p, rs, devices, t, v)
  {
    var acc := NoChanges;
    if Lights in devices {
      var calls, raised;
      acc, calls, raised := ProcessPropertyLights(p, rs, v.lightSettings, v.lightSync, acc);
      if raised.Some? {
        return Failure(raised);
      }
      ExtendNothing(LightsPass(p, rs, devices, v).changes);
    }
    assert acc == LightsPass(p, rs, devices, v).changes;
    if Thermostats in devices {
      var calls, failed, detail;
      acc, calls, failed, detail := ProcessPropertyThermostats(p, rs, t, v.thermostats, acc);
      if failed {
        return Failure(detail);
      }
    } else {
      ExtendNothing(acc);
    }
    r := Ok(acc);
  }

  /** Lines 199-216 as written once the lights and thermostats have answered: the notice, the locks and the summary. */
  method CloseProperty(p: Property, rs: Option<seq<Reservation>>, devices: seq<Devices>, deleteAll: bool, s: Settings, v: Vendors,
                       early: Attempt<Changes>)
      returns (messages: seq<Message>, crashed: bool)
    ensures (messages, crashed) == Closing(p.partitionKey, rs, s, early, LocksPass(p, devices, deleteAll, v))
  {
    var name := p.partitionKey;
    if early.Failure? {
      return [Crash(early.detail)], true;
    }
    messages := [];
    if NoStays(rs) && s.alwaysSendSummary {
      messages := [Notice(NoReservationsText(name))];
    }
    var acc := early.value;
    if Locks in devices {
      var calls, raised;
      acc, calls, raised := ProcessPropertyLocks(p, deleteAll, v.locks(p), acc);
      if raised.Some? {
        return messages + [Crash(raised)], true;
      }
    } else {
      ExtendNothing(acc);
    }
    if Summarised(acc, s) {
      messages := messages + [Summary(name, acc)];
    } else {
      messages := messages + [];
    }
    crashed := false;
  }

  /** One turn of the loop of lines 180-216, calling the passes of the property's devices one after another. */
  method ProcessProperty(p: Property, devices: seq<Devices>, deleteAll: bool, listing: seq<Listed>, s: Settings, t: Timing, v: Vendors)
      returns (messages: seq<Message>, crashed: bool)
    ensures (messages, crashed) == PropertyRun(p, devices, deleteAll, listing, s, t, v)
  {
    var name := p.partitionKey;
    var rs: Option<seq<Reservation>> := None;
    if p.rowKey == Hospitable {
      var id := FindPropertyId(listing, name);
      rs := v.reservations(id);
    }
    assert rs == StaysOf(p, listing, v);
    if s.nonProd && name != s.testPropertyName {
      return [Notice(SkipText(name))], false;
    }
    var early := ProcessDevices(p, rs, devices, t, v);
    messages, crashed := CloseProperty(p, rs, devices, deleteAll, s, v, early);
  }

  /** The loop of lines 180-216 as written: one property after another, until an exception ends the run. */
  method ProcessProperties(properties: seq<Property>, devices: seq<Devices>, deleteAll: bool, listing: seq<Listed>,
                           s: Settings, t: Timing, v: Vendors)
      returns (messages: seq<Message>)
    ensures messages == RunOver(properties, devices, deleteAll, listing, s, t, v).0
  {
    messages := [];
    var i := 0;
    while i < |properties|
      invariant 0 <= i <= |properties|
      invariant RunOver(properties[..i], devices, deleteAll, listing, s, t, v) == (messages, false)
    {
      var sent, crashed := ProcessProperty(properties[i], devices, deleteAll, listing, s, t, v);
      RunStep(properties, i, devices, deleteAll, listing, s, t, v);
      messages := messages + sent;
      if crashed {
        CrashSticks(properties, i + 1, devices, deleteAll, listing, s, t, v);
        return messages;
      }
      i := i + 1;
    }
    assert properties[..|properties|] == properties;
  }

  /** `process_reservations` as written: the early exits, `active_property`, and the loop over the properties. */
  method ProcessReservations(token: Option<string>, listing: Option<seq<Listed>>, wyzeToken: Option<string>, entries: seq<Property>,
                             devices: seq<Devices>, deleteAll: bool, s: Settings, t: Timing, v: Vendors)
      returns (messages: seq<Message>)
    ensures messages == Run(token, listing, wyzeToken, entries, devices, deleteAll, s, t, v)
  {
    if !Present(token) {
      return [Notice(HospitableAuthFailed)];
    }
    if listing.None? || listing.value == [] {
      return [Notice(HospitablePropertiesFailed)];
    }
    if !Present(wyzeToken) {
      return [Notice(WyzeAuthFailed)];
    }
    var properties := ActiveProperty(entries, devices);
    messages := ProcessProperties(properties, devices, deleteAll, listing.value, s, t, v);
  }
}
