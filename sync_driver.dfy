/**
 * src/sync.py: the run that goes over the active properties of the table
 * and, for each, drives the lights, the thermostats and the locks, then
 * sends the property's summary.
 *
 * The engines the run calls are modelled in their own modules; here what
 * each answers is a parameter (`Vendors`). A property's JSON columns
 * (`Locks`, `Lights`, `Thermostats`, `BrandSettings`, `Location`) are
 * given as the documents `json.loads` decodes them to, next to the values
 * the table stores for them.
 */
module SyncDriver {
  import opened Common
  import opened Json
  import Clock
  import Utility
  import opened Reservations
  import Light

  const Hospitable := "Hospitable"
  const SmartThingsBrand := "smartthings"
  const WyzeBrand := "wyze"
  /** The `When` values of src/when.py. */
  const ReservationsOnly := "reservations_only"
  const NonReservations := "non_reservations"

  /** The device collections of src/devices.py. */
  datatype Devices = Locks | Lights | Thermostats

  /** `device.value`: the column a property configures the collection in. */
  function Column(d: Devices): string {
    match d
    case Locks => "Locks"
    case Lights => "Lights"
    case Thermostats => "Thermostats"
  }

  /**
   * A row of the properties table: its two keys (the property's name and
   * its reservation source), its columns as the table stores them
   * (`stored`: the JSON columns as their text), and the documents
   * `json.loads` makes of those columns (`fields`).
   */
  datatype Property = Property(partitionKey: string, rowKey: string, stored: map<string, Json>, fields: map<string, Json>)

  /** `v[key]`: the value, the KeyError of a missing key, or the TypeError of subscripting a value that is not a dict. */
  function Subscript(v: Json, key: string): (r: Result<Json>)
    ensures r.Done? <==> v.JObj? && key in v.fields
    ensures r.Done? ==> r.value == v.fields[key]
  {
    if !v.JObj? then Threw(SubscriptError(v))
    else if key !in v.fields then Threw(KeyErrorText(key))
    else Done(v.fields[key])
  }

  /** `property[column]`: the KeyError of a missing column. */
  function ColumnOf(p: Property, column: string): (r: Result<Json>)
    ensures r.Done? <==> column in p.fields
    ensures r.Done? ==> r.value == p.fields[column]
  {
    if column in p.fields then Done(p.fields[column]) else Threw(KeyErrorText(column))
  }

  /**
   * The elements `for x in doc` goes over when every element is then
   * subscripted with a string key: a list's items; nothing for an empty
   * string or dict; the TypeError of subscripting the first character or
   * key of any other string or dict; the TypeError of iterating anything
   * else.
   */
  function Elements(doc: Json): (r: Result<seq<Json>>)
    ensures doc.JList? ==> r == Done(doc.items)
    ensures r.Done? ==> doc.JList? || r.value == []
  {
    match doc
    case JList(items) => Done(items)
    case JObj(m) => if m == map[] then Done([]) else Threw(SubscriptError(JStr("")))
    case JStr(s) => if s == "" then Done([]) else Threw(SubscriptError(JStr(s)))
    case _ => Threw("'" + TypeName(doc) + "' object is not iterable")
  }

  // ---------------------------------------------------------------------------
  // active_property
  // ---------------------------------------------------------------------------

  /**
   * Lines 93-95: some requested collection has its column, and the stored
   * value is truthy. The test is on the stored text, before decoding: a
   * column holding "[]" counts.
   */
  predicate Requested(entry: Property, devices: seq<Devices>) {
    exists d :: d in devices && Column(d) in entry.stored && Truthy(entry.stored[Column(d)])
  }

  /** A column holding the text of an empty list is requested all the same. */
  lemma EmptyListTextCounts(entry: Property, d: Devices)
    requires Column(d) in entry.stored && entry.stored[Column(d)] == JStr("[]")
    ensures Requested(entry, [d])
  {
    assert d in [d];
  }

  /** The active entries that configure a requested collection, in table order. */
  function Selected(entries: seq<Property>, devices: seq<Devices>): (r: seq<Property>)
    ensures |r| <= |entries|
    ensures forall p :: p in r <==> p in entries && Requested(p, devices)
  {
    if entries == [] then []
    else
      var last := entries[|entries| - 1];
      var front := entries[..|entries| - 1];
      assert entries == front + [last];
      Selected(front, devices) + (if Requested(last, devices) then [last] else [])
  }

  /** An entry is selected at most once: distinct entries stay distinct. */
  lemma {:induction false} SelectedOnce(entries: seq<Property>, devices: seq<Devices>)
    requires NoDuplicates(entries)
    ensures NoDuplicates(Selected(entries, devices))
  {
    if entries != [] {
      var last := entries[|entries| - 1];
      var front := entries[..|entries| - 1];
      assert NoDuplicates(front) by {
        forall i, j | 0 <= i < j < |front| ensures front[i] != front[j] {
          assert front[i] == entries[i] && front[j] == entries[j];
        }
      }
      SelectedOnce(front, devices);
      assert last !in front by {
        forall i | 0 <= i < |front| ensures front[i] != last {
          assert front[i] == entries[i];
        }
      }
      var s := Selected(front, devices);
      if Requested(last, devices) {
        var t := s + [last];
        forall i, j | 0 <= i < j < |t| ensures t[i] != t[j] {
          if j == |s| {
            assert t[i] == s[i] && s[i] in s;
          } else {
            assert t[i] == s[i] && t[j] == s[j];
          }
        }
      } else {
        assert s + [] == s;
      }
    }
  }

  /** Lines 93-103: the inner loop, which stops at the first requested collection the entry configures. */
  method RequestedBy(entry: Property, devices: seq<Devices>) returns (found: bool)
    ensures found == Requested(entry, devices)
  {
    found := false;
    var j := 0;
    while j < |devices|
      invariant 0 <= j <= |devices|
      invariant forall k :: 0 <= k < j ==> !(Column(devices[k]) in entry.stored && Truthy(entry.stored[Column(devices[k])]))
    {
      var device := devices[j];
      if Column(device) in entry.stored && Truthy(entry.stored[Column(device)]) {
        found := true;
        break;
      }
      j := j + 1;
    }
  }

  /**
   * `active_property(devices)` over the entries `Active eq true` yields:
   * each entry that configures a requested collection, once, in order.
   */
  method ActiveProperty(entries: seq<Property>, devices: seq<Devices>) returns (properties: seq<Property>)
    ensures properties == Selected(entries, devices)
  {
    properties := [];
    for i := 0 to |entries|
      invariant properties == Selected(entries[..i], devices)
    {
      var entry := entries[i];
      assert entries[..i + 1] == entries[..i] + [entry];
      var found := RequestedBy(entry, devices);
      if found {
        properties := properties + [entry];
      } else {
        assert properties + [] == properties;
      }
    }
    assert entries[..|entries|] == entries;
  }

  // ---------------------------------------------------------------------------
  // get_settings
  // ---------------------------------------------------------------------------

  /** A BrandSettings entry that names a brand. */
  predicate Branded(item: Json) {
    item.JObj? && "brand" in item.fields
  }

  /** A BrandSettings entry for `brand`. */
  predicate Names(item: Json, brand: string) {
    Branded(item) && item.fields["brand"] == JStr(brand)
  }

  /** A BrandSettings entry for another brand. */
  predicate NamesOther(item: Json, brand: string) {
    Branded(item) && item.fields["brand"] != JStr(brand)
  }

  /**
   * The loop of `get_settings` over the decoded entries: the first entry
   * whose brand is `brand`, None when none is, and the exception of
   * subscripting an entry that is not a dict or has no brand before that.
   */
  function SettingsIn(items: seq<Json>, brand: string): (r: Result<Option<map<string, Json>>>)
    ensures (forall i :: 0 <= i < |items| ==> Branded(items[i])) ==> r.Done?
    ensures r.Done? && r.value.None? ==> forall i :: 0 <= i < |items| ==> NamesOther(items[i], brand)
    ensures r.Done? && r.value.Some? ==>
      exists i :: (0 <= i < |items| && items[i] == JObj(r.value.value) && Names(items[i], brand)
                   && forall j :: 0 <= j < i ==> NamesOther(items[j], brand))
  {
    if items == [] then Done(None)
    else
      match Subscript(items[0], "brand")
      case Threw(e) => Threw(e)
      case Done(b) =>
        if b == JStr(brand) then Done(Some(items[0].fields))
        else
          var rest := SettingsIn(items[1..], brand);
          assert forall i :: 1 <= i < |items| ==> items[i] == items[1..][i - 1];
          if rest.Done? && rest.value.Some? then
            ghost var k :| 0 <= k < |items[1..]| && items[1..][k] == JObj(rest.value.value) && Names(items[1..][k], brand)
              && forall j :: 0 <= j < k ==> NamesOther(items[1..][j], brand);
            assert items[k + 1] == JObj(rest.value.value);
            rest
          else rest
  }

  /** The first of the entries that names `brand` is found, whatever comes after it. */
  lemma {:induction false} FindsSettings(before: seq<Json>, m: map<string, Json>, after: seq<Json>, brand: string)
    requires forall i :: 0 <= i < |before| ==> NamesOther(before[i], brand)
    requires "brand" in m && m["brand"] == JStr(brand)
    ensures SettingsIn(before + [JObj(m)] + after, brand) == Done(Some(m))
  {
    var items := before + [JObj(m)] + after;
    if before != [] {
      assert items[1..] == before[1..] + [JObj(m)] + after;
      assert items[0] == before[0];
      FindsSettings(before[1..], m, after, brand);
    }
  }

  /**
   * `get_settings(property, brand)`: the KeyError of a property without
   * BrandSettings, else the loop over its decoded entries.
   */
  function GetSettings(p: Property, brand: string): (r: Result<Option<map<string, Json>>>)
    ensures "BrandSettings" !in p.fields ==> r == Threw(KeyErrorText("BrandSettings"))
    ensures "BrandSettings" in p.fields && p.fields["BrandSettings"].JList? ==> r == SettingsIn(p.fields["BrandSettings"].items, brand)
  {
    match ColumnOf(p, "BrandSettings")
    case Threw(e) => Threw(e)
    case Done(doc) =>
      match Elements(doc)
      case Threw(e) => Threw(e)
      case Done(items) => SettingsIn(items, brand)
  }

  /** `get_settings(property, SMARTTHINGS)["location"]`. */
  function SmartThingsLocation(p: Property): (r: Result<Json>)
    ensures GetSettings(p, SmartThingsBrand) == Done(None) ==> r == Threw(SubscriptError(JNull))
    ensures r.Done? ==> exists m :: GetSettings(p, SmartThingsBrand) == Done(Some(m)) && "location" in m && r.value == m["location"]
  {
    match GetSettings(p, SmartThingsBrand)
    case Threw(e) => Threw(e)
    case Done(None) => Threw(SubscriptError(JNull))
    case Done(Some(m)) => if "location" in m then Done(m["location"]) else Threw(KeyErrorText("location"))
  }

  // ---------------------------------------------------------------------------
  // process_property_locks
  // ---------------------------------------------------------------------------

  /** What one lock's engine is called with, beyond the property, its reservations and the time. */
  datatype LockCall = WyzeLock(name: Json, deleteAll: bool) | SmartThingsLock(name: Json, location: Json)

  /** `list.extend` on each of the four lists. */
  function Extend(a: Changes, b: Changes): Changes {
    Changes(a.deletions + b.deletions, a.updates + b.updates, a.additions + b.additions, a.errors + b.errors)
  }

  const NoChanges := Changes([], [], [], [])

  /** The engine call a device's turn made, if any. */
  function Made<T>(c: Option<T>): seq<T> {
    if c.Some? then [c.value] else []
  }

  /** The lists of one light or thermostat: updates and errors only. */
  function Tally(updates: seq<string>, errors: seq<string>): Changes {
    Changes([], updates, [], errors)
  }

  /** The UnboundLocalError of extending with results no lock has assigned yet. */
  const UnboundDeletions := "cannot access local variable 'deletions' where it is not associated with a value"

  /**
   * Lines 255-270 for one lock: the KeyError or TypeError of reading its
   * brand and name, the Wyze call with the deletion flag, the SmartThings
   * call with the location of the SmartThings settings (or what reading it
   * raises), and None for any other brand.
   */
  function LockStep(p: Property, lock: Json, deleteAll: bool): (r: Result<Option<LockCall>>)
    ensures r.Done? ==> lock.JObj? && "brand" in lock.fields && "name" in lock.fields
    ensures r.Done? && r.value.Some? && r.value.value.WyzeLock? <==>
      r.Done? && r.value.Some? && lock.fields["brand"] == JStr(WyzeBrand)
    ensures r.Done? && r.value.Some? && r.value.value.WyzeLock? ==> r.value.value == WyzeLock(lock.fields["name"], deleteAll)
    ensures r.Done? && r.value.Some? && r.value.value.SmartThingsLock? ==>
      SmartThingsLocation(p) == Done(r.value.value.location) && r.value.value.name == lock.fields["name"]
    ensures r.Done? && r.value.None? <==>
      r.Done? && lock.fields["brand"] != JStr(WyzeBrand) && lock.fields["brand"] != JStr(SmartThingsBrand)
  {
    match Subscript(lock, "brand")
    case Threw(e) => Threw(e)
    case Done(brand) =>
      match Subscript(lock, "name")
      case Threw(e) => Threw(e)
      case Done(name) =>
        if brand == JStr(WyzeBrand) then Done(Some(WyzeLock(name, deleteAll)))
        else if brand == JStr(SmartThingsBrand) then
          match SmartThingsLocation(p)
          case Threw(e) => Threw(e)
          case Done(location) => Done(Some(SmartThingsLock(name, location)))
        else Done(None)
  }

  /** The calls made and the lists collected so far, or the exception that ended the loop. */
  datatype LocksRun = LocksRun(calls: seq<LockCall>, changes: Changes) | LocksFailed(detail: string)

  /**
   * The loop of lines 254-276 over the first locks, with the results the
   * last call assigned: a lock of an unknown brand extends the lists with
   * those results again, and raises when there are none.
   */
  function LocksUpTo(p: Property, locks: seq<Json>, deleteAll: bool, engine: LockCall -> Changes): (LocksRun, Option<Changes>)
  {
    if locks == [] then (LocksRun([], NoChanges), None)
    else
      var before := LocksUpTo(p, locks[..|locks| - 1], deleteAll, engine);
      if before.0.LocksFailed? then before
      else LockAdvance(before, LockStep(p, locks[|locks| - 1], deleteAll), engine)
  }

  /**
   * The loop's state after a lock's turn: an exception ends it, a known
   * brand's call extends the lists and is the new last result, and an
   * unknown brand extends them with the last result again.
   */
  function LockAdvance(before: (LocksRun, Option<Changes>), step: Result<Option<LockCall>>, engine: LockCall -> Changes)
    : (r: (LocksRun, Option<Changes>))
    requires before.0.LocksRun?
    ensures r.0.LocksRun? ==> |before.0.calls| <= |r.0.calls| <= |before.0.calls| + 1
  {
    match LockResults(step, before.1, engine)
    case Threw(e) => (LocksFailed(e), before.1)
    case Done((call, c)) => (LocksRun(before.0.calls + Made(call), Extend(before.0.changes, c)), Some(c))
  }

  /** The results a lock's turn extends the lists with: its own call's, or the last call's again for an unknown brand. */
  function LockResults(step: Result<Option<LockCall>>, last: Option<Changes>, engine: LockCall -> Changes)
    : (r: Result<(Option<LockCall>, Changes)>)
  {
    match step
    case Threw(e) => Threw(e)
    case Done(Some(call)) => Done((Some(call), engine(call)))
    case Done(None) => if last.None? then Threw(UnboundDeletions) else Done((None, last.value))
  }

  /**
   * Over the first locks: at most one call per lock, every Wyze call
   * carries the run's delete-all flag, and the results kept for an
   * unknown brand are those of the last call made, absent before any.
   */
  lemma {:induction false} LocksUpToFacts(p: Property, locks: seq<Json>, deleteAll: bool, engine: LockCall -> Changes)
    ensures var r := LocksUpTo(p, locks, deleteAll, engine);
      r.0.LocksRun? ==> |r.0.calls| <= |locks|
    ensures var r := LocksUpTo(p, locks, deleteAll, engine);
      r.0.LocksRun? ==> forall c :: c in r.0.calls && c.WyzeLock? ==> c.deleteAll == deleteAll
    ensures var r := LocksUpTo(p, locks, deleteAll, engine);
      r.0.LocksRun? ==> (r.1.None? <==> r.0.calls == [])
    ensures var r := LocksUpTo(p, locks, deleteAll, engine);
      r.0.LocksRun? && r.0.calls != [] ==> r.1 == Some(engine(r.0.calls[|r.0.calls| - 1]))
  {
    if locks != [] {
      var front := locks[..|locks| - 1];
      LocksUpToFacts(p, front, deleteAll, engine);
      var before := LocksUpTo(p, front, deleteAll, engine);
      if before.0.LocksRun? {
        var step := LockStep(p, locks[|locks| - 1], deleteAll);
        assert LocksUpTo(p, locks, deleteAll, engine) == LockAdvance(before, step, engine);
        if step.Done? && step.value.Some? {
          var calls := before.0.calls + [step.value.value];
          forall c | c in calls && c.WyzeLock? ensures c.deleteAll == deleteAll {
            if c !in before.0.calls {
              assert c == step.value.value;
            }
          }
        }
      }
    }
  }

  /** What `process_property_locks` does for a property: the KeyError of a missing Locks column, else the loop. */
  function LocksOf(p: Property, deleteAll: bool, engine: LockCall -> Changes): LocksRun {
    match ColumnOf(p, "Locks")
    case Threw(e) => LocksFailed(e)
    case Done(doc) =>
      match Elements(doc)
      case Threw(e) => LocksFailed(e)
      case Done(locks) => LocksUpTo(p, locks, deleteAll, engine).0
  }

  /** The lists of the calls' results, one call after another. */
  function Combined(calls: seq<LockCall>, engine: LockCall -> Changes): Changes {
    if calls == [] then NoChanges
    else Extend(Combined(calls[..|calls| - 1], engine), engine(calls[|calls| - 1]))
  }

  /** A lock whose brand is known and whose fields and settings can be read. */
  predicate Known(p: Property, lock: Json, deleteAll: bool) {
    LockStep(p, lock, deleteAll).Done? && LockStep(p, lock, deleteAll).value.Some?
  }

  /** The call a known lock makes. */
  function KnownCall(p: Property, lock: Json, deleteAll: bool): LockCall
    requires Known(p, lock, deleteAll)
  {
    LockStep(p, lock, deleteAll).value.value
  }

  /**
   * When every lock has a known brand and readable settings, each lock
   * gets one call, in lock order, and the lists are its results one after
   * another.
   */
  lemma {:induction false} LocksInOrder(p: Property, locks: seq<Json>, deleteAll: bool, engine: LockCall -> Changes)
    requires forall i :: 0 <= i < |locks| ==> Known(p, locks[i], deleteAll)
    ensures var run := LocksUpTo(p, locks, deleteAll, engine).0;
      && run.LocksRun?
      && |run.calls| == |locks|
      && (forall i :: 0 <= i < |locks| ==> run.calls[i] == KnownCall(p, locks[i], deleteAll))
      && run.changes == Combined(run.calls, engine)
  {
    if locks != [] {
      var front := locks[..|locks| - 1];
      forall i | 0 <= i < |front| ensures Known(p, front[i], deleteAll) {
        assert front[i] == locks[i];
      }
      LocksInOrder(p, front, deleteAll, engine);
      var state := LocksUpTo(p, front, deleteAll, engine);
      var run := state.0;
      var call := KnownCall(p, locks[|locks| - 1], deleteAll);
      var calls := run.calls + [call];
      assert LocksUpTo(p, locks, deleteAll, engine).0 == LocksRun(calls, Extend(run.changes, engine(call))) by {
        var step := LockStep(p, locks[|locks| - 1], deleteAll);
        assert step == Done(Some(call));
        assert LockResults(step, state.1, engine) == Done((Some(call), engine(call)));
        assert LocksUpTo(p, locks, deleteAll, engine) == LockAdvance(state, step, engine);
      }
      assert Combined(calls, engine) == Extend(Combined(run.calls, engine), engine(call)) by {
        assert calls[..|calls| - 1] == run.calls;
      }
      forall i | 0 <= i < |locks| ensures calls[i] == KnownCall(p, locks[i], deleteAll) {
        if i < |front| {
          assert front[i] == locks[i];
        }
      }
    }
  }

  /** A first lock of an unknown brand ends the run with the UnboundLocalError. */
  lemma UnknownFirstLockRaises(p: Property, lock: Json, deleteAll: bool, engine: LockCall -> Changes)
    requires LockStep(p, lock, deleteAll) == Done(None)
    ensures LocksUpTo(p, [lock], deleteAll, engine).0 == LocksFailed(UnboundDeletions)
  {
    assert [lock][..0] == [];
  }

  /** A lock of an unknown brand after a known one adds that lock's results a second time, without a call. */
  lemma UnknownLockRepeats(p: Property, known: Json, unknown: Json, deleteAll: bool, engine: LockCall -> Changes)
    requires LockStep(p, known, deleteAll).Done? && LockStep(p, known, deleteAll).value.Some?
    requires LockStep(p, unknown, deleteAll) == Done(None)
    ensures var c := engine(LockStep(p, known, deleteAll).value.value);
      LocksUpTo(p, [known, unknown], deleteAll, engine).0
      == LocksRun([LockStep(p, known, deleteAll).value.value], Extend(Extend(NoChanges, c), c))
  {
    var call := LockStep(p, known, deleteAll).value.value;
    var c := engine(call);
    assert [known][..0] == [];
    assert LocksUpTo(p, [], deleteAll, engine) == (LocksRun([], NoChanges), None);
    assert [] + [call] == [call];
    assert LocksUpTo(p, [known], deleteAll, engine) == (LocksRun([call], Extend(NoChanges, c)), Some(c));
    assert [known, unknown][..1] == [known];
  }

  /**
   * `process_property_locks(...)`, extending the caller's four lists:
   * `raised` is the exception that leaves the function; otherwise `calls`
   * are the engine calls made and the lists are extended with the loop's.
   */
  method ProcessPropertyLocks(p: Property, deleteAll: bool, engine: LockCall -> Changes, acc0: Changes)
      returns (acc: Changes, calls: seq<LockCall>, raised: Option<string>)
    ensures raised.Some? <==> LocksOf(p, deleteAll, engine).LocksFailed?
    ensures raised.Some? ==> raised.value == LocksOf(p, deleteAll, engine).detail
    ensures raised.None? ==> calls == LocksOf(p, deleteAll, engine).calls && acc == Extend(acc0, LocksOf(p, deleteAll, engine).changes)
  {
    acc, calls, raised := acc0, [], None;
    var column := ColumnOf(p, "Locks");
    if column.Threw? {
      return acc, calls, Some(column.detail);
    }
    var elements := Elements(column.value);
    if elements.Threw? {
      return acc, calls, Some(elements.detail);
    }
    acc, calls, raised := RunLocks(p, elements.value, deleteAll, engine, acc0);
  }

  /** One turn of the loop of lines 254-276 as written: the lock's call, or the last call's results again. */
  method LockTurn(p: Property, lock: Json, deleteAll: bool, engine: LockCall -> Changes, last: Option<Changes>)
      returns (outcome: Result<(Option<LockCall>, Changes)>)
    ensures outcome == LockResults(LockStep(p, lock, deleteAll), last, engine)
  {
    var step := LockStep(p, lock, deleteAll);
    if step.Threw? {
      return Threw(step.detail);
    }
    if step.value.Some? {
      outcome := Done((step.value, engine(step.value.value)));
    } else if last.None? {
      outcome := Threw(UnboundDeletions);
    } else {
      outcome := Done((None, last.value));
    }
  }

  /** The loop of lines 254-276 as written, over the locks of a property. */
  method RunLocks(p: Property, locks: seq<Json>, deleteAll: bool, engine: LockCall -> Changes, acc0: Changes)
      returns (acc: Changes, calls: seq<LockCall>, raised: Option<string>)
    ensures raised.Some? <==> LocksUpTo(p, locks, deleteAll, engine).0.LocksFailed?
    ensures raised.Some? ==> raised.value == LocksUpTo(p, locks, deleteAll, engine).0.detail
    ensures raised.None? ==> calls == LocksUpTo(p, locks, deleteAll, engine).0.calls
    ensures raised.None? ==> acc == Extend(acc0, LocksUpTo(p, locks, deleteAll, engine).0.changes)
  {
    acc, calls, raised := acc0, [], None;
    var last: Option<Changes> := None;
    var i := 0;
    while i < |locks|
      invariant 0 <= i <= |locks|
      invariant LocksUpTo(p, locks[..i], deleteAll, engine).0.LocksRun?
      invariant calls == LocksUpTo(p, locks[..i], deleteAll, engine).0.calls
      invariant last == LocksUpTo(p, locks[..i], deleteAll, engine).1
      invariant acc == Extend(acc0, LocksUpTo(p, locks[..i], deleteAll, engine).0.changes)
    {
      ghost var state := LocksUpTo(p, locks[..i], deleteAll, engine);
      assert locks[..i + 1][..i] == locks[..i];
      var outcome := LockTurn(p, locks[i], deleteAll, engine, last);
      assert LocksUpTo(p, locks[..i + 1], deleteAll, engine) == LockAdvance(state, LockStep(p, locks[i], deleteAll), engine);
      if outcome.Threw? {
        FailureSticks(p, locks, i + 1, deleteAll, engine);
        return acc, calls, Some(outcome.detail);
      }
      var (call, result) := outcome.value;
      calls := calls + Made(call);
      ExtendAssociates(acc0, state.0.changes, result);
      acc := Extend(acc, result);
      last := Some(result);
      i := i + 1;
    }
    assert locks[..|locks|] == locks;
  }

  /** Once the loop has raised, the locks after it change nothing. */
  lemma {:induction false} FailureSticks(p: Property, locks: seq<Json>, n: nat, deleteAll: bool, engine: LockCall -> Changes)
    requires n <= |locks|
    requires LocksUpTo(p, locks[..n], deleteAll, engine).0.LocksFailed?
    ensures LocksUpTo(p, locks, deleteAll, engine).0 == LocksUpTo(p, locks[..n], deleteAll, engine).0
    decreases |locks|
  {
    if n < |locks| {
      var front := locks[..|locks| - 1];
      assert front[..n] == locks[..n];
      FailureSticks(p, front, n, deleteAll, engine);
    } else {
      assert locks[..n] == locks;
    }
  }

  /** Extending by empty lists, or extending empty lists, changes nothing. */
  lemma ExtendNothing(a: Changes)
    ensures Extend(NoChanges, a) == a && Extend(a, NoChanges) == a
  {
    assert NoChanges.deletions + a.deletions == a.deletions == a.deletions + NoChanges.deletions;
    assert NoChanges.updates + a.updates == a.updates == a.updates + NoChanges.updates;
    assert NoChanges.additions + a.additions == a.additions == a.additions + NoChanges.additions;
    assert NoChanges.errors + a.errors == a.errors == a.errors + NoChanges.errors;
  }

  /** Extending in two steps is extending with the two lists one after another. */
  lemma ExtendAssociates(a: Changes, b: Changes, c: Changes)
    ensures Extend(Extend(a, b), c) == Extend(a, Extend(b, c))
  {
  }
}
