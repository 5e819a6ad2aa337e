/**
 * src/sync.py:318-448, `process_property_thermostats`: for each thermostat
 * of a property, whether a stay is under way today, the temperatures that
 * apply, the operating-hours gate, and the brand's engine.
 *
 * What `get_thermostat_settings`, the frequency and alert checks of the
 * reservation path, and `smartthings_thermostats.sync` answer is given as
 * functions (`Engines`).
 */
module SyncThermostats {
  import opened Common
  import opened Json
  import Clock
  import Utility
  import opened Reservations
  import opened SyncDriver

  /** What a step of the run answers: a value, or an exception (with its `str`, where the model tracks it). */
  datatype Attempt<T> = Ok(value: T) | Failure(detail: Option<string>)

  /** The run's clock: the local time, and the hours added to check-in and check-out times. */
  datatype Timing = Timing(now: int, checkInOffset: int, checkOutOffset: int)

  // ---------------------------------------------------------------------------
  // The reservation gate, lines 348-369
  // ---------------------------------------------------------------------------

  /** Line 357: the check-in date is today or earlier, and the check-out date is later than today. */
  predicate Inside(checkin: int, checkout: int, now: int) {
    Clock.DayOf(checkin) <= Clock.DayOf(now) < Clock.DayOf(checkout)
  }

  /** The check-in and check-out instants of a reservation, None where `strptime` raises. */
  datatype Times = Times(checkin: Option<int>, checkout: Option<int>)

  /** Lines 350-351: `format_datetime` of both times, with their offsets. */
  function TimesOf(r: Reservation, t: Timing): Times {
    Times(Clock.FormatDatetime(r.checkin, t.checkInOffset), Clock.FormatDatetime(r.checkout, t.checkOutOffset))
  }

  function AllTimes(rs: seq<Reservation>, t: Timing): (ts: seq<Times>)
    ensures |ts| == |rs| && forall k :: 0 <= k < |rs| ==> ts[k] == TimesOf(rs[k], t)
  {
    seq(|rs|, k requires 0 <= k < |rs| => TimesOf(rs[k], t))
  }

  /** Both times of reservation `k` parse. */
  predicate Parses(ts: seq<Times>, k: int)
    requires 0 <= k < |ts|
  {
    ts[k].checkin.Some? && ts[k].checkout.Some?
  }

  /** Reservation `k` parses and is under way today. */
  predicate StayAt(ts: seq<Times>, k: int, now: int)
    requires 0 <= k < |ts|
  {
    Parses(ts, k) && Inside(ts[k].checkin.value, ts[k].checkout.value, now)
  }

  /** What the gate decides: whether a stay is under way, the thermostat filtered by `When`, and the stay's first day. */
  datatype Gate = Gate(hasReservation: bool, filtered: Option<map<string, Json>>, start: Option<int>)

  /**
   * The loop of lines 349-367 from reservation `i` on, given the
   * reservations' times and what `filter_by_key` answers for the
   * reservations-only and the non-reservations temperatures: the first
   * stay under way takes the former; every other reservation takes the
   * latter again. A time `strptime` cannot read raises its ValueError, and
   * so does a filter once the loop reaches it.
   */
  function Scan(only: Outcome<Option<map<string, Json>>>, other: Outcome<Option<map<string, Json>>>,
                rs: seq<Reservation>, ts: seq<Times>, i: nat, now: int): Attempt<Gate>
    requires i < |rs| == |ts|
    decreases |rs| - i
  {
    if ts[i].checkin.None? then Failure(Some(Clock.BadTimestamp(rs[i].checkin)))
    else if ts[i].checkout.None? then Failure(Some(Clock.BadTimestamp(rs[i].checkout)))
    else if Inside(ts[i].checkin.value, ts[i].checkout.value, now) then
      match only
      case Raised => Failure(None)
      case Value(f) => Ok(Gate(true, f, Some(Clock.DayOf(ts[i].checkin.value))))
    else
      match other
      case Raised => Failure(None)
      case Value(f) => if i + 1 == |rs| then Ok(Gate(false, f, None)) else Scan(only, other, rs, ts, i + 1, now)
  }

  /** Lines 348-369: the scan when there are reservations, else the non-reservations temperatures. */
  function GateOf(th: map<string, Json>, reservations: Option<seq<Reservation>>, t: Timing): Attempt<Gate> {
    if reservations.Some? && reservations.value != [] then
      Scan(Utility.FilterByKey(th, "temperatures", ReservationsOnly), Utility.FilterByKey(th, "temperatures", NonReservations),
           reservations.value, AllTimes(reservations.value, t), 0, t.now)
    else
      match Utility.FilterByKey(th, "temperatures", NonReservations)
      case Raised => Failure(None)
      case Value(f) => Ok(Gate(false, f, None))
  }

  /**
   * When every reservation parses and the filters succeed, the scan from
   * `i` finds a stay exactly when one of the reservations from `i` on is
   * under way; the first such one gives the start day.
   */
  lemma {:induction false} ScanFindsStay(only: Outcome<Option<map<string, Json>>>, other: Outcome<Option<map<string, Json>>>,
                                         rs: seq<Reservation>, ts: seq<Times>, i: nat, now: int)
    requires i < |rs| == |ts|
    requires forall k :: i <= k < |ts| ==> Parses(ts, k)
    requires only.Value? && other.Value?
    ensures Scan(only, other, rs, ts, i, now).Ok?
    ensures Scan(only, other, rs, ts, i, now).value.hasReservation <==> exists k :: i <= k < |ts| && StayAt(ts, k, now)
    ensures Scan(only, other, rs, ts, i, now).value.hasReservation ==>
      exists k :: (i <= k < |ts| && StayAt(ts, k, now) && (forall j :: i <= j < k ==> !StayAt(ts, j, now))
        && Scan(only, other, rs, ts, i, now).value == Gate(true, only.value, Some(Clock.DayOf(ts[k].checkin.value))))
    ensures !Scan(only, other, rs, ts, i, now).value.hasReservation ==> Scan(only, other, rs, ts, i, now).value == Gate(false, other.value, None)
    decreases |rs| - i
  {
    assert Parses(ts, i);
    if !StayAt(ts, i, now) && i + 1 < |rs| {
      ScanFindsStay(only, other, rs, ts, i + 1, now);
      if Scan(only, other, rs, ts, i, now).value.hasReservation {
        var k :| i + 1 <= k < |ts| && StayAt(ts, k, now) && (forall j :: i + 1 <= j < k ==> !StayAt(ts, j, now))
          && Scan(only, other, rs, ts, i + 1, now).value == Gate(true, only.value, Some(Clock.DayOf(ts[k].checkin.value)));
        assert forall j :: i <= j < k ==> !StayAt(ts, j, now);
      }
    }
  }

  /** The filters the gate can ask for both succeed. */
  predicate Filterable(th: map<string, Json>) {
    Utility.FilterByKey(th, "temperatures", ReservationsOnly).Value? && Utility.FilterByKey(th, "temperatures", NonReservations).Value?
  }

  /**
   * The gate of a thermostat whose filters succeed, when every reservation
   * parses: a stay is under way exactly when some reservation is, and then
   * the reservations-only temperatures apply.
   */
  lemma HasReservationIff(th: map<string, Json>, reservations: Option<seq<Reservation>>, t: Timing)
    requires Filterable(th)
    requires reservations.Some? ==> forall k :: 0 <= k < |reservations.value| ==> Parses(AllTimes(reservations.value, t), k)
    ensures GateOf(th, reservations, t).Ok?
    ensures GateOf(th, reservations, t).value.hasReservation <==>
      reservations.Some? && exists k :: 0 <= k < |reservations.value| && StayAt(AllTimes(reservations.value, t), k, t.now)
    ensures GateOf(th, reservations, t).value.filtered ==
      if GateOf(th, reservations, t).value.hasReservation then Utility.FilterByKey(th, "temperatures", ReservationsOnly).value
      else Utility.FilterByKey(th, "temperatures", NonReservations).value
  {
    if reservations.Some? && reservations.value != [] {
      ScanFindsStay(Utility.FilterByKey(th, "temperatures", ReservationsOnly), Utility.FilterByKey(th, "temperatures", NonReservations),
                    reservations.value, AllTimes(reservations.value, t), 0, t.now);
    }
  }

  /** What one turn of the reservation loop decides: the gate, or the non-reservations temperatures to go on with. */
  datatype Visit = Decided(gate: Attempt<Gate>) | Missed(filtered: Option<map<string, Json>>)

  /** One turn of the loop of lines 349-367: both times, then the break on a stay under way, or the filter of a miss. */
  method VisitReservation(th: map<string, Json>, rs: seq<Reservation>, i: nat, t: Timing) returns (v: Visit)
    requires i < |rs|
    ensures var scan := Scan(Utility.FilterByKey(th, "temperatures", ReservationsOnly),
                             Utility.FilterByKey(th, "temperatures", NonReservations), rs, AllTimes(rs, t), i, t.now);
      && (v.Decided? ==> v.gate == scan)
      && (v.Missed? && i + 1 == |rs| ==> scan == Ok(Gate(false, v.filtered, None)))
      && (v.Missed? && i + 1 < |rs| ==> scan == Scan(Utility.FilterByKey(th, "temperatures", ReservationsOnly),
                                                      Utility.FilterByKey(th, "temperatures", NonReservations), rs, AllTimes(rs, t), i + 1, t.now))
  {
    var times := TimesOf(rs[i], t);
    assert times == AllTimes(rs, t)[i];
    if times.checkin.None? {
      return Decided(Failure(Some(Clock.BadTimestamp(rs[i].checkin))));
    }
    if times.checkout.None? {
      return Decided(Failure(Some(Clock.BadTimestamp(rs[i].checkout))));
    }
    if Inside(times.checkin.value, times.checkout.value, t.now) {
      var only := Utility.FilterByKey(th, "temperatures", ReservationsOnly);
      if only.Raised? {
        return Decided(Failure(None));
      }
      return Decided(Ok(Gate(true, only.value, Some(Clock.DayOf(times.checkin.value)))));
    }
    var other := Utility.FilterByKey(th, "temperatures", NonReservations);
    if other.Raised? {
      return Decided(Failure(None));
    }
    v := Missed(other.value);
  }

  /**
   * Lines 348-369 as written: the loop over the reservations, which breaks
   * at the first stay under way.
   */
  method ReservationGate(th: map<string, Json>, reservations: Option<seq<Reservation>>, t: Timing) returns (g: Attempt<Gate>)
    ensures g == GateOf(th, reservations, t)
  {
    if !(reservations.Some? && reservations.value != []) {
      var filtered := Utility.FilterByKey(th, "temperatures", NonReservations);
      if filtered.Raised? {
        return Failure(None);
      }
      return Ok(Gate(false, filtered.value, None));
    }
    var rs := reservations.value;
    ghost var ts := AllTimes(rs, t);
    ghost var onlyAnswer := Utility.FilterByKey(th, "temperatures", ReservationsOnly);
    ghost var otherAnswer := Utility.FilterByKey(th, "temperatures", NonReservations);
    var filtered: Option<map<string, Json>> := None;
    var i := 0;
    while i < |rs|
      invariant 0 <= i <= |rs|
      invariant i < |rs| ==> GateOf(th, reservations, t) == Scan(onlyAnswer, otherAnswer, rs, ts, i, t.now)
      invariant i == |rs| ==> GateOf(th, reservations, t) == Ok(Gate(false, filtered, None))
    {
      var visit := VisitReservation(th, rs, i, t);
      if visit.Decided? {
        return visit.gate;
      }
      filtered := visit.filtered;
      i := i + 1;
    }
    g := Ok(Gate(false, filtered, None));
  }

  // ---------------------------------------------------------------------------
  // After the gate, lines 371-448
  // ---------------------------------------------------------------------------

  /** A thermostat past the operating-hours gate: its config, whether a stay is under way, the filtered config and the stay's first day. */
  datatype Due = Due(thermostat: map<string, Json>, hasReservation: bool, filtered: map<string, Json>, start: Option<int>)

  /** What `get_thermostat_settings` answers: mode, cooling and heating setpoints, scenario, freeze protection. */
  datatype Target = Target(mode: Json, cool: Json, heat: Json, scenario: Json, freezeProtection: bool)

  /** A call of `smartthings_thermostats.sync(thermostat, mode, cool_temp, heat_temp, property_name, location)`. */
  datatype ThermostatCall = ThermostatCall(thermostat: map<string, Json>, target: Target, propertyName: string, location: Json)

  /**
   * The collaborators: `get_thermostat_settings(thermostat, location, ...)`;
   * the reservation path's temperature-config lookup, alerts and frequency
   * check (false: the frequency setting does not allow today); and the
   * SmartThings engine.
   */
  datatype Engines = Engines(target: (Due, Json) -> Attempt<Target>,
                             frequency: (Due, Target) -> Attempt<bool>,
                             sync: ThermostatCall -> (seq<string>, seq<string>))

  /** Line 428: `wyze_thermostats.sync` is called with seven arguments and takes six. */
  const WyzeArity := "sync() takes 6 positional arguments but 7 were given"

  /** `str(e)` of reading `updates` before any thermostat assigned it. */
  const UnboundUpdates := "cannot access local variable 'updates' where it is not associated with a value"

  function FreezeText(propertyName: string, name: Json): string {
    "Freeze protection override for " + propertyName + " - " + PyStr(name)
  }

  /** Lines 443-445: the override entry appended to the updates when freeze protection applies. */
  function WithFreeze(updates: seq<string>, target: Target, propertyName: string, name: Json): seq<string> {
    if target.freezeProtection then updates + [FreezeText(propertyName, name)] else updates
  }

  /** The outcome of one thermostat: skipped, or the lists it extends with (and the engine call made, if any). */
  datatype Turn = Skipped | Applied(call: Option<ThermostatCall>, updates: seq<string>, errors: seq<string>)

  /** A thermostat config whose brand and name the logger line reads. */
  predicate Named(th: map<string, Json>) {
    "brand" in th && "name" in th
  }

  /**
   * Lines 377-448 for a due thermostat, with the lists the last engine
   * call left in `updates`/`errors`: the settings, the frequency check on
   * the reservation path, then the brand. A Wyze thermostat always raises
   * the TypeError of the extra argument; a thermostat of another brand
   * reuses (and extends with) the last lists, and raises when there are
   * none.
   */
  function Apply(p: Property, due: Due, location: Json, eng: Engines, last: Option<(seq<string>, seq<string>)>): (r: Attempt<Turn>)
    requires Named(due.thermostat)
    ensures (r.Ok? && r.value.Applied?) ==> eng.target(due, location).Ok?
    ensures (r.Ok? && r.value.Applied?) ==> !due.hasReservation || eng.frequency(due, eng.target(due, location).value) == Ok(true)
    ensures (r.Ok? && r.value.Applied? && r.value.call.Some?) ==>
      && due.thermostat["brand"] == JStr(SmartThingsBrand)
      && r.value.call.value.target == eng.target(due, location).value
      && r.value.call.value.propertyName == p.partitionKey
      && r.value.updates == WithFreeze(eng.sync(r.value.call.value).0, eng.target(due, location).value, p.partitionKey, due.thermostat["name"])
      && r.value.errors == eng.sync(r.value.call.value).1
    ensures (r.Ok? && r.value.Applied? && r.value.call.None?) ==>
      && last.Some?
      && due.thermostat["brand"] != JStr(WyzeBrand) && due.thermostat["brand"] != JStr(SmartThingsBrand)
      && r.value.updates == WithFreeze(last.value.0, eng.target(due, location).value, p.partitionKey, due.thermostat["name"])
      && r.value.errors == last.value.1
    ensures (due.thermostat["brand"] == JStr(WyzeBrand) && eng.target(due, location).Ok?
             && (!due.hasReservation || eng.frequency(due, eng.target(due, location).value) == Ok(true))) ==>
      r == Failure(Some(WyzeArity))
  {
    match eng.target(due, location)
    case Failure(d) => Failure(d)
    case Ok(target) =>
      match (if due.hasReservation then eng.frequency(due, target) else Ok(true))
      case Failure(d) => Failure(d)
      case Ok(allowed) =>
        if !allowed then Ok(Skipped)
        else
          var brand := due.thermostat["brand"];
          var name := due.thermostat["name"];
          if brand == JStr(WyzeBrand) then Failure(Some(WyzeArity))
          else if brand == JStr(SmartThingsBrand) then
            match SmartThingsLocation(p)
            case Threw(e) => Failure(Some(e))
            case Done(loc) =>
              var call := ThermostatCall(due.thermostat, target, p.partitionKey, loc);
              var (updates, errors) := eng.sync(call);
              Ok(Applied(Some(call), WithFreeze(updates, target, p.partitionKey, name), errors))
          else if last.None? then Failure(Some(UnboundUpdates))
          else Ok(Applied(None, WithFreeze(last.value.0, target, p.partitionKey, name), last.value.1))
  }

  /**
   * One turn of the loop of lines 341-448: the logger's subscripts of the
   * brand, manufacturer and name, the reservation gate, the operating
   * hours (outside them the thermostat is skipped), then `Apply`.
   */
  function ThermostatStep(p: Property, th: Json, location: Json, reservations: Option<seq<Reservation>>, t: Timing,
                          eng: Engines, last: Option<(seq<string>, seq<string>)>): (r: Attempt<Turn>)
    ensures r.Ok? ==> th.JObj? && Named(th.fields) && "manufacture" in th.fields && GateOf(th.fields, reservations, t).Ok?
    ensures (r.Ok? && r.value.Applied?) ==>
      Utility.IsValidHour(GateOf(th.fields, reservations, t).value.filtered, t.now) == Value(true)
    ensures (th.JObj? && Named(th.fields) && "manufacture" in th.fields && GateOf(th.fields, reservations, t).Ok?
             && Utility.IsValidHour(GateOf(th.fields, reservations, t).value.filtered, t.now) == Value(false)) ==>
      r == Ok(Skipped)
  {
    match Subscript(th, "brand")
    case Threw(e) => Failure(Some(e))
    case Done(_) =>
      match Subscript(th, "manufacture")
      case Threw(e) => Failure(Some(e))
      case Done(_) =>
        match Subscript(th, "name")
        case Threw(e) => Failure(Some(e))
        case Done(_) =>
          match GateOf(th.fields, reservations, t)
          case Failure(d) => Failure(d)
          case Ok(g) =>
            match Utility.IsValidHour(g.filtered, t.now)
            case Raised => Failure(None)
            case Value(valid) =>
              if !valid then Ok(Skipped)
              else Apply(p, Due(th.fields, g.hasReservation, g.filtered.value, g.start), location, eng, last)
  }

  /** One thermostat, with the reservation loop run as written. */
  method ThermostatTurn(p: Property, th: Json, location: Json, reservations: Option<seq<Reservation>>, t: Timing,
                        eng: Engines, last: Option<(seq<string>, seq<string>)>) returns (r: Attempt<Turn>)
    ensures r == ThermostatStep(p, th, location, reservations, t, eng, last)
  {
    var brand := Subscript(th, "brand");
    if brand.Threw? {
      return Failure(Some(brand.detail));
    }
    var manufacture := Subscript(th, "manufacture");
    if manufacture.Threw? {
      return Failure(Some(manufacture.detail));
    }
    var name := Subscript(th, "name");
    if name.Threw? {
      return Failure(Some(name.detail));
    }
    var gate := ReservationGate(th.fields, reservations, t);
    if gate.Failure? {
      return Failure(gate.detail);
    }
    var valid := Utility.IsValidHour(gate.value.filtered, t.now);
    if valid.Raised? {
      return Failure(None);
    }
    if !valid.value {
      return Ok(Skipped);
    }
    r := Apply(p, Due(th.fields, gate.value.hasReservation, gate.value.filtered.value, gate.value.start), location, eng, last);
  }

  // ---------------------------------------------------------------------------
  // The loop over the thermostats
  // ---------------------------------------------------------------------------

  /** The engine calls made and the lists collected, or the exception that ended the loop. */
  datatype ThermostatsRun = ThermostatsRan(calls: seq<ThermostatCall>, changes: Changes) | ThermostatsFailed(detail: Option<string>)

  /** The loop over the first thermostats, with the lists the last applied thermostat left in `updates`/`errors`. */
  function ThermostatsUpTo(p: Property, ths: seq<Json>, location: Json, reservations: Option<seq<Reservation>>, t: Timing,
                           eng: Engines): (r: (ThermostatsRun, Option<(seq<string>, seq<string>)>))
    ensures r.0.ThermostatsRan? ==> |r.0.calls| <= |ths| && r.0.changes.deletions == [] && r.0.changes.additions == []
    ensures r.0.ThermostatsRan? ==> forall c :: c in r.0.calls ==> c.propertyName == p.partitionKey
  {
    if ths == [] then (ThermostatsRan([], NoChanges), None)
    else
      var before := ThermostatsUpTo(p, ths[..|ths| - 1], location, reservations, t, eng);
      if before.0.ThermostatsFailed? then before
      else Advance(before, ThermostatStep(p, ths[|ths| - 1], location, reservations, t, eng, before.1))
  }

  /** The loop's state after a thermostat's turn: a skip keeps it, an exception ends it, applied lists extend it and are the new last lists. */
  function Advance(before: (ThermostatsRun, Option<(seq<string>, seq<string>)>), turn: Attempt<Turn>): (r: (ThermostatsRun, Option<(seq<string>, seq<string>)>))
    requires before.0.ThermostatsRan?
    ensures r.0.ThermostatsRan? ==> |r.0.calls| <= |before.0.calls| + 1
  {
    match turn
    case Failure(d) => (ThermostatsFailed(d), before.1)
    case Ok(Skipped) => before
    case Ok(Applied(call, updates, errors)) =>
      (ThermostatsRan(before.0.calls + Made(call), Extend(before.0.changes, Tally(updates, errors))), Some((updates, errors)))
  }

  /**
   * `process_property_thermostats(property, reservations, ...)`: the
   * KeyErrors of the Thermostats and Location columns, then the loop.
   */
  function ThermostatsOf(p: Property, reservations: Option<seq<Reservation>>, t: Timing, eng: Engines): ThermostatsRun {
    match ColumnOf(p, "Thermostats")
    case Threw(e) => ThermostatsFailed(Some(e))
    case Done(doc) =>
      match ColumnOf(p, "Location")
      case Threw(e) => ThermostatsFailed(Some(e))
      case Done(location) =>
        match Elements(doc)
        case Threw(e) => ThermostatsFailed(Some(e))
        case Done(ths) => ThermostatsUpTo(p, ths, location, reservations, t, eng).0
  }

  /** A thermostat outside its operating hours changes neither the lists nor the lists a later thermostat of an unknown brand reuses. */
  lemma OutsideHoursChangesNothing(p: Property, ths: seq<Json>, th: Json, location: Json, reservations: Option<seq<Reservation>>,
                                   t: Timing, eng: Engines)
    requires th.JObj? && Named(th.fields) && "manufacture" in th.fields && GateOf(th.fields, reservations, t).Ok?
    requires Utility.IsValidHour(GateOf(th.fields, reservations, t).value.filtered, t.now) == Value(false)
    ensures ThermostatsUpTo(p, ths + [th], location, reservations, t, eng) == ThermostatsUpTo(p, ths, location, reservations, t, eng)
  {
    assert (ths + [th])[..|ths|] == ths;
  }

  /** Once the loop has raised, the thermostats after it change nothing. */
  lemma {:induction false} ThermostatsFailureSticks(p: Property, ths: seq<Json>, n: nat, location: Json,
                                                    reservations: Option<seq<Reservation>>, t: Timing, eng: Engines)
    requires n <= |ths|
    requires ThermostatsUpTo(p, ths[..n], location, reservations, t, eng).0.ThermostatsFailed?
    ensures ThermostatsUpTo(p, ths, location, reservations, t, eng).0 == ThermostatsUpTo(p, ths[..n], location, reservations, t, eng).0
    decreases |ths|
  {
    if n < |ths| {
      var front := ths[..|ths| - 1];
      assert front[..n] == ths[..n];
      ThermostatsFailureSticks(p, front, n, location, reservations, t, eng);
    } else {
      assert ths[..n] == ths;
    }
  }

  /**
   * `process_property_thermostats`, extending the caller's lists: `failed`
   * says an exception leaves it (`detail` its text where tracked);
   * otherwise `calls` are the engine calls made and the lists are extended
   * with the loop's.
   */
  method ProcessPropertyThermostats(p: Property, reservations: Option<seq<Reservation>>, t: Timing, eng: Engines, acc0: Changes)
      returns (acc: Changes, calls: seq<ThermostatCall>, failed: bool, detail: Option<string>)
    ensures failed <==> ThermostatsOf(p, reservations, t, eng).ThermostatsFailed?
    ensures failed ==> detail == ThermostatsOf(p, reservations, t, eng).detail
    ensures !failed ==> calls == ThermostatsOf(p, reservations, t, eng).calls
    ensures !failed ==> acc == Extend(acc0, ThermostatsOf(p, reservations, t, eng).changes)
  {
    acc, calls, failed, detail := acc0, [], false, None;
    var column := ColumnOf(p, "Thermostats");
    if column.Threw? {
      return acc, calls, true, Some(column.detail);
    }
    var location := ColumnOf(p, "Location");
    if location.Threw? {
      return acc, calls, true, Some(location.detail);
    }
    var elements := Elements(column.value);
    if elements.Threw? {
      return acc, calls, true, Some(elements.detail);
    }
    var run := RunThermostats(p, elements.value, location.value, reservations, t, eng);
    if run.ThermostatsFailed? {
      return acc, calls, true, run.detail;
    }
    acc, calls := Extend(acc0, run.changes), run.calls;
  }

  /** The loop of lines 341-448 as written, over the thermostats of a property: the calls made and the lists collected. */
  method RunThermostats(p: Property, ths: seq<Json>, location: Json, reservations: Option<seq<Reservation>>, t: Timing,
                        eng: Engines)
      returns (run: ThermostatsRun)
    ensures run == ThermostatsUpTo(p, ths, location, reservations, t, eng).0
  {
    var calls: seq<ThermostatCall> := [];
    var changes := NoChanges;
    var last: Option<(seq<string>, seq<string>)> := None;
    var i := 0;
    while i < |ths|
      invariant 0 <= i <= |ths|
      invariant ThermostatsUpTo(p, ths[..i], location, reservations, t, eng) == (ThermostatsRan(calls, changes), last)
    {
      var turn := ThermostatTurn(p, ths[i], location, reservations, t, eng, last);
      assert ths[..i + 1][..i] == ths[..i];
      assert ThermostatsUpTo(p, ths[..i + 1], location, reservations, t, eng) == Advance((ThermostatsRan(calls, changes), last), turn);
      if turn.Failure? {
        ThermostatsFailureSticks(p, ths, i + 1, location, reservations, t, eng);
        return ThermostatsFailed(turn.detail);
      }
      if turn.value.Applied? {
        var Applied(call, updates, errors) := turn.value;
        calls := calls + Made(call);
        changes := Extend(changes, Tally(updates, errors));
        last := Some((updates, errors));
      }
      i := i + 1;
    }
    assert ths[..|ths|] == ths;
    run := ThermostatsRan(calls, changes);
  }

}
