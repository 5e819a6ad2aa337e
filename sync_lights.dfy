/**
 * src/sync.py:278-316, `process_property_lights`: for each light of a
 * property, the wanted setting, then the SmartThings switch when the
 * setting asks for a change.
 *
 * What `get_light_settings` and `smartthings_lights.sync` answer is given
 * as functions (they are modelled in the Light and SmartThingsLights
 * modules, and need the sun's times and the cloud's answers).
 */
module SyncLights {
  import opened Common
  import opened Json
  import opened Reservations
  import Light
  import opened SyncDriver

  // ---------------------------------------------------------------------------
  // repr of a list of strings
  // ---------------------------------------------------------------------------

  /** The quote Python's `repr` puts around `s`: a double quote only when `s` holds a single quote and no double quote. */
  function QuoteOf(s: string): char {
    if '\'' in s && '"' !in s then '"' else '\''
  }

  /** How `repr` writes `c` inside a literal quoted with `q`. */
  function EscapeChar(c: char, q: char): string {
    if c == '\\' then "\\\\"
    else if c == q then ['\\', q]
    else if c == '\n' then "\\n"
    else if c == '\r' then "\\r"
    else if c == '\t' then "\\t"
    else [c]
  }

  function Escaped(s: string, q: char): string {
    if s == [] then [] else EscapeChar(s[0], q) + Escaped(s[1..], q)
  }

  /** `repr(s)` of a string without other control characters. */
  function Repr(s: string): (r: string)
    ensures |r| >= 2 && r[0] == QuoteOf(s) && r[|r| - 1] == QuoteOf(s)
  {
    [QuoteOf(s)] + Escaped(s, QuoteOf(s)) + [QuoteOf(s)]
  }

  /** The character a backslash followed by `c` stands for. */
  function UnescapeChar(c: char): char {
    if c == 'n' then '\n' else if c == 'r' then '\r' else if c == 't' then '\t' else c
  }

  /** The inverse of `Escaped`: reads a literal's body back. */
  function Unescaped(s: string): string {
    if s == [] then []
    else if s[0] == '\\' && |s| >= 2 then [UnescapeChar(s[1])] + Unescaped(s[2..])
    else [s[0]] + Unescaped(s[1..])
  }

  /** The string a `repr` literal stands for. */
  function ReadRepr(r: string): string
    requires |r| >= 2
  {
    Unescaped(r[1..|r| - 1])
  }

  lemma UnescapeStep(c: char, q: char, t: string)
    requires q == '\'' || q == '"'
    ensures Unescaped(EscapeChar(c, q) + t) == [c] + Unescaped(t)
  {
    var x := EscapeChar(c, q) + t;
    if |EscapeChar(c, q)| == 2 {
      assert x[0] == '\\' && x[2..] == t;
    } else {
      assert x[0] == c && x[1..] == t;
    }
  }

  lemma {:induction false} UnescapesEscaped(s: string, q: char)
    requires q == '\'' || q == '"'
    ensures Unescaped(Escaped(s, q)) == s
  {
    if s != [] {
      UnescapeStep(s[0], q, Escaped(s[1..], q));
      UnescapesEscaped(s[1..], q);
    }
  }

  /** Reading a `repr` literal gives back the string it was made of. */
  lemma ReprReadsBack(s: string)
    ensures ReadRepr(Repr(s)) == s
  {
    var r := Repr(s);
    assert r[1..|r| - 1] == Escaped(s, QuoteOf(s));
    UnescapesEscaped(s, QuoteOf(s));
  }

  function ReprItems(items: seq<string>): string {
    if items == [] then ""
    else if |items| == 1 then Repr(items[0])
    else Repr(items[0]) + ", " + ReprItems(items[1..])
  }

  /**
   * `str(items)` of a list of strings: how Slack shows the light errors,
   * which line 308 appends as one entry.
   */
  function ListRepr(items: seq<string>): (r: string)
    ensures |r| >= 2 && r[0] == '[' && r[|r| - 1] == ']'
    ensures items == [] ==> r == "[]"
  {
    "[" + ReprItems(items) + "]"
  }

  /** A one-error list shows as that error's literal in brackets. */
  lemma OneErrorShown(e: string)
    ensures var r := ListRepr([e]); r[1..|r| - 1] == Repr(e) && ReadRepr(r[1..|r| - 1]) == e
  {
    var r := ListRepr([e]);
    assert r[1..|r| - 1] == Repr(e);
    ReprReadsBack(e);
  }

  // ---------------------------------------------------------------------------
  // process_property_lights
  // ---------------------------------------------------------------------------

  /** `get_light_settings(light, location, reservations, current_time)` at the run's time. */
  type LightSettings = (Json, Json, Option<seq<Reservation>>) -> Light.Setting

  /** A call of `smartthings_lights.sync(light, property_name, location, light_state)`. */
  datatype LightCall = LightCall(light: Json, propertyName: string, location: Json, state: bool)

  /** What `smartthings_lights.sync` answers: its two lists, or None. */
  type LightSync = LightCall -> Option<(seq<string>, seq<string>)>

  /** `str(e)` of unpacking the None a SmartThings light sync returns when the light or its location is missing. */
  const NoneUnpack := "cannot unpack non-iterable NoneType object"

  /** The wanted setting asks for a switch, and the light is a SmartThings one. */
  predicate Switches(s: Light.Setting, light: Json) {
    s.errors == [] && s.changeState && light.JObj? && "brand" in light.fields && light.fields["brand"] == JStr(SmartThingsBrand)
  }

  /**
   * One turn of the loop of lines 299-316: the logger's subscripts of the
   * light's brand and name, then the setting; errors become one nested
   * entry; a needed SmartThings switch reads the location from the brand
   * settings and calls the engine, whose None cannot be unpacked.
   */
  function LightStep(p: Property, light: Json, location: Json, reservations: Option<seq<Reservation>>,
                     settings: LightSettings, sync: LightSync): (r: Result<(Option<LightCall>, Changes)>)
    ensures r.Done? ==> light.JObj? && "brand" in light.fields && "name" in light.fields
    ensures (light.JObj? && "brand" in light.fields && "name" in light.fields) ==>
      var s := settings(light, location, reservations);
      && (s.errors != [] ==> r == Done((None, Tally([], [ListRepr(s.errors)]))))
      && (s.errors == [] && !Switches(s, light) ==> r == Done((None, Tally([], []))))
      && (Switches(s, light) ==> match SmartThingsLocation(p)
            case Threw(e) => r == Threw(e)
            case Done(loc) =>
              var call := LightCall(light, p.partitionKey, loc, s.lightState);
              r == if sync(call).None? then Threw(NoneUnpack) else Done((Some(call), Tally(sync(call).value.0, sync(call).value.1))))
  {
    match Subscript(light, "brand")
    case Threw(e) => Threw(e)
    case Done(brand) =>
      match Subscript(light, "name")
      case Threw(e) => Threw(e)
      case Done(_) =>
        var s := settings(light, location, reservations);
        if |s.errors| > 0 then Done((None, Tally([], [ListRepr(s.errors)])))
        else if s.changeState && brand == JStr(SmartThingsBrand) then
          match SmartThingsLocation(p)
          case Threw(e) => Threw(e)
          case Done(loc) =>
            var call := LightCall(light, p.partitionKey, loc, s.lightState);
            match sync(call)
            case None => Threw(NoneUnpack)
            case Some((updates, errors)) => Done((Some(call), Tally(updates, errors)))
        else Done((None, Tally([], [])))
  }

  /** The switch calls made and the lists collected, or the exception that ended the loop. */
  datatype LightsRun = LightsRun(calls: seq<LightCall>, changes: Changes) | LightsFailed(detail: string)

  /** The loop over the first lights. */
  function LightsUpTo(p: Property, lights: seq<Json>, location: Json, reservations: Option<seq<Reservation>>,
                      settings: LightSettings, sync: LightSync): (r: LightsRun)
    ensures r.LightsRun? ==> |r.calls| <= |lights| && r.changes.deletions == [] && r.changes.additions == []
    ensures r.LightsRun? ==> forall c :: c in r.calls ==>
      var s := settings(c.light, location, reservations);
      Switches(s, c.light) && c.state == s.lightState && c.propertyName == p.partitionKey
  {
    if lights == [] then LightsRun([], NoChanges)
    else
      match LightsUpTo(p, lights[..|lights| - 1], location, reservations, settings, sync)
      case LightsFailed(e) => LightsFailed(e)
      case LightsRun(calls, changes) =>
        match LightStep(p, lights[|lights| - 1], location, reservations, settings, sync)
        case Threw(e) => LightsFailed(e)
        case Done((call, entry)) => LightsRun(calls + Made(call), Extend(changes, entry))
  }

  /**
   * `process_property_lights(property, reservations, current_time, ...)`:
   * the KeyErrors of the Lights and Location columns, then the loop.
   */
  function LightsOf(p: Property, reservations: Option<seq<Reservation>>, settings: LightSettings, sync: LightSync): LightsRun {
    match ColumnOf(p, "Lights")
    case Threw(e) => LightsFailed(e)
    case Done(doc) =>
      match ColumnOf(p, "Location")
      case Threw(e) => LightsFailed(e)
      case Done(location) =>
        match Elements(doc)
        case Threw(e) => LightsFailed(e)
        case Done(lights) => LightsUpTo(p, lights, location, reservations, settings, sync)
  }

  /** A light whose setting has errors is never switched, and adds exactly one error entry. */
  lemma LightWithErrorsNotSwitched(p: Property, lights: seq<Json>, location: Json, reservations: Option<seq<Reservation>>,
                                   settings: LightSettings, sync: LightSync, light: Json)
    requires light.JObj? && "brand" in light.fields && "name" in light.fields
    requires settings(light, location, reservations).errors != []
    requires LightsUpTo(p, lights, location, reservations, settings, sync).LightsRun?
    ensures var before := LightsUpTo(p, lights, location, reservations, settings, sync);
      var after := LightsUpTo(p, lights + [light], location, reservations, settings, sync);
      && after.LightsRun? && after.calls == before.calls
      && after.changes.updates == before.changes.updates
      && after.changes.errors == before.changes.errors + [ListRepr(settings(light, location, reservations).errors)]
  {
    assert (lights + [light])[..|lights|] == lights;
  }

  /** Once the loop has raised, the lights after it change nothing. */
  lemma {:induction false} LightsFailureSticks(p: Property, lights: seq<Json>, n: nat, location: Json,
                                               reservations: Option<seq<Reservation>>, settings: LightSettings, sync: LightSync)
    requires n <= |lights|
    requires LightsUpTo(p, lights[..n], location, reservations, settings, sync).LightsFailed?
    ensures LightsUpTo(p, lights, location, reservations, settings, sync) == LightsUpTo(p, lights[..n], location, reservations, settings, sync)
    decreases |lights|
  {
    if n < |lights| {
      var front := lights[..|lights| - 1];
      assert front[..n] == lights[..n];
      LightsFailureSticks(p, front, n, location, reservations, settings, sync);
    } else {
      assert lights[..n] == lights;
    }
  }

  /**
   * `process_property_lights`, extending the caller's lists: `raised` is
   * the exception that leaves it; otherwise `calls` are the switches made
   * and the lists are extended with every light's entries.
   */
  method ProcessPropertyLights(p: Property, reservations: Option<seq<Reservation>>, settings: LightSettings,
                               sync: LightSync, acc0: Changes)
      returns (acc: Changes, calls: seq<LightCall>, raised: Option<string>)
    ensures raised.Some? <==> LightsOf(p, reservations, settings, sync).LightsFailed?
    ensures raised.Some? ==> raised.value == LightsOf(p, reservations, settings, sync).detail
    ensures raised.None? ==> calls == LightsOf(p, reservations, settings, sync).calls
    ensures raised.None? ==> acc == Extend(acc0, LightsOf(p, reservations, settings, sync).changes)
  {
    acc, calls, raised := acc0, [], None;
    var column := ColumnOf(p, "Lights");
    if column.Threw? {
      return acc, calls, Some(column.detail);
    }
    var location := ColumnOf(p, "Location");
    if location.Threw? {
      return acc, calls, Some(location.detail);
    }
    var elements := Elements(column.value);
    if elements.Threw? {
      return acc, calls, Some(elements.detail);
    }
    acc, calls, raised := SwitchLights(p, elements.value, location.value, reservations, settings, sync, acc0);
  }

  /** One more light: the run so far followed by that light's step. */
  lemma LightsTurn(p: Property, lights: seq<Json>, i: nat, location: Json, reservations: Option<seq<Reservation>>,
                   settings: LightSettings, sync: LightSync)
    requires i < |lights|
    ensures var before := LightsUpTo(p, lights[..i], location, reservations, settings, sync);
      var step := LightStep(p, lights[i], location, reservations, settings, sync);
      before.LightsRun? ==>
        LightsUpTo(p, lights[..i + 1], location, reservations, settings, sync) ==
          if step.Threw? then LightsFailed(step.detail)
          else LightsRun(before.calls + Made(step.value.0), Extend(before.changes, step.value.1))
  {
    assert lights[..i + 1][..i] == lights[..i];
  }

  /** The loop's state after the lights `done`: no raise, the switches made and the lists extended. */
  ghost predicate LightsSoFar(p: Property, done: seq<Json>, location: Json, reservations: Option<seq<Reservation>>,
                              settings: LightSettings, sync: LightSync, acc0: Changes, acc: Changes, calls: seq<LightCall>) {
    var r := LightsUpTo(p, done, location, reservations, settings, sync);
    r.LightsRun? && calls == r.calls && acc == Extend(acc0, r.changes)
  }

  /** Lines 299-316: every light of the property in turn, until one raises. */
  method SwitchLights(p: Property, lights: seq<Json>, location: Json, reservations: Option<seq<Reservation>>,
                      settings: LightSettings, sync: LightSync, acc0: Changes)
      returns (acc: Changes, calls: seq<LightCall>, raised: Option<string>)
    ensures raised.Some? <==> LightsUpTo(p, lights, location, reservations, settings, sync).LightsFailed?
    ensures raised.Some? ==> raised.value == LightsUpTo(p, lights, location, reservations, settings, sync).detail
    ensures raised.None? ==> calls == LightsUpTo(p, lights, location, reservations, settings, sync).calls
    ensures raised.None? ==> acc == Extend(acc0, LightsUpTo(p, lights, location, reservations, settings, sync).changes)
  {
    acc, calls, raised := acc0, [], None;
    assert lights[..0] == [];
    ExtendNothing(acc0);
    var i := 0;
    while i < |lights|
      invariant 0 <= i <= |lights|
      invariant raised.None? && LightsSoFar(p, lights[..i], location, reservations, settings, sync, acc0, acc, calls)
    {
      acc, calls, raised := SwitchOne(p, lights, i, location, reservations, settings, sync, acc0, acc, calls);
      if raised.Some? {
        return;
      }
      i := i + 1;
    }
    assert lights[..|lights|] == lights;
    assert LightsSoFar(p, lights, location, reservations, settings, sync, acc0, acc, calls);
  }

  /** One turn of the loop: the `i`-th light's step, or the raise that ends the run. */
  method SwitchOne(p: Property, lights: seq<Json>, i: nat, location: Json, reservations: Option<seq<Reservation>>,
                   settings: LightSettings, sync: LightSync, acc0: Changes, acc: Changes, calls: seq<LightCall>)
      returns (acc2: Changes, calls2: seq<LightCall>, raised: Option<string>)
    requires i < |lights| && LightsSoFar(p, lights[..i], location, reservations, settings, sync, acc0, acc, calls)
    ensures raised.None? ==> LightsSoFar(p, lights[..i + 1], location, reservations, settings, sync, acc0, acc2, calls2)
    ensures raised.Some? ==>
      LightsUpTo(p, lights, location, reservations, settings, sync).LightsFailed?
      && raised.value == LightsUpTo(p, lights, location, reservations, settings, sync).detail
  {
    ghost var before := LightsUpTo(p, lights[..i], location, reservations, settings, sync);
    var step := LightStep(p, lights[i], location, reservations, settings, sync);
    LightsTurn(p, lights, i, location, reservations, settings, sync);
    if step.Threw? {
      LightsFailureSticks(p, lights, i + 1, location, reservations, settings, sync);
      return acc, calls, Some(step.detail);
    }
    var (call, entry) := step.value;
    ExtendAssociates(acc0, before.changes, entry);
    return Extend(acc, entry), calls + Made(call), None;
  }
}
