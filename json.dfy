/**
 * The JSON-shaped values the configuration records hold (the property
 * table's `Locks`, `Lights`, `Thermostats` and `BrandSettings` columns),
 * with Python's truthiness.
 */
module Json {
  import Common

  datatype Json =
    | JNull
    | JBool(b: bool)
    | JInt(i: int)
    | JStr(s: string)
    | JList(items: seq<Json>)
    | JObj(fields: map<string, Json>)

  /** `bool(v)` in Python. */
  predicate Truthy(v: Json) {
    match v
    case JNull => false
    case JBool(b) => b
    case JInt(i) => i != 0
    case JStr(s) => s != []
    case JList(items) => items != []
    case JObj(fields) => fields != map[]
  }

  /** `d.get(key, default)`. */
  function Get(d: map<string, Json>, key: string, default: Json): Json {
    if key in d then d[key] else default
  }

  /** `type(v).__name__`, as Python names it in the messages of the exceptions it raises. */
  function TypeName(v: Json): string {
    match v
    case JNull => "NoneType"
    case JBool(_) => "bool"
    case JInt(_) => "int"
    case JStr(_) => "str"
    case JList(_) => "list"
    case JObj(_) => "dict"
  }

  /** What a chain of subscripts `v[k1][k2]...` gives: the value, or the exception it raises. */
  datatype Lookup = Found(value: Json) | MissingKey(key: string) | NotSubscriptable(detail: string)

  /** `str(e)` of the TypeError that subscripting `v` with a string raises, for a `v` that is not a dict. */
  function SubscriptError(v: Json): string {
    match v
    case JStr(_) => "string indices must be integers, not 'str'"
    case JList(_) => "list indices must be integers or slices, not str"
    case _ => "'" + TypeName(v) + "' object is not subscriptable"
  }

  /**
   * `v[path[0]][path[1]]...`: the value at the end of the path, the first
   * key that is missing (a KeyError), or the TypeError of subscripting a
   * value that is not a dict.
   */
  function Dig(v: Json, path: seq<string>): (r: Lookup)
    ensures path == [] ==> r == Found(v)
    ensures path != [] && !v.JObj? ==> r == NotSubscriptable(SubscriptError(v))
    ensures path != [] && v.JObj? && path[0] !in v.fields ==> r == MissingKey(path[0])
    decreases path
  {
    if path == [] then Found(v)
    else if !v.JObj? then NotSubscriptable(SubscriptError(v))
    else if path[0] !in v.fields then MissingKey(path[0])
    else Dig(v.fields[path[0]], path[1..])
  }

  /** The smallest value at which `path` leads to `x`: one single-key dict per key. */
  function Nest(path: seq<string>, x: Json): Json
    decreases path
  {
    if path == [] then x else JObj(map[path[0] := Nest(path[1..], x)])
  }

  /** Following the path a value was nested under gives the value back. */
  lemma {:induction false} DigNest(path: seq<string>, x: Json)
    ensures Dig(Nest(path, x), path) == Found(x)
    decreases path
  {
    if path != [] {
      DigNest(path[1..], x);
    }
  }

  /** A path can be followed in two parts: the second part starts where the first one ends. */
  lemma {:induction false} DigAppend(v: Json, p: seq<string>, q: seq<string>)
    ensures Dig(v, p + q) == if Dig(v, p).Found? then Dig(Dig(v, p).value, q) else Dig(v, p)
    decreases p
  {
    if p == [] {
      assert p + q == q;
    } else {
      assert (p + q)[0] == p[0];
      assert (p + q)[1..] == p[1..] + q;
      if v.JObj? && p[0] in v.fields {
        DigAppend(v.fields[p[0]], p[1..], q);
      }
    }
  }

  /**
   * `str(v)` for the values the messages interpolate: exact for None,
   * booleans, integers and strings; a list or dict is written as `[...]` or
   * `{...}` (its full repr is not modelled).
   */
  function PyStr(v: Json): string {
    match v
    case JNull => "None"
    case JBool(b) => if b then "True" else "False"
    case JInt(i) => Common.IntToString(i)
    case JStr(s) => s
    case JList(_) => "[...]"
    case JObj(_) => "{...}"
  }

  /** Python's `v == t` between a status value and an optional integer target (`True == 1`, `None == None`). */
  predicate EqualsTarget(v: Json, t: Common.Option<int>) {
    match t
    case None => v == JNull
    case Some(i) => v == JInt(i) || (v.JBool? && i == (if v.b then 1 else 0))
  }

  /**
   * One device entry of a property's `Locks`, `Lights` or `Thermostats`
   * list: its `brand` and `name` keys where present and all its keys.
   */
  datatype DeviceConfig = DeviceConfig(brand: Common.Option<string>, name: Common.Option<string>, fields: map<string, Json>)
}
