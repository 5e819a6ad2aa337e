/**
 * scripts/properties-import/import.py: turn the rows of the properties CSV
 * into table entities. Each cell is converted by content (JSON structures,
 * booleans, integers, floats) or by the hint of its `<column>@type`
 * column; lists and dicts are stored as JSON text, and the two table keys
 * are stored as strings.
 *
 * `json.loads`, `json.dumps` and `float` are parameters: `loads` answers
 * None for a JSONDecodeError, `floatOf` answers the repr of the float or
 * None for a ValueError. The table's answer to each upsert is the
 * `upsert` parameter.
 */
module PropertiesImport {
  import opened Common
  import opened Json

  /** A cell of the frame `pd.read_csv` builds: missing (NaN), text, an integer or a boolean. */
  datatype Cell = Missing | Text(s: string) | Whole(i: int) | Truth(b: bool)

  /** A converted Python value: JSON-shaped, or a float known by its repr. */
  datatype Value = Py(v: Json) | Float(repr: string)

  /** The Python value a present cell holds. */
  function CellValue(c: Cell): Json
    requires !c.Missing?
  {
    match c
    case Text(s) => JStr(s)
    case Whole(i) => JInt(i)
    case Truth(b) => JBool(b)
  }

  /** `pd.isna(value) or value == ''`. */
  predicate Blank(c: Cell) {
    c.Missing? || c == Text("")
  }

  /** Lines 91-92: the two spellings of an empty list. */
  predicate EmptyList(c: Cell) {
    c == Text("[ ]") || c == Text("[]")
  }

  /** Lines 93-94: the two spellings of an empty dict. */
  predicate EmptyDict(c: Cell) {
    c == Text("{ }") || c == Text("{}")
  }

  /** Lines 97-100: the stripped text is bracketed or braced. */
  predicate Bracketed(s: string) {
    var t := Strip(s);
    |t| > 0 && ((t[0] == '[' && t[|t| - 1] == ']') || (t[0] == '{' && t[|t| - 1] == '}'))
  }

  /** Both spellings of the empty list and of the empty dict are bracketed texts. */
  lemma EmptyLiteralsBracketed(c: Cell)
    ensures EmptyList(c) || EmptyDict(c) ==> c.Text? && Bracketed(c.s)
  {
    if EmptyList(c) || EmptyDict(c) {
      var s := c.s;
      PrintableIsNotSpace(s[0]);
      PrintableIsNotSpace(s[|s| - 1]);
      assert LeadingSpace(s) == 0;
      assert s[0..] == s;
      assert TrailingSpace(s) == 0;
      assert Strip(s) == s;
    }
  }

  // ---------------------------------------------------------------------------
  // The CSV escaping of quotes
  // ---------------------------------------------------------------------------

  /** The CSV escaping the script undoes: every quote written twice. */
  function Double(s: string): (r: string)
    ensures |r| >= |s|
  {
    if s == [] then [] else (if s[0] == '"' then "\"\"" else [s[0]]) + Double(s[1..])
  }

  /** `s.replace('""', '"')`: each doubled quote, from left to right, becomes one quote. */
  function Undouble(s: string): (r: string)
    ensures |r| <= |s|
  {
    if |s| >= 2 && s[0] == '"' && s[1] == '"' then "\"" + Undouble(s[2..])
    else if s == [] then []
    else [s[0]] + Undouble(s[1..])
  }

  /** Cleaning undoes the escaping: the text the writer meant comes back. */
  lemma {:induction false} UndoubleDouble(s: string)
    ensures Undouble(Double(s)) == s
  {
    if s != [] {
      UndoubleDouble(s[1..]);
      if s[0] == '"' {
        assert Double(s) == "\"\"" + Double(s[1..]);
        assert Undouble(Double(s)) == "\"" + Undouble(Double(s[1..]));
      } else {
        assert Double(s) == [s[0]] + Double(s[1..]);
      }
      assert s == [s[0]] + s[1..];
    }
  }

  /** No two quotes are adjacent. */
  predicate NoDoubledQuote(s: string) {
    forall i :: 0 <= i < |s| - 1 ==> !(s[i] == '"' && s[i + 1] == '"')
  }

  /** Text without a doubled quote is left as it is. */
  lemma {:induction false} UndoubleKeeps(s: string)
    requires NoDoubledQuote(s)
    ensures Undouble(s) == s
  {
    if s != [] {
      assert NoDoubledQuote(s[1..]) by {
        forall i | 0 <= i < |s[1..]| - 1
          ensures !(s[1..][i] == '"' && s[1..][i + 1] == '"')
        {
          assert s[1..][i] == s[i + 1] && s[1..][i + 1] == s[i + 2];
        }
      }
      UndoubleKeeps(s[1..]);
      assert s == [s[0]] + s[1..];
    }
  }

  // ---------------------------------------------------------------------------
  // parse_json_field and detect_and_convert_type
  // ---------------------------------------------------------------------------

  /**
   * `parse_json_field(value)`: None for a blank cell, the empty list or
   * dict for their literal spellings, the parse of a bracketed or braced
   * text after its quotes are cleaned (the text itself when it does not
   * parse), and any other value unchanged.
   */
  function ParseJsonField(c: Cell, loads: string -> Option<Json>): (r: Json)
    ensures Blank(c) ==> r == JNull
    ensures !Blank(c) && EmptyList(c) ==> r == JList([])
    ensures !Blank(c) && EmptyDict(c) ==> r == JObj(map[])
    ensures !Blank(c) && !EmptyList(c) && !EmptyDict(c) && c.Text? && Bracketed(c.s) ==>
      r == if loads(Undouble(c.s)).Some? then loads(Undouble(c.s)).value else JStr(c.s)
    ensures !Blank(c) && !EmptyList(c) && !EmptyDict(c) && !(c.Text? && Bracketed(c.s)) ==> r == CellValue(c)
  {
    if Blank(c) then JNull
    else if EmptyList(c) then JList([])
    else if EmptyDict(c) then JObj(map[])
    else if c.Text? && Bracketed(c.s) then
      match loads(Undouble(c.s))
      case Some(v) => v
      case None => JStr(c.s)
    else CellValue(c)
  }

  /** `bool(value)` of a present cell. */
  predicate CellTruthy(c: Cell)
    requires !c.Missing?
  {
    Truthy(CellValue(c))
  }

  /** `value.lower() in ['true', 'false']`, with ASCII case folding. */
  predicate BooleanText(s: string) {
    Lower(s) == "true" || Lower(s) == "false"
  }

  /** `'.' not in value and value.isdigit()`, with ASCII digits. */
  predicate IntegerText(s: string) {
    '.' !in s && s != [] && AllDigits(s)
  }

  /**
   * `detect_and_convert_type(value, type_hint)`, with Missing for no hint:
   * blank is None; a 'Boolean' hint decides by `== 'true'` or by
   * truthiness; a parsed JSON structure wins; then booleans in any case,
   * digit strings as integers, texts holding '.' as floats, and anything
   * else unchanged.
   */
  function Detect(c: Cell, hint: Cell, loads: string -> Option<Json>, floatOf: string -> Option<string>): (r: Value)
    ensures Blank(c) ==> r == Py(JNull)
    ensures !Blank(c) && hint == Text("Boolean") ==>
      r == Py(JBool(if c.Text? then Lower(c.s) == "true" else CellTruthy(c)))
    ensures !Blank(c) && hint != Text("Boolean") && EmptyList(c) ==> r == Py(JList([]))
    ensures !Blank(c) && hint != Text("Boolean") && EmptyDict(c) ==> r == Py(JObj(map[]))
    ensures !Blank(c) && hint != Text("Boolean") && !c.Text? ==> r == Py(CellValue(c))
    ensures !Blank(c) && hint != Text("Boolean") && c.Text? && !Bracketed(c.s) ==>
      && (BooleanText(c.s) ==> r == Py(JBool(Lower(c.s) == "true")))
      && (IntegerText(c.s) ==> r == Py(JInt(ParseDigits(c.s))))
      && (!BooleanText(c.s) && !IntegerText(c.s) && '.' !in c.s ==> r == Py(JStr(c.s)))
    ensures !Blank(c) && hint != Text("Boolean") && !EmptyList(c) && !EmptyDict(c) && c.Text? && Bracketed(c.s) ==>
      var parsed := loads(Undouble(c.s));
      && (parsed.Some? && parsed.value != JStr(c.s) ==> r == Py(parsed.value))
      && (parsed.None? ==> r == if '.' in c.s && floatOf(c.s).Some? then Float(floatOf(c.s).value) else Py(JStr(c.s)))
    ensures r.Float? ==> c.Text? && '.' in c.s && floatOf(c.s) == Some(r.repr)
  {
    assert c.Text? && Bracketed(c.s) ==> !BooleanText(c.s) && !IntegerText(c.s) by {
      if c.Text? && Bracketed(c.s) {
        BracketedIsNotScalar(c.s);
      }
    }
    if Blank(c) then Py(JNull)
    else if hint == Text("Boolean") then
      if c.Text? then Py(JBool(Lower(c.s) == "true")) else Py(JBool(CellTruthy(c)))
    else
      var parsed := ParseJsonField(c, loads);
      EmptyLiteralsBracketed(c);
      if parsed != CellValue(c) then Py(parsed)
      else if c.Text? && BooleanText(c.s) then Py(JBool(Lower(c.s) == "true"))
      else if c.Text? && IntegerText(c.s) then Py(JInt(ParseDigits(c.s)))
      else if c.Text? && '.' in c.s && floatOf(c.s).Some? then Float(floatOf(c.s).value)
      else Py(CellValue(c))
  }

  /** A bracketed or braced text is neither a boolean word nor a digit string, so only its parse can convert it. */
  lemma BracketedIsNotScalar(s: string)
    requires Bracketed(s)
    ensures !BooleanText(s) && !IntegerText(s)
  {
    var k := StripShape(s);
    var b := Strip(s)[0];
    assert s[k] == b && (b == '[' || b == '{');
    BracketNotInWords(s, k);
    assert !IsDigit(s[k]);
  }

  /** No case of "true" or "false" holds a bracket or a brace. */
  lemma BracketNotInWords(s: string, k: nat)
    requires k < |s| && (s[k] == '[' || s[k] == '{')
    ensures !BooleanText(s)
  {
    var l := Lower(s);
    assert l[k] == LowerChar(s[k]) == s[k];
    assert forall i :: 0 <= i < |"true"| ==> "true"[i] != '[' && "true"[i] != '{';
    assert forall i :: 0 <= i < |"false"| ==> "false"[i] != '[' && "false"[i] != '{';
  }

  /** A digit string starts and ends with a character that is not whitespace, so it strips to itself. */
  lemma DigitsStrip(s: string)
    requires s != [] && AllDigits(s)
    ensures Strip(s) == s
  {
    PrintableIsNotSpace(s[0]);
    PrintableIsNotSpace(s[|s| - 1]);
    assert LeadingSpace(s) == 0;
    assert s[0..] == s;
    assert TrailingSpace(s) == 0;
  }

  /** An integer the CSV holds as text, `str(n)`, converts back to the integer. */
  lemma NumeralReadsBack(n: nat, loads: string -> Option<Json>, floatOf: string -> Option<string>)
    ensures Detect(Text(NatToString(n)), Missing, loads, floatOf) == Py(JInt(n))
  {
    var s := NatToString(n);
    DigitsStrip(s);
    assert !Bracketed(s);
    assert Lower(s)[0] == s[0];
    assert !BooleanText(s);
    ParseNatToString(n);
  }

  /** The boolean words, in any case, convert to the boolean they name. */
  lemma BooleanWordsConvert(s: string, loads: string -> Option<Json>, floatOf: string -> Option<string>)
    requires Lower(s) == "true" || Lower(s) == "false"
    ensures Detect(Text(s), Missing, loads, floatOf) == Py(JBool(Lower(s) == "true"))
  {
    assert LowerChar(s[0]) == Lower(s)[0] && LowerChar(s[|s| - 1]) == Lower(s)[|s| - 1];
    PrintableIsNotSpace(s[0]);
    PrintableIsNotSpace(s[|s| - 1]);
    assert LeadingSpace(s) == 0;
    assert s[0..] == s;
    assert TrailingSpace(s) == 0;
    assert Strip(s) == s;
    assert !Bracketed(s) by {
      assert LowerChar(s[0]) == Lower(s)[0];
    }
  }

  // ---------------------------------------------------------------------------
  // process_entity
  // ---------------------------------------------------------------------------

  /** `json.dumps` for lists and dicts: what the table stores instead of a structure. */
  function Store(v: Value, dumps: Json -> string): (r: Value)
    ensures Flat(r)
    ensures Flat(v) ==> r == v
    ensures !Flat(v) ==> r == Py(JStr(dumps(v.v)))
  {
    if v.Py? && (v.v.JList? || v.v.JObj?) then Py(JStr(dumps(v.v))) else v
  }

  /** A value the table can store: neither a list nor a dict. */
  predicate Flat(v: Value) {
    v.Float? || !(v.v.JList? || v.v.JObj?)
  }

  /** Every column of the frame has a cell in the row. */
  predicate Framed(row: map<string, Cell>, columns: seq<string>) {
    forall c :: c in columns ==> c in row
  }

  /** Lines 156-163: a column that is neither a type column nor a missing cell becomes a property. */
  predicate Kept(row: map<string, Cell>, column: string)
    requires column in row
  {
    !EndsWith(column, "@type") && !row[column].Missing?
  }

  /** Lines 166-169: the cell of the column's type column when there is one and it is present. */
  function Hint(row: map<string, Cell>, columns: seq<string>, column: string): (r: Cell)
    requires Framed(row, columns)
    ensures !r.Missing? ==> column + "@type" in columns && r == row[column + "@type"]
    ensures column + "@type" in columns && !row[column + "@type"].Missing? ==> r == row[column + "@type"]
  {
    var typeColumn := column + "@type";
    if typeColumn in columns && !row[typeColumn].Missing? then row[typeColumn] else Missing
  }

  /** What a kept column stores: its cell converted under its hint, structures as JSON text. */
  function Converted(row: map<string, Cell>, columns: seq<string>, column: string, loads: string -> Option<Json>,
                     floatOf: string -> Option<string>, dumps: Json -> string): Value
    requires Framed(row, columns) && column in row
  {
    Store(Detect(row[column], Hint(row, columns, column), loads, floatOf), dumps)
  }

  /** The entity built from the first `n` columns. */
  function Entity(row: map<string, Cell>, columns: seq<string>, n: nat, loads: string -> Option<Json>,
                  floatOf: string -> Option<string>, dumps: Json -> string): (e: map<string, Value>)
    requires Framed(row, columns) && n <= |columns|
    ensures forall c :: c in e <==> c in columns[..n] && Kept(row, c)
    ensures forall c :: c in e ==> e[c] == Converted(row, columns, c, loads, floatOf, dumps)
    decreases n
  {
    if n == 0 then map[]
    else
      var e := Entity(row, columns, n - 1, loads, floatOf, dumps);
      var column := columns[n - 1];
      assert columns[..n] == columns[..n - 1] + [column];
      if Kept(row, column) then e[column := Converted(row, columns, column, loads, floatOf, dumps)] else e
  }

  /**
   * The entity `process_entity(row, df.columns)` builds: a property for
   * exactly the kept columns, each holding its converted cell, none a
   * list or a dict.
   */
  function EntityOf(row: map<string, Cell>, columns: seq<string>, loads: string -> Option<Json>,
                    floatOf: string -> Option<string>, dumps: Json -> string): (e: map<string, Value>)
    requires Framed(row, columns)
    ensures forall c :: c in e <==> c in columns && Kept(row, c)
    ensures forall c :: c in e ==> e[c] == Converted(row, columns, c, loads, floatOf, dumps) && Flat(e[c])
  {
    assert columns[..|columns|] == columns;
    Entity(row, columns, |columns|, loads, floatOf, dumps)
  }

  /**
   * `process_entity(row, df_columns)`: a loop over the columns that skips
   * type columns and missing cells and stores every other cell converted.
   */
  method ProcessEntity(row: map<string, Cell>, columns: seq<string>, loads: string -> Option<Json>,
                       floatOf: string -> Option<string>, dumps: Json -> string)
      returns (entity: map<string, Value>)
    requires Framed(row, columns)
    ensures entity == EntityOf(row, columns, loads, floatOf, dumps)
  {
    entity := map[];
    for i := 0 to |columns|
      invariant entity == Entity(row, columns, i, loads, floatOf, dumps)
    {
      var column := columns[i];
      if EndsWith(column, "@type") {
        continue;
      }
      var value := row[column];
      if value.Missing? {
        continue;
      }
      var typeHint := Missing;
      var typeColumn := column + "@type";
      if typeColumn in columns && !row[typeColumn].Missing? {
        typeHint := row[typeColumn];
      }
      var convertedValue := Detect(value, typeHint, loads, floatOf);
      if convertedValue.Py? && (convertedValue.v.JList? || convertedValue.v.JObj?) {
        entity := entity[column := Py(JStr(dumps(convertedValue.v)))];
      } else {
        entity := entity[column := convertedValue];
      }
    }
  }

  // ---------------------------------------------------------------------------
  // main: the key stringification and the upload count
  // ---------------------------------------------------------------------------

  /** `str(v)` of a stored value. */
  function Str(v: Value): string {
    match v
    case Py(j) => PyStr(j)
    case Float(repr) => repr
  }

  /** Lines 237-240: the two table keys, when present, stored as their `str`. */
  function Keyed(e: map<string, Value>): (r: map<string, Value>)
    ensures r.Keys == e.Keys
    ensures forall k :: k in r && k != "PartitionKey" && k != "RowKey" ==> r[k] == e[k]
    ensures "PartitionKey" in r ==> r["PartitionKey"] == Py(JStr(Str(e["PartitionKey"])))
    ensures "RowKey" in r ==> r["RowKey"] == Py(JStr(Str(e["RowKey"])))
  {
    var e1 := if "PartitionKey" in e then e["PartitionKey" := Py(JStr(Str(e["PartitionKey"])))] else e;
    if "RowKey" in e1 then e1["RowKey" := Py(JStr(Str(e1["RowKey"])))] else e1
  }

  /** Lines 237-240 as statements. */
  method StringifyKeys(entity0: map<string, Value>) returns (entity: map<string, Value>)
    ensures entity == Keyed(entity0)
  {
    entity := entity0;
    if "PartitionKey" in entity {
      entity := entity["PartitionKey" := Py(JStr(Str(entity["PartitionKey"])))];
    }
    if "RowKey" in entity {
      entity := entity["RowKey" := Py(JStr(Str(entity["RowKey"])))];
    }
  }

  /** A key that already holds a string is stored as it is. */
  lemma TextKeysUnchanged(e: map<string, Value>, key: string, s: string)
    requires key == "PartitionKey" || key == "RowKey"
    requires key in e && e[key] == Py(JStr(s))
    ensures Keyed(e)[key] == e[key]
  {
  }

  /** An entity whose keys were stringified and so is still flat. */
  lemma KeyedStaysFlat(e: map<string, Value>)
    requires forall k :: k in e ==> Flat(e[k])
    ensures forall k :: k in Keyed(e) ==> Flat(Keyed(e)[k])
  {
  }

  /** How many of the sent entities the table accepted. */
  function Accepted(sent: seq<map<string, Value>>, upsert: (nat, map<string, Value>) -> bool): (n: nat)
    ensures n <= |sent|
  {
    if sent == [] then 0
    else Accepted(sent[..|sent| - 1], upsert) + (if upsert(|sent| - 1, sent[|sent| - 1]) then 1 else 0)
  }

  /** Nothing accepted, nothing counted; everything accepted, everything counted. */
  lemma {:induction false} AcceptedBounds(sent: seq<map<string, Value>>, upsert: (nat, map<string, Value>) -> bool)
    ensures (forall i :: 0 <= i < |sent| ==> upsert(i, sent[i])) ==> Accepted(sent, upsert) == |sent|
    ensures (forall i :: 0 <= i < |sent| ==> !upsert(i, sent[i])) ==> Accepted(sent, upsert) == 0
  {
    if sent != [] {
      var front := sent[..|sent| - 1];
      assert forall i :: 0 <= i < |front| ==> front[i] == sent[i];
      AcceptedBounds(front, upsert);
    }
  }

  /**
   * The upload loop of `main`: every row becomes an entity with its keys
   * stringified and is sent; `upsert` says whether the table took it (an
   * exception is counted as a failed row and the loop goes on).
   */
  method ImportRows(rows: seq<map<string, Cell>>, columns: seq<string>, loads: string -> Option<Json>,
                    floatOf: string -> Option<string>, dumps: Json -> string,
                    upsert: (nat, map<string, Value>) -> bool)
      returns (sent: seq<map<string, Value>>, successfulUploads: nat)
    requires forall row :: row in rows ==> Framed(row, columns)
    ensures |sent| == |rows|
    ensures forall i :: 0 <= i < |rows| ==> sent[i] == Keyed(EntityOf(rows[i], columns, loads, floatOf, dumps))
    ensures successfulUploads == Accepted(sent, upsert) <= |rows|
  {
    sent := [];
    successfulUploads := 0;
    for index := 0 to |rows|
      invariant |sent| == index
      invariant forall i :: 0 <= i < index ==> sent[i] == Keyed(EntityOf(rows[i], columns, loads, floatOf, dumps))
      invariant successfulUploads == Accepted(sent, upsert)
    {
      var row := rows[index];
      var entity := ProcessEntity(row, columns, loads, floatOf, dumps);
      entity := StringifyKeys(entity);
      assert (sent + [entity])[..index] == sent;
      sent := sent + [entity];
      if upsert(index, entity) {
        successfulUploads := successfulUploads + 1;
      }
    }
  }
}
