/**
 * The helpers of src/utilty.py other than `format_datetime` (which is
 * `Clock.FormatDatetime`): set difference of label lists, filtering a
 * device configuration by its "when" field, and the rest-hour test.
 */
module Utility {
  import opened Common
  import opened Json
  import Clock

  /**
   * `subtract_string_lists(l1, l2)`: `list(set(l1) - set(l2))`. Python
   * iterates the set in hash order; the model lists each element at its
   * first occurrence in `l1`.
   */
  function SubtractStringLists(l1: seq<string>, l2: seq<string>): (r: seq<string>)
    ensures forall x :: x in r <==> x in l1 && x !in l2
    ensures NoDuplicates(r)
  {
    if l1 == [] then []
    else
      var init := l1[..|l1| - 1];
      var x := l1[|l1| - 1];
      assert l1 == init + [x];
      var rest := SubtractStringLists(init, l2);
      if x in l2 || x in rest then rest else rest + [x]
  }

  /** Nothing is left when every element of `l1` is also in `l2`. */
  lemma {:induction false} SubtractCovered(l1: seq<string>, l2: seq<string>)
    requires forall x :: x in l1 ==> x in l2
    ensures SubtractStringLists(l1, l2) == []
  {
    if l1 != [] {
      var init := l1[..|l1| - 1];
      assert l1 == init + [l1[|l1| - 1]];
      assert forall x :: x in init ==> x in l1;
      SubtractCovered(init, l2);
    }
  }

  // ---------------------------------------------------------------------------
  // filter_by_key
  // ---------------------------------------------------------------------------

  /** `item.get("when") == key_value` for a dict item. */
  predicate WhenIs(item: Json, keyValue: string)
    requires item.JObj?
  {
    "when" in item.fields && item.fields["when"] == JStr(keyValue)
  }

  predicate AllObjects(items: seq<Json>) {
    forall i :: 0 <= i < |items| ==> items[i].JObj?
  }

  /** The comprehension `[item for item in items if item.get("when") == key_value]`. */
  function Matching(items: seq<Json>, keyValue: string): (r: seq<Json>)
    requires AllObjects(items)
    ensures forall x :: x in r <==> x in items && WhenIs(x, keyValue)
    ensures |r| <= |items|
  {
    if items == [] then []
    else if WhenIs(items[0], keyValue) then [items[0]] + Matching(items[1..], keyValue)
    else Matching(items[1..], keyValue)
  }

  /** The filter keeps order: it distributes over concatenation. */
  lemma {:induction false} MatchingAppend(a: seq<Json>, b: seq<Json>, keyValue: string)
    requires AllObjects(a) && AllObjects(b)
    ensures AllObjects(a + b)
    ensures Matching(a + b, keyValue) == Matching(a, keyValue) + Matching(b, keyValue)
  {
    forall i | 0 <= i < |a + b| ensures (a + b)[i].JObj? {
      if i < |a| { assert (a + b)[i] == a[i]; } else { assert (a + b)[i] == b[i - |a|]; }
    }
    if a == [] {
      assert a + b == b;
    } else {
      assert (a + b)[0] == a[0];
      assert (a + b)[1..] == a[1..] + b;
      MatchingAppend(a[1..], b, keyValue);
    }
  }

  /** `device.get(sub_key, [])`. */
  function SubItems(device: map<string, Json>, subKey: string): Json {
    Get(device, subKey, JList([]))
  }

  /** `for x in v` runs at all: lists, strings and dicts are iterable, None, booleans and numbers are not. */
  predicate Iterable(v: Json) {
    v.JList? || v.JStr? || v.JObj?
  }

  /** `for x in v` yields `x`: a list its items, a string its one-character strings, a dict its keys. */
  predicate Yields(v: Json, x: Json) {
    match v
    case JList(items) => x in items
    case JStr(s) => exists i :: 0 <= i < |s| && x == JStr([s[i]])
    case JObj(m) => x.JStr? && x.s in m
    case _ => false
  }

  /** An empty string or dict yields nothing; a non-empty one yields only strings. */
  lemma YieldsStrings(v: Json)
    requires v.JStr? || v.JObj?
    ensures (exists x :: Yields(v, x)) <==> (if v.JStr? then v.s != "" else v.fields != map[])
    ensures forall x :: Yields(v, x) ==> x.JStr?
  {
    if v.JStr? && v.s != "" {
      assert Yields(v, JStr([v.s[0]]));
    } else if v.JObj? && v.fields != map[] {
      var k :| k in v.fields;
      assert Yields(v, JStr(k));
    }
  }

  /**
   * `filter_by_key(device, sub_key, key_value)`: `Raised` where the value
   * at `sub_key` is not iterable or yields a non-dict (`.get` is a dict
   * method); `None` when no item matches; otherwise a copy of `device` in
   * which `sub_key` holds exactly the matching items.
   */
  function FilterByKey(device: map<string, Json>, subKey: string, keyValue: string): (r: Outcome<Option<map<string, Json>>>)
    ensures var sub := SubItems(device, subKey);
      r.Raised? <==> !Iterable(sub) || exists x :: Yields(sub, x) && !x.JObj?
    ensures r.Value? ==> var sub := SubItems(device, subKey);
      (r.value.None? <==> forall x :: Yields(sub, x) ==> x.JObj? && !WhenIs(x, keyValue))
    ensures r.Value? && r.value.Some? ==> var copy := r.value.value;
      && SubItems(device, subKey).JList?
      && copy.Keys == device.Keys + {subKey}
      && copy[subKey] == JList(Matching(SubItems(device, subKey).items, keyValue))
      && (forall k :: k in device && k != subKey ==> copy[k] == device[k])
  {
    var sub := SubItems(device, subKey);
    match sub
    case JList(items) =>
      if !AllObjects(items) then Raised
      else
        var kept := Matching(items, keyValue);
        if kept == [] then
          assert forall x :: x in items ==> !WhenIs(x, keyValue);
          Value(None)
        else
          assert kept[0] in kept;
          Value(Some(device[subKey := JList(kept)]))
    case JStr(_) =>
      YieldsStrings(sub);
      if sub.s == "" then Value(None) else Raised
    case JObj(_) =>
      YieldsStrings(sub);
      if sub.fields == map[] then Value(None) else Raised
    case _ => Raised
  }

  /** A string or a dict under `sub_key` matches nothing when empty and raises otherwise. */
  lemma FilterStringOrDict(device: map<string, Json>, subKey: string, keyValue: string)
    requires SubItems(device, subKey).JStr? || SubItems(device, subKey).JObj?
    ensures var sub := SubItems(device, subKey);
      FilterByKey(device, subKey, keyValue) == if (if sub.JStr? then sub.s == "" else sub.fields == map[]) then Value(None) else Raised
  {
    YieldsStrings(SubItems(device, subKey));
  }

  // ---------------------------------------------------------------------------
  // is_valid_hour
  // ---------------------------------------------------------------------------

  /** The hours of the `rest_times` entries, or `None` where an entry is not an "%H:%M" string. */
  function RestHours(entries: seq<Json>): (r: Option<seq<int>>)
    ensures r.Some? <==> forall i :: 0 <= i < |entries| ==> entries[i].JStr? && Clock.ParseHourMinute(entries[i].s).Some?
    ensures r.Some? ==> |r.value| == |entries|
    ensures r.Some? ==> forall i :: 0 <= i < |entries| ==> Clock.ParseHourMinute(entries[i].s) == Some(r.value[i])
  {
    if entries == [] then Some([])
    else
      var first := entries[0];
      if !first.JStr? || Clock.ParseHourMinute(first.s).None? then None
      else
        match RestHours(entries[1..])
        case None => None
        case Some(hours) =>
          var r := [Clock.ParseHourMinute(first.s).value] + hours;
          assert forall i :: 1 <= i < |entries| ==> entries[i] == entries[1..][i - 1];
          Some(r)
  }

  function RestTimes(config: map<string, Json>): Json {
    Get(config, "rest_times", JList([]))
  }

  /** `strptime(x, "%H:%M").hour` for a yielded entry: `None` where it raises, a non-string included. */
  function EntryHour(x: Json): Option<int> {
    if x.JStr? then Clock.ParseHourMinute(x.s) else None
  }

  /**
   * `is_valid_hour(item, current_time)`: whether the hour of `currentTime`
   * is the hour of some entry `rest_times` yields. `Raised` when `item` is
   * None (`None.get`), when `rest_times` is not iterable, or when an entry
   * does not parse; a string yields one-character entries, which never
   * parse, and a dict yields its keys.
   */
  function IsValidHour(item: Option<map<string, Json>>, currentTime: int): (r: Outcome<bool>)
    ensures item.None? ==> r.Raised?
    ensures item.Some? && "rest_times" !in item.value ==> r == Value(false)
    ensures item.Some? ==> var rest := RestTimes(item.value);
      (r.Raised? <==> !Iterable(rest) || exists x :: Yields(rest, x) && EntryHour(x).None?)
    ensures r.Value? ==> var rest := RestTimes(item.value);
      (r.value <==> exists x :: Yields(rest, x) && EntryHour(x) == Some(Clock.HourOf(currentTime)))
  {
    match item
    case None => Raised
    case Some(config) =>
      var rest := RestTimes(config);
      match rest
      case JList(entries) =>
        (match RestHours(entries)
        case None =>
          var i :| 0 <= i < |entries| && !(entries[i].JStr? && Clock.ParseHourMinute(entries[i].s).Some?);
          assert Yields(rest, entries[i]) && EntryHour(entries[i]).None?;
          Raised
        case Some(hours) =>
          assert forall x :: x in entries ==> EntryHour(x).Some?;
          assert Clock.HourOf(currentTime) in hours <==> exists x :: x in entries && EntryHour(x) == Some(Clock.HourOf(currentTime)) by {
            if Clock.HourOf(currentTime) in hours {
              var j :| 0 <= j < |hours| && hours[j] == Clock.HourOf(currentTime);
              assert entries[j] in entries;
            }
          }
          Value(Clock.HourOf(currentTime) in hours))
      case JStr(s) =>
        YieldsStrings(rest);
        if s == "" then Value(false)
        else
          assert Yields(rest, JStr([s[0]]));
          assert EntryHour(JStr([s[0]])).None?;
          Raised
      case JObj(m) =>
        if forall k :: k in m ==> Clock.ParseHourMinute(k).Some? then
          var named := exists k :: k in m && Clock.ParseHourMinute(k) == Some(Clock.HourOf(currentTime));
          assert named ==> exists x :: Yields(rest, x) && EntryHour(x) == Some(Clock.HourOf(currentTime)) by {
            if named {
              var k :| k in m && Clock.ParseHourMinute(k) == Some(Clock.HourOf(currentTime));
              assert Yields(rest, JStr(k));
            }
          }
          Value(named)
        else
          var k :| k in m && Clock.ParseHourMinute(k).None?;
          assert Yields(rest, JStr(k));
          Raised
      case _ => Raised
  }

  /** A dict under `rest_times` is read by its keys: `{"10:00": true}` names hour 10. */
  lemma RestTimesDictKeys(config: map<string, Json>, currentTime: int)
    requires RestTimes(config) == JObj(map["10:00" := JBool(true)])
    requires Clock.HourOf(currentTime) == 10
    ensures IsValidHour(Some(config), currentTime) == Value(true)
  {
    assert Clock.ParseHourMinute("10:00") == Some(10) by {
      assert "10:00"[..2] == "10";
      assert ParseDigits("10") == 10 by { assert "10"[..1] == "1"; }
    }
  }
}
