/**
 * The Slack summaries sent after each property: the serialisers of
 * src/slack_notify.py, src/lock_sync.py and
 * src/sync-locks/sync-locks-function/lock-sync.py. For each serialiser
 * there is a reader that takes a message apart line by line. Reading a
 * serialised summary gives back the property name and the lists it was
 * made from, so no summary loses or misplaces an entry.
 */
module Summaries {
  import opened Common

  /** What a summary reports: a property and its four lists. */
  datatype Report = Report(propertyName: string, changes: Changes)

  // ---------------------------------------------------------------------------
  // Lines
  // ---------------------------------------------------------------------------

  predicate OneLine(s: string) { '\n' !in s }

  predicate AllOneLine(items: seq<string>) {
    forall k :: 0 <= k < |items| ==> OneLine(items[k])
  }

  /** The position of the first newline of `s`, or `|s|`. */
  function LineEnd(s: string): (i: nat)
    ensures i <= |s|
  {
    if s == [] then 0 else if s[0] == '\n' then 0 else 1 + LineEnd(s[1..])
  }

  lemma {:induction false} LineEndOf(x: string, rest: string)
    requires OneLine(x)
    ensures LineEnd(x + "\n" + rest) == |x|
    ensures LineEnd(x) == |x|
  {
    if x != [] {
      assert x[0] in x;
      assert (x + "\n" + rest)[1..] == x[1..] + "\n" + rest;
      assert OneLine(x[1..]) by {
        forall k | 0 <= k < |x| - 1 ensures x[1..][k] != '\n' {
          assert x[1..][k] == x[k + 1];
          assert x[k + 1] in x;
        }
      }
      LineEndOf(x[1..], rest);
    }
  }

  /** `s.split("\n")`: the pieces between the newlines, always at least one. */
  function Lines(s: string): (r: seq<string>)
    ensures |r| >= 1
    decreases |s|
  {
    var i := LineEnd(s);
    if i == |s| then [s] else [s[..i]] + Lines(s[i + 1..])
  }

  /** A line followed by a newline is the first piece of the split. */
  lemma LinesCons(x: string, rest: string)
    requires OneLine(x)
    ensures Lines(x + "\n" + rest) == [x] + Lines(rest)
  {
    var s := x + "\n" + rest;
    LineEndOf(x, rest);
    assert s[..|x|] == x;
    assert s[|x| + 1..] == rest;
  }

  lemma LinesOfLine(x: string)
    requires OneLine(x)
    ensures Lines(x) == [x]
  {
    LineEndOf(x, "");
  }

  // ---------------------------------------------------------------------------
  // Sections of backticked items
  // ---------------------------------------------------------------------------

  const NoneShown := "_-None-_"
  const NoChanges := "_No Changes_"

  /** f"`{item}`". */
  function Quoted(item: string): string {
    "`" + item + "`"
  }

  function QuotedAll(items: seq<string>): (r: seq<string>)
    ensures |r| == |items|
    ensures forall k :: 0 <= k < |items| ==> r[k] == Quoted(items[k])
  {
    seq(|items|, k requires 0 <= k < |items| => Quoted(items[k]))
  }

  /** `"\n".join([f"`{item}`" for item in items]) if items else "_-None-_"`. */
  function Body(items: seq<string>): string {
    if items == [] then NoneShown else Join(QuotedAll(items), "\n")
  }

  /** `title + ":\n" + body + "\n"`, one section of a summary. */
  function Section(title: string, items: seq<string>): string {
    title + ":\n" + Body(items) + "\n"
  }

  /** The lines a section occupies. */
  function SectionLines(title: string, items: seq<string>): seq<string> {
    [title + ":"] + (if items == [] then [NoneShown] else QuotedAll(items))
  }

  /** A line made by `Quoted`. */
  predicate IsQuoted(l: string) {
    |l| >= 2 && l[0] == '`' && l[|l| - 1] == '`'
  }

  function Unquote(l: string): string
    requires IsQuoted(l)
  {
    l[1..|l| - 1]
  }

  /** The number of quoted lines at the head of `ls`. */
  function QuotedPrefix(ls: seq<string>): (n: nat)
    ensures n <= |ls|
    ensures forall k :: 0 <= k < n ==> IsQuoted(ls[k])
    ensures n < |ls| ==> !IsQuoted(ls[n])
  {
    if ls == [] || !IsQuoted(ls[0]) then 0 else 1 + QuotedPrefix(ls[1..])
  }

  function UnquoteAll(ls: seq<string>): (r: seq<string>)
    requires forall k :: 0 <= k < |ls| ==> IsQuoted(ls[k])
    ensures |r| == |ls|
  {
    seq(|ls|, k requires 0 <= k < |ls| && forall j :: 0 <= j < |ls| ==> IsQuoted(ls[j]) => Unquote(ls[k]))
  }

  /** Reads the section headed `title` at the head of `ls`: its items and the lines after it. */
  function ReadSection(ls: seq<string>, title: string): Option<(seq<string>, seq<string>)> {
    if |ls| < 2 || ls[0] != title + ":" then None
    else if ls[1] == NoneShown then Some(([], ls[2..]))
    else
      var rest := ls[1..];
      var n := QuotedPrefix(rest);
      if n == 0 then None else Some((UnquoteAll(rest[..n]), rest[n..]))
  }

  lemma QuotedOneLine(x: string)
    requires OneLine(x)
    ensures OneLine(Quoted(x))
  {
    var q := Quoted(x);
    forall k | 0 <= k < |q| ensures q[k] != '\n' {
      if 0 < k < |q| - 1 { assert q[k] == x[k - 1]; assert x[k - 1] in x; }
    }
  }

  lemma QuotedCons(items: seq<string>)
    requires items != []
    ensures QuotedAll(items) == [Quoted(items[0])] + QuotedAll(items[1..])
  {
  }

  lemma JoinCons(x: string, ys: seq<string>, sep: string)
    requires ys != []
    ensures Join([x] + ys, sep) == x + sep + Join(ys, sep)
  {
    assert ([x] + ys)[1..] == ys;
  }

  lemma TailOneLine(items: seq<string>)
    requires items != [] && AllOneLine(items)
    ensures OneLine(items[0]) && AllOneLine(items[1..])
  {
    forall k | 0 <= k < |items| - 1 ensures OneLine(items[1..][k]) { assert items[1..][k] == items[k + 1]; }
  }

  /** The items of a section are written one per line; the rest of the message follows. */
  lemma {:induction false} BodyLines(items: seq<string>, rest: string)
    requires items != [] && AllOneLine(items)
    ensures Lines(Join(QuotedAll(items), "\n") + "\n" + rest) == QuotedAll(items) + Lines(rest)
  {
    var head := Quoted(items[0]);
    TailOneLine(items);
    QuotedOneLine(items[0]);
    QuotedCons(items);
    if |items| == 1 {
      assert QuotedAll(items) == [head];
      LinesCons(head, rest);
    } else {
      var qt := QuotedAll(items[1..]);
      var jt := Join(qt, "\n");
      JoinCons(head, qt, "\n");
      BodyLines(items[1..], rest);
      assert Join(QuotedAll(items), "\n") + "\n" + rest == head + "\n" + (jt + "\n" + rest);
      LinesCons(head, jt + "\n" + rest);
    }
  }

  /** A section followed by more text splits into the section's lines and the lines of the rest. */
  lemma SectionSplits(title: string, items: seq<string>, rest: string)
    requires OneLine(title) && AllOneLine(items)
    ensures Lines(Section(title, items) + rest) == SectionLines(title, items) + Lines(rest)
  {
    var h := title + ":";
    assert OneLine(h) by {
      forall k | 0 <= k < |h| ensures h[k] != '\n' {
        if k < |title| { assert h[k] == title[k]; assert title[k] in title; }
      }
    }
    assert Section(title, items) + rest == h + "\n" + (Body(items) + "\n" + rest);
    LinesCons(h, Body(items) + "\n" + rest);
    if items == [] {
      assert OneLine(NoneShown);
      LinesCons(NoneShown, rest);
    } else {
      BodyLines(items, rest);
    }
  }

  lemma {:induction false} UnquoteQuoted(items: seq<string>)
    ensures forall k :: 0 <= k < |QuotedAll(items)| ==> IsQuoted(QuotedAll(items)[k])
    ensures UnquoteAll(QuotedAll(items)) == items
  {
    var q := QuotedAll(items);
    forall k | 0 <= k < |items| ensures IsQuoted(q[k]) && Unquote(q[k]) == items[k] {
      assert q[k] == "`" + items[k] + "`";
    }
  }

  /** A section reads back as its items when the line after it is not an item. */
  lemma ReadSectionLines(title: string, items: seq<string>, more: seq<string>)
    requires more != [] && !IsQuoted(more[0])
    ensures ReadSection(SectionLines(title, items) + more, title) == Some((items, more))
  {
    var ls := SectionLines(title, items) + more;
    if items == [] {
      assert ls[1] == NoneShown;
      assert ls[2..] == more;
    } else {
      var q := QuotedAll(items);
      UnquoteQuoted(items);
      assert ls[1..] == q + more;
      assert ls[1] == q[0] && q[0] == "`" + items[0] + "`";
      assert ls[1] != NoneShown by { assert ls[1][0] == '`'; }
      assert QuotedPrefix(q + more) == |q| by { QuotedHead(q, more); }
      assert (q + more)[..|q|] == q;
      assert (q + more)[|q|..] == more;
    }
  }

  lemma {:induction false} QuotedHead(q: seq<string>, more: seq<string>)
    requires forall k :: 0 <= k < |q| ==> IsQuoted(q[k])
    requires more != [] && !IsQuoted(more[0])
    ensures QuotedPrefix(q + more) == |q|
  {
    if q == [] {
      assert (q + more)[0] == more[0];
    } else {
      assert (q + more)[1..] == q[1..] + more;
      QuotedHead(q[1..], more);
    }
  }

  function Header(propertyName: string): string {
    "Property: " + propertyName
  }

  /** The property name on the first line of a summary. */
  function ReadHeader(l: string): Option<string> {
    if StartsWith(l, "Property: ") then Some(l[10..]) else None
  }

  lemma ReadHeaderOf(propertyName: string)
    ensures ReadHeader(Header(propertyName)) == Some(propertyName)
  {
    assert Header(propertyName)[..10] == "Property: ";
    assert Header(propertyName)[10..] == propertyName;
  }

  lemma OneLineHeader(propertyName: string)
    requires OneLine(propertyName)
    ensures OneLine(Header(propertyName))
  {
    var h := Header(propertyName);
    forall k | 0 <= k < |h| ensures h[k] != '\n' {
      if k >= 10 { assert h[k] == propertyName[k - 10]; assert propertyName[k - 10] in propertyName; }
    }
  }

  /** Nothing in a report breaks a line. */
  predicate Printable(rp: Report) {
    OneLine(rp.propertyName) && AllOneLine(rp.changes.deletions) && AllOneLine(rp.changes.updates)
    && AllOneLine(rp.changes.additions) && AllOneLine(rp.changes.errors)
  }

  /** Reads four sections with the given titles, followed by the empty last line. */
  function ReadSections(ls: seq<string>, titles: (string, string, string, string)): Option<Changes> {
    match ReadSection(ls, titles.0)
    case None => None
    case Some((d, ls1)) =>
      match ReadSection(ls1, titles.1)
      case None => None
      case Some((u, ls2)) =>
        match ReadSection(ls2, titles.2)
        case None => None
        case Some((a, ls3)) =>
          match ReadSection(ls3, titles.3)
          case None => None
          case Some((e, ls4)) => if ls4 == [""] then Some(Changes(d, u, a, e)) else None
  }

  function FourSections(titles: (string, string, string, string), ch: Changes): string {
    Section(titles.0, ch.deletions) + Section(titles.1, ch.updates) + Section(titles.2, ch.additions) + Section(titles.3, ch.errors)
  }

  predicate TitlesOk(titles: (string, string, string, string)) {
    OneLine(titles.0) && OneLine(titles.1) && OneLine(titles.2) && OneLine(titles.3)
    && !IsQuoted(titles.1 + ":") && !IsQuoted(titles.2 + ":") && !IsQuoted(titles.3 + ":")
  }

  /** The lines of four sections are the sections' lines in turn, then the empty remainder. */
  lemma FourSectionsLines(titles: (string, string, string, string), ch: Changes)
    requires OneLine(titles.0) && OneLine(titles.1) && OneLine(titles.2) && OneLine(titles.3)
    requires AllOneLine(ch.deletions) && AllOneLine(ch.updates) && AllOneLine(ch.additions) && AllOneLine(ch.errors)
    ensures Lines(FourSections(titles, ch))
      == SectionLines(titles.0, ch.deletions) + (SectionLines(titles.1, ch.updates)
         + (SectionLines(titles.2, ch.additions) + (SectionLines(titles.3, ch.errors) + [""])))
  {
    var x0, x1, x2, x3 := Section(titles.0, ch.deletions), Section(titles.1, ch.updates), Section(titles.2, ch.additions), Section(titles.3, ch.errors);
    assert FourSections(titles, ch) == x0 + (x1 + (x2 + x3));
    assert Lines(x3) == SectionLines(titles.3, ch.errors) + [""] by {
      assert x3 == x3 + "";
      LinesOfLine("");
      SectionSplits(titles.3, ch.errors, "");
    }
    SectionSplits(titles.2, ch.additions, x3);
    SectionSplits(titles.1, ch.updates, x2 + x3);
    SectionSplits(titles.0, ch.deletions, x1 + (x2 + x3));
  }

  lemma FourSectionsRead(titles: (string, string, string, string), ch: Changes)
    requires TitlesOk(titles)
    requires AllOneLine(ch.deletions) && AllOneLine(ch.updates) && AllOneLine(ch.additions) && AllOneLine(ch.errors)
    ensures ReadSections(Lines(FourSections(titles, ch)), titles) == Some(ch)
  {
    FourSectionsLines(titles, ch);
    var l3 := SectionLines(titles.3, ch.errors) + [""];
    var l2 := SectionLines(titles.2, ch.additions) + l3;
    var l1 := SectionLines(titles.1, ch.updates) + l2;
    assert !IsQuoted("");
    ReadSectionLines(titles.3, ch.errors, [""]);
    ReadSectionLines(titles.2, ch.additions, l3);
    ReadSectionLines(titles.1, ch.updates, l2);
    ReadSectionLines(titles.0, ch.deletions, l1);
  }

  // ---------------------------------------------------------------------------
  // src/slack_notify.py:33-42
  // ---------------------------------------------------------------------------

  const NotifyTitles := ("Deleted", "Updated", "Added", "Errors")

  predicate Unchanged(ch: Changes) {
    ch.deletions == [] && ch.updates == [] && ch.additions == [] && ch.errors == []
  }

  /** `send_summary_slack_message(property_name, deletions, updates, additions, errors)`'s message. */
  function NotifySummary(propertyName: string, ch: Changes): string {
    Header(propertyName) + "\n"
    + (if Unchanged(ch) then NoChanges else FourSections(NotifyTitles, ch))
  }

  function ReadNotify(msg: string): Option<Report> {
    var ls := Lines(msg);
    match ReadHeader(ls[0])
    case None => None
    case Some(name) =>
      if ls[1..] == [NoChanges] then Some(Report(name, Changes([], [], [], [])))
      else
        match ReadSections(ls[1..], NotifyTitles)
        case None => None
        case Some(ch) => if Unchanged(ch) then None else Some(Report(name, ch))
  }

  lemma TitlesOfNotify()
    ensures TitlesOk(NotifyTitles)
  {
    assert ("Updated" + ":")[0] == 'U';
    assert ("Added" + ":")[0] == 'A';
    assert ("Errors" + ":")[0] == 'E';
  }

  /** The message of src/slack_notify.py reads back as the report it was made from. */
  lemma NotifyRoundTrip(rp: Report)
    requires Printable(rp)
    ensures ReadNotify(NotifySummary(rp.propertyName, rp.changes)) == Some(rp)
  {
    var msg := NotifySummary(rp.propertyName, rp.changes);
    OneLineHeader(rp.propertyName);
    ReadHeaderOf(rp.propertyName);
    if Unchanged(rp.changes) {
      assert OneLine(NoChanges);
      LinesCons(Header(rp.propertyName), NoChanges);
      LinesOfLine(NoChanges);
      assert rp.changes == Changes([], [], [], []);
    } else {
      LinesCons(Header(rp.propertyName), FourSections(NotifyTitles, rp.changes));
      TitlesOfNotify();
      FourSectionsRead(NotifyTitles, rp.changes);
      var ls := Lines(msg);
      assert ls[1..] == Lines(FourSections(NotifyTitles, rp.changes));
      assert ls[1..] != [NoChanges] by {
        assert ls[1] == NotifyTitles.0 + ":";
        assert ls[1][0] == 'D';
      }
    }
  }

  // ---------------------------------------------------------------------------
  // src/lock_sync.py:289-295
  // ---------------------------------------------------------------------------

  const LegacyTitles := ("Deleted Codes", "Updated Codes", "Added Codes", "Errors")

  /** The legacy script's summary: the four sections are always present. */
  function LegacySummary(propertyName: string, ch: Changes): string {
    Header(propertyName) + "\n" + FourSections(LegacyTitles, ch)
  }

  function ReadLegacy(msg: string): Option<Report> {
    var ls := Lines(msg);
    match ReadHeader(ls[0])
    case None => None
    case Some(name) =>
      match ReadSections(ls[1..], LegacyTitles)
      case None => None
      case Some(ch) => Some(Report(name, ch))
  }

  /** The legacy summary reads back as the report it was made from. */
  lemma LegacyRoundTrip(rp: Report)
    requires Printable(rp)
    ensures ReadLegacy(LegacySummary(rp.propertyName, rp.changes)) == Some(rp)
  {
    OneLineHeader(rp.propertyName);
    ReadHeaderOf(rp.propertyName);
    LinesCons(Header(rp.propertyName), FourSections(LegacyTitles, rp.changes));
    assert ("Updated Codes" + ":")[0] == 'U';
    assert ("Added Codes" + ":")[0] == 'A';
    assert ("Errors" + ":")[0] == 'E';
    FourSectionsRead(LegacyTitles, rp.changes);
  }

  // ---------------------------------------------------------------------------
  // src/sync-locks/sync-locks-function/lock-sync.py:250-255
  // ---------------------------------------------------------------------------

  /** `title + ":\n" + "\n".join(items) + "\n"`: plain items, an empty list as an empty line. */
  function PlainSection(title: string, items: seq<string>): string {
    title + ":\n" + Join(items, "\n") + "\n"
  }

  /** The oldest script's summary: three sections of unquoted items, no errors. */
  function OldestSummary(propertyName: string, deletions: seq<string>, updates: seq<string>, additions: seq<string>): string {
    Header(propertyName) + "\n"
    + PlainSection("Deleted Codes", deletions) + PlainSection("Updated Codes", updates) + PlainSection("Added Codes", additions)
  }

  /** The position of the first line equal to `l`, or `|ls|`. */
  function LineIndex(ls: seq<string>, l: string): (i: nat)
    ensures i <= |ls|
    ensures forall k :: 0 <= k < i ==> ls[k] != l
    ensures i < |ls| ==> ls[i] == l
  {
    if ls == [] then 0 else if ls[0] == l then 0 else 1 + LineIndex(ls[1..], l)
  }

  /** The items between a header and the line `next`; a lone empty line is no items. */
  function ReadPlain(ls: seq<string>, title: string, next: string): Option<(seq<string>, seq<string>)> {
    if ls == [] || ls[0] != title + ":" then None
    else
      var rest := ls[1..];
      var i := LineIndex(rest, next);
      if i == |rest| then None
      else Some((if rest[..i] == [""] then [] else rest[..i], rest[i..]))
  }

  function ReadOldest(msg: string): Option<Report> {
    var ls := Lines(msg);
    match ReadHeader(ls[0])
    case None => None
    case Some(name) =>
      match ReadPlain(ls[1..], "Deleted Codes", "Updated Codes:")
      case None => None
      case Some((d, ls1)) =>
        match ReadPlain(ls1, "Updated Codes", "Added Codes:")
        case None => None
        case Some((u, ls2)) =>
          if |ls2| < 2 || ls2[0] != "Added Codes:" || ls2[|ls2| - 1] != "" then None
          else
            var a := ls2[1..|ls2| - 1];
            Some(Report(name, Changes(d, u, if a == [""] then [] else a, [])))
  }

  /** The oldest script's entries are all guest names. */
  predicate GuestItems(items: seq<string>) {
    forall k :: 0 <= k < |items| ==> StartsWith(items[k], "Guest") && OneLine(items[k])
  }

  lemma {:induction false} JoinLines(items: seq<string>, rest: string)
    requires items != [] && AllOneLine(items)
    ensures Lines(Join(items, "\n") + "\n" + rest) == items + Lines(rest)
  {
    assert OneLine(items[0]);
    if |items| == 1 {
      LinesCons(items[0], rest);
    } else {
      var tail := items[1..];
      assert AllOneLine(tail) by {
        forall k | 0 <= k < |tail| ensures OneLine(tail[k]) { assert tail[k] == items[k + 1]; }
      }
      JoinLines(tail, rest);
      assert Join(items, "\n") + "\n" + rest == items[0] + "\n" + (Join(tail, "\n") + "\n" + rest);
      LinesCons(items[0], Join(tail, "\n") + "\n" + rest);
    }
  }

  function PlainLines(title: string, items: seq<string>): seq<string> {
    [title + ":"] + (if items == [] then [""] else items)
  }

  lemma PlainSplits(title: string, items: seq<string>, rest: string)
    requires OneLine(title + ":") && AllOneLine(items)
    ensures Lines(PlainSection(title, items) + rest) == PlainLines(title, items) + Lines(rest)
  {
    var h := title + ":";
    assert PlainSection(title, items) + rest == h + "\n" + (Join(items, "\n") + "\n" + rest);
    LinesCons(h, Join(items, "\n") + "\n" + rest);
    if items == [] {
      assert Join(items, "\n") + "\n" + rest == "" + "\n" + rest;
      LinesCons("", rest);
    } else {
      JoinLines(items, rest);
    }
  }

  lemma GuestItemsOneLine(items: seq<string>)
    requires GuestItems(items)
    ensures AllOneLine(items)
  {
  }

  lemma ReadPlainLines(title: string, items: seq<string>, next: string, more: seq<string>)
    requires GuestItems(items) && !StartsWith(next, "Guest") && next != ""
    requires more != [] && more[0] == next
    ensures ReadPlain(PlainLines(title, items) + more, title, next) == Some((items, more))
  {
    var ls := PlainLines(title, items) + more;
    var body := if items == [] then [""] else items;
    assert ls[1..] == body + more;
    forall k | 0 <= k < |body| ensures body[k] != next {
      if items != [] { assert StartsWith(items[k], "Guest"); }
    }
    assert LineIndex(body + more, next) == |body| by { LineIndexAfter(body, more, next); }
    assert (body + more)[..|body|] == body;
    assert (body + more)[|body|..] == more;
    if items != [] {
      assert body != [""] by { assert StartsWith(items[0], "Guest"); }
    }
  }

  lemma {:induction false} LineIndexAfter(body: seq<string>, more: seq<string>, next: string)
    requires forall k :: 0 <= k < |body| ==> body[k] != next
    requires more != [] && more[0] == next
    ensures LineIndex(body + more, next) == |body|
  {
    if body == [] {
      assert (body + more)[0] == next;
    } else {
      assert (body + more)[1..] == body[1..] + more;
      LineIndexAfter(body[1..], more, next);
    }
  }

  lemma Regroup(a: string, b: string, c: string, d: string)
    ensures a + b + c + d == a + (b + (c + d))
  {
  }

  lemma NotGuest(s: string)
    requires s != [] && s[0] != 'G'
    ensures !StartsWith(s, "Guest") && s != ""
  {
  }

  /** The lines of the oldest script's summary. */
  lemma OldestLines(propertyName: string, deletions: seq<string>, updates: seq<string>, additions: seq<string>)
    requires OneLine(propertyName) && GuestItems(deletions) && GuestItems(updates) && GuestItems(additions)
    ensures Lines(OldestSummary(propertyName, deletions, updates, additions))
      == [Header(propertyName)] + (PlainLines("Deleted Codes", deletions) + (PlainLines("Updated Codes", updates)
         + (PlainLines("Added Codes", additions) + [""])))
  {
    var s3 := PlainSection("Added Codes", additions);
    var s2 := PlainSection("Updated Codes", updates) + s3;
    var s1 := PlainSection("Deleted Codes", deletions) + s2;
    Regroup(Header(propertyName) + "\n", PlainSection("Deleted Codes", deletions), PlainSection("Updated Codes", updates), s3);
    var l3 := PlainLines("Added Codes", additions) + [""];
    var l2 := PlainLines("Updated Codes", updates) + l3;
    var l1 := PlainLines("Deleted Codes", deletions) + l2;
    assert Lines(s3) == l3 by {
      assert s3 == s3 + "";
      LinesOfLine("");
      PlainSplits("Added Codes", additions, "");
    }
    assert Lines(s2) == l2 by { PlainSplits("Updated Codes", updates, s3); }
    assert Lines(s1) == l1 by { PlainSplits("Deleted Codes", deletions, s2); }
    OneLineHeader(propertyName);
    LinesCons(Header(propertyName), s1);
  }

  /** The last section of the oldest summary: the lines before the closing empty line. */
  lemma ReadLastPlain(additions: seq<string>)
    requires GuestItems(additions)
    ensures var ls2 := PlainLines("Added Codes", additions) + [""];
      |ls2| >= 2 && ls2[0] == "Added Codes:" && ls2[|ls2| - 1] == ""
      && (if ls2[1..|ls2| - 1] == [""] then [] else ls2[1..|ls2| - 1]) == additions
  {
    var body := if additions == [] then [""] else additions;
    var ls2 := PlainLines("Added Codes", additions) + [""];
    assert ls2[1..|ls2| - 1] == body;
    if additions != [] {
      assert body != [""] by { assert StartsWith(additions[0], "Guest"); }
    }
  }

  /**
   * The oldest script's summary reads back as the lists it was made from,
   * given entries that are guest names on one line each.
   */
  lemma OldestRoundTrip(propertyName: string, deletions: seq<string>, updates: seq<string>, additions: seq<string>)
    requires OneLine(propertyName) && GuestItems(deletions) && GuestItems(updates) && GuestItems(additions)
    ensures ReadOldest(OldestSummary(propertyName, deletions, updates, additions))
      == Some(Report(propertyName, Changes(deletions, updates, additions, [])))
  {
    OldestLines(propertyName, deletions, updates, additions);
    ReadHeaderOf(propertyName);
    var l3 := PlainLines("Added Codes", additions) + [""];
    var l2 := PlainLines("Updated Codes", updates) + l3;
    var l1 := PlainLines("Deleted Codes", deletions) + l2;
    var ls := Lines(OldestSummary(propertyName, deletions, updates, additions));
    assert ls == [Header(propertyName)] + l1;
    assert ls[0] == Header(propertyName) && ls[1..] == l1;
    NotGuest("Updated Codes:");
    NotGuest("Added Codes:");
    ReadPlainLines("Deleted Codes", deletions, "Updated Codes:", l2);
    ReadPlainLines("Updated Codes", updates, "Added Codes:", l3);
    ReadLastPlain(additions);
  }

  /** The oldest summary cannot tell an empty list from a list of one empty name. */
  lemma OldestConflatesEmpty(propertyName: string)
    ensures OldestSummary(propertyName, [], [], []) == OldestSummary(propertyName, [""], [], [])
  {
  }
}
