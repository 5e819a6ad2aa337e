/**
 * What both live lock engines derive from one reservation before they
 * touch a lock (src/brands/wyze/locks.py:107-149 and
 * src/brands/smartthings/locks.py:65-106): the screening of the guest name
 * and phone number, the four-digit access code and the code's label.
 */
module Reservations {
  import opened Common

  /**
   * A value of a reservation's JSON entry as the engines read it: a missing
   * key, `null`, a boolean, an integer or a string.
   */
  datatype Field = NoKey | Null | Bool(b: bool) | Int(i: int) | Str(s: string)

  /** `type(v).__name__` of a present value. */
  function FieldType(v: Field): string {
    match v
    case Bool(_) => "bool"
    case Int(_) => "int"
    case Str(_) => "str"
    case _ => "NoneType"
  }

  /**
   * A reservation as the engines read it: the guest name and the phone as
   * the listing gives them; the check-in and check-out values are strings.
   */
  datatype Reservation = Reservation(guest: Field, phone: Field, checkin: string, checkout: string)

  /** `k not in reservation or not reservation[k]`: a missing key or a falsy value. */
  predicate Missing(v: Field) {
    match v
    case Bool(b) => !b
    case Int(i) => i == 0
    case Str(s) => s == []
    case _ => true
  }

  /** `str(e)` of the AttributeError of `v.split()` on a value that is not a string. */
  function NoSplit(v: Field): string {
    "'" + FieldType(v) + "' object has no attribute 'split'"
  }

  /** `str(e)` of the TypeError of `filter(str.isdigit, v)` on a value that cannot be iterated. */
  function NotIterable(v: Field): string {
    "'" + FieldType(v) + "' object is not iterable"
  }

  /**
   * How the engines screen a reservation, in their order of checks.
   * `GuestRaises` is a truthy guest name that is not a string: `split()`
   * raises AttributeError. `BlankGuest` is a guest name made only of
   * whitespace: it passes the emptiness check, and then `split()[0]`
   * raises IndexError. `PhoneError` is a truthy phone that is not a
   * string: the digit filter raises TypeError, which the engines catch.
   */
  datatype Screening =
    | NoGuest
    | GuestRaises(detail: string)
    | BlankGuest
    | NoPhone(first: string)
    | PhoneError(first: string, detail: string)
    | ShortPhone(first: string)
    | Accepted(first: string, rawCode: string)

  /** The last four of the phone's digits; the engines accept the phone only with at least four. */
  function RawCode(phone: string): (r: string)
    ensures |Digits(phone)| >= 4 ==> |r| == 4 && AllDigits(r) && EndsWith(Digits(phone), r)
  {
    TakeLast(Digits(phone), 4)
  }

  function Screen(r: Reservation): (s: Screening)
    ensures s == NoGuest <==> Missing(r.guest)
    ensures s.GuestRaises? <==> !Missing(r.guest) && !r.guest.Str?
    ensures s.GuestRaises? ==> s.detail == NoSplit(r.guest)
    ensures s == BlankGuest <==> !Missing(r.guest) && r.guest.Str? && AllSpace(r.guest.s)
    ensures s.NoPhone? || s.PhoneError? || s.ShortPhone? || s.Accepted? ==> r.guest.Str? && FirstWord(r.guest.s) == Some(s.first)
    ensures s.NoPhone? <==> !Missing(r.guest) && r.guest.Str? && !AllSpace(r.guest.s) && Missing(r.phone)
    ensures s.PhoneError? <==> !Missing(r.guest) && r.guest.Str? && !AllSpace(r.guest.s) && !Missing(r.phone) && !r.phone.Str?
    ensures s.PhoneError? ==> s.detail == NotIterable(r.phone)
    ensures s.ShortPhone? <==> !Missing(r.guest) && r.guest.Str? && !AllSpace(r.guest.s) && !Missing(r.phone)
                               && r.phone.Str? && |Digits(r.phone.s)| < 4
    ensures s.Accepted? ==> r.phone.Str? && |s.rawCode| == 4 && AllDigits(s.rawCode) && EndsWith(Digits(r.phone.s), s.rawCode)
  {
    if Missing(r.guest) then NoGuest
    else if !r.guest.Str? then GuestRaises(NoSplit(r.guest))
    else
      match FirstWord(r.guest.s)
      case None => BlankGuest
      case Some(first) =>
        if Missing(r.phone) then NoPhone(first)
        else if !r.phone.Str? then PhoneError(first, NotIterable(r.phone))
        else if |Digits(r.phone.s)| < 4 then ShortPhone(first)
        else Accepted(first, RawCode(r.phone.s))
  }

  /**
   * The settings both engines read from their environment: the check-in and
   * check-out offsets in hours, and the bounds on add and verify attempts.
   */
  datatype Config = Config(checkInOffset: int, checkOutOffset: int, addMax: nat, verifyMax: nat)

  /** The entry both engines record for a changed code: `f"{Device.LOCK.value} - {lock_name}: {name}"`. */
  function Entry(lockName: string, name: string): string {
    "Lock - " + lockName + ": " + name
  }

  const GuestPrefix := "Guest "

  /** The check-in date as it appears in a label: `checkin[:10]` without '-'. */
  function DatePart(checkin: string): (d: string)
    ensures '-' !in d && |d| <= 10
  {
    Remove(Take(checkin, 10), '-')
  }

  /** `f"Guest {first} {checkin[:10].replace('-', '')}"`. */
  function Label(first: string, checkin: string): string {
    GuestPrefix + first + " " + DatePart(checkin)
  }

  /**
   * Splits a label back into the first name and the date part: the text
   * after "Guest " up to the next space, and what follows that space.
   */
  function ParseLabel(name: string): (r: Option<(string, string)>)
    ensures r.Some? ==> ' ' !in r.value.0
    ensures r.Some? ==> name == GuestPrefix + r.value.0 + " " + r.value.1
  {
    if !StartsWith(name, GuestPrefix) then None
    else
      var rest := name[|GuestPrefix|..];
      var i := IndexOf(rest, ' ');
      if i == |rest| then None
      else
        assert ' ' !in rest[..i] by {
          forall k | 0 <= k < i ensures rest[..i][k] != ' ' { assert rest[..i][k] == rest[k]; }
        }
        assert rest == rest[..i] + " " + rest[i + 1..];
        assert name == name[..|GuestPrefix|] + rest;
        Some((rest[..i], rest[i + 1..]))
  }

  /** Every label made from a name without spaces reads back as that name and check-in date. */
  lemma ParseMadeLabel(first: string, checkin: string)
    requires ' ' !in first
    ensures ParseLabel(Label(first, checkin)) == Some((first, DatePart(checkin)))
  {
    var name := Label(first, checkin);
    var rest := first + " " + DatePart(checkin);
    assert name == GuestPrefix + rest;
    assert name[..|GuestPrefix|] == GuestPrefix;
    assert name[|GuestPrefix|..] == rest;
    var i := IndexOf(rest, ' ');
    assert rest[|first|] == ' ';
    assert forall k :: 0 <= k < |first| ==> rest[k] != ' ' by {
      forall k | 0 <= k < |first| ensures rest[k] != ' ' {
        assert rest[k] == first[k];
        assert first[k] in first;
      }
    }
    assert i == |first|;
    assert rest[..i] == first;
    assert rest[i + 1..] == DatePart(checkin);
  }

  /**
   * Labels of screened reservations collide exactly when the guests share a
   * first name and the check-in dates agree; the engines do not detect this.
   */
  lemma LabelsCollide(a: Reservation, b: Reservation)
    requires Screen(a).Accepted? && Screen(b).Accepted?
    ensures Label(Screen(a).first, a.checkin) == Label(Screen(b).first, b.checkin)
        <==> Screen(a).first == Screen(b).first && DatePart(a.checkin) == DatePart(b.checkin)
  {
    NoSpaceInWord(Screen(a).first);
    NoSpaceInWord(Screen(b).first);
    ParseMadeLabel(Screen(a).first, a.checkin);
    ParseMadeLabel(Screen(b).first, b.checkin);
  }

  lemma NoSpaceInWord(w: string)
    requires NoSpace(w)
    ensures ' ' !in w
  {
    forall k | 0 <= k < |w| ensures w[k] != ' ' {
      assert !IsSpace(w[k]);
    }
  }

  /** Every label starts with "Guest", the prefix the deletion rules look for. */
  lemma LabelIsGuest(first: string, checkin: string)
    ensures StartsWith(Label(first, checkin), "Guest")
  {
    var name := Label(first, checkin);
    assert name == "Guest" + (" " + first + " " + DatePart(checkin));
    assert name[..5] == "Guest";
  }
}
