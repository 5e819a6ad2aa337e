/**
 * Values and string helpers shared by every module of the model.
 *
 * Python's string methods are modelled on `seq<char>`:
 * `str.split()` and `str.strip()` use exactly the character set of
 * `str.isspace()`; `str.isdigit()` and `str.lower()` are modelled for
 * ASCII characters only.
 */
module Common {

  datatype Option<T> = None | Some(value: T)

  /** An operation whose Python counterpart can raise: `Raised` stands for the exception. */
  datatype Outcome<T> = Value(value: T) | Raised

  /** An operation whose Python counterpart can raise, with `str(e)` of what it raised. */
  datatype Result<T> = Done(value: T) | Threw(detail: string)

  /** `str(e)` of the KeyError that `d[key]` raises for a missing string key. */
  function KeyErrorText(key: string): string {
    "'" + key + "'"
  }

  /** The four lists every lock engine returns: deletions, updates, additions and errors. */
  datatype Changes = Changes(deletions: seq<string>, updates: seq<string>, additions: seq<string>, errors: seq<string>)

  // `str(e)` of the Python exceptions the engines can raise
  /** The TypeError of iterating over None (`for x in None`, `filter_locks(None)`, `find_code(None, ...)`). */
  const NoneNotIterable := "'NoneType' object is not iterable"
  /** The IndexError `split()[0]` raises on a name made only of whitespace. */
  const IndexOutOfRange := "list index out of range"
  /** The UnboundLocalError of reading `verify_attempt` after a verify loop that never ran. */
  const UnboundVerifyAttempt := "cannot access local variable 'verify_attempt' where it is not associated with a value"

  // ---------------------------------------------------------------------------
  // Characters
  // ---------------------------------------------------------------------------

  /** The characters for which Python's `str.isspace()` holds, as inclusive ranges. */
  const SpaceRanges: seq<(char, char)> := [
    (' ', ' '), ('\t', '\r'), ('\U{1c}', '\U{1f}'), ('\U{85}', '\U{85}'), ('\U{a0}', '\U{a0}'),
    ('\U{1680}', '\U{1680}'), ('\U{2000}', '\U{200a}'), ('\U{2028}', '\U{2029}'), ('\U{202f}', '\U{202f}'),
    ('\U{205f}', '\U{205f}'), ('\U{3000}', '\U{3000}')
  ]

  predicate InRanges(c: char, ranges: seq<(char, char)>) {
    ranges != [] && (ranges[0].0 <= c <= ranges[0].1 || InRanges(c, ranges[1..]))
  }

  predicate IsSpace(c: char) {
    InRanges(c, SpaceRanges)
  }

  predicate IsDigit(c: char) { '0' <= c <= '9' }

  /** A character outside every range is in none of them. */
  lemma {:induction false} OutsideRanges(c: char, ranges: seq<(char, char)>)
    requires forall i :: 0 <= i < |ranges| ==> !(ranges[i].0 <= c <= ranges[i].1)
    ensures !InRanges(c, ranges)
  {
    if ranges != [] {
      assert forall i :: 0 <= i < |ranges[1..]| ==> ranges[1..][i] == ranges[i + 1];
      OutsideRanges(c, ranges[1..]);
    }
  }

  /** No printable ASCII character is whitespace. */
  lemma PrintableIsNotSpace(c: char)
    requires '!' <= c <= '~'
    ensures !IsSpace(c)
  {
    OutsideRanges(c, SpaceRanges);
  }

  predicate AllDigits(s: string) { forall i :: 0 <= i < |s| ==> IsDigit(s[i]) }

  predicate AllSpace(s: string) { forall i :: 0 <= i < |s| ==> IsSpace(s[i]) }

  predicate NoSpace(s: string) { forall i :: 0 <= i < |s| ==> !IsSpace(s[i]) }

  function LowerChar(c: char): char {
    if 'A' <= c <= 'Z' then (c as int - 'A' as int + 'a' as int) as char else c
  }

  function UpperChar(c: char): char {
    if 'a' <= c <= 'z' then (c as int - 'a' as int + 'A' as int) as char else c
  }

  predicate IsAlpha(c: char) { 'a' <= c <= 'z' || 'A' <= c <= 'Z' }

  // ---------------------------------------------------------------------------
  // Prefixes and suffixes
  // ---------------------------------------------------------------------------

  predicate StartsWith(s: string, prefix: string) {
    |prefix| <= |s| && s[..|prefix|] == prefix
  }

  predicate EndsWith(s: string, suffix: string) {
    |suffix| <= |s| && s[|s| - |suffix|..] == suffix
  }

  /** Python's `s[:n]`: the first `n` characters, or all of them when `s` is shorter. */
  function Take(s: string, n: nat): (r: string)
    ensures |r| == if |s| < n then |s| else n
    ensures StartsWith(s, r)
  {
    if |s| <= n then s else s[..n]
  }

  /** Python's `s[-n:]` for `n > 0`: the last `n` characters, or all of them. */
  function TakeLast(s: string, n: nat): (r: string)
    ensures |r| == if |s| < n then |s| else n
    ensures EndsWith(s, r)
  {
    if |s| <= n then s else s[|s| - n..]
  }

  /** `s.find(c)`, with `|s|` standing for "not found". */
  function IndexOf(s: string, c: char): (i: nat)
    ensures i <= |s| && (forall k :: 0 <= k < i ==> s[k] != c) && (i < |s| ==> s[i] == c)
  {
    if s == [] then 0 else if s[0] == c then 0 else 1 + IndexOf(s[1..], c)
  }

  // ---------------------------------------------------------------------------
  // Character filters
  // ---------------------------------------------------------------------------

  /** `''.join(filter(str.isdigit, s))`: the digits of `s`, in order. */
  function Digits(s: string): (r: string)
    ensures AllDigits(r) && |r| <= |s|
  {
    if s == [] then []
    else if IsDigit(s[0]) then [s[0]] + Digits(s[1..])
    else Digits(s[1..])
  }

  /** A prefix one element longer is the prefix with that element appended. */
  lemma TakeOneMore<T>(s: seq<T>, i: nat)
    requires i < |s|
    ensures s[..i + 1] == s[..i] + [s[i]]
  {
  }

  lemma {:induction false} DigitsAppend(a: string, b: string)
    ensures Digits(a + b) == Digits(a) + Digits(b)
  {
    if a == [] {
      assert a + b == b;
    } else {
      assert (a + b)[1..] == a[1..] + b;
      DigitsAppend(a[1..], b);
    }
  }

  lemma {:induction false} DigitsOfDigits(s: string)
    requires AllDigits(s)
    ensures Digits(s) == s
  {
    if s != [] {
      DigitsOfDigits(s[1..]);
    }
  }

  /** `s.replace(c, '')`: `s` without any occurrence of `c`. */
  function Remove(s: string, c: char): (r: string)
    ensures c !in r && |r| <= |s|
    ensures forall x :: x in r <==> x in s && x != c
  {
    if s == [] then []
    else if s[0] == c then Remove(s[1..], c)
    else [s[0]] + Remove(s[1..], c)
  }

  function Lower(s: string): (r: string)
    ensures |r| == |s| && forall i :: 0 <= i < |s| ==> r[i] == LowerChar(s[i])
  {
    if s == [] then [] else [LowerChar(s[0])] + Lower(s[1..])
  }

  // ---------------------------------------------------------------------------
  // Whitespace: str.strip() and str.split()[0]
  // ---------------------------------------------------------------------------

  /** The number of whitespace characters `s` starts with. */
  function LeadingSpace(s: string): (k: nat)
    ensures k <= |s|
    ensures forall i :: 0 <= i < k ==> IsSpace(s[i])
    ensures k == |s| || !IsSpace(s[k])
  {
    if s == [] || !IsSpace(s[0]) then 0 else 1 + LeadingSpace(s[1..])
  }

  /** The number of whitespace characters `s` ends with. */
  function TrailingSpace(s: string): (k: nat)
    ensures k <= |s|
    ensures forall i :: |s| - k <= i < |s| ==> IsSpace(s[i])
    ensures k == |s| || !IsSpace(s[|s| - 1 - k])
  {
    if s == [] || !IsSpace(s[|s| - 1]) then 0 else 1 + TrailingSpace(s[..|s| - 1])
  }

  /** `s.strip()`: `s` without leading and trailing whitespace. */
  function Strip(s: string): (r: string)
    ensures r == [] || (!IsSpace(r[0]) && !IsSpace(r[|r| - 1]))
  {
    var t := s[LeadingSpace(s)..];
    t[..|t| - TrailingSpace(t)]
  }

  /** What `Strip` removes is whitespace on either side: `s` is whitespace, `Strip(s)`, whitespace. */
  lemma StripShape(s: string) returns (k: nat)
    ensures k + |Strip(s)| <= |s| && s[k..k + |Strip(s)|] == Strip(s)
    ensures forall i :: 0 <= i < k ==> IsSpace(s[i])
    ensures forall i :: k + |Strip(s)| <= i < |s| ==> IsSpace(s[i])
  {
    k := LeadingSpace(s);
    var t := s[k..];
    var n := |t| - TrailingSpace(t);
    assert Strip(s) == t[..n];
    assert s[k..k + n] == t[..n];
    forall i | k + n <= i < |s| ensures IsSpace(s[i]) {
      assert s[i] == t[i - k];
    }
  }

  lemma {:induction false} LeadingSpaceOf(lead: string, t: string)
    requires AllSpace(lead) && t != [] && !IsSpace(t[0])
    ensures LeadingSpace(lead + t) == |lead|
  {
    if lead != [] {
      assert (lead + t)[1..] == lead[1..] + t;
      LeadingSpaceOf(lead[1..], t);
    } else {
      assert lead + t == t;
    }
  }

  lemma {:induction false} LeadingSpaceAll(s: string)
    requires AllSpace(s)
    ensures LeadingSpace(s) == |s|
  {
    if s != [] {
      LeadingSpaceAll(s[1..]);
    }
  }

  lemma {:induction false} TrailingSpaceOf(t: string, trail: string)
    requires AllSpace(trail) && t != [] && !IsSpace(t[|t| - 1])
    ensures TrailingSpace(t + trail) == |trail|
  {
    if trail != [] {
      var last := |trail| - 1;
      assert (t + trail)[..|t + trail| - 1] == t + trail[..last];
      TrailingSpaceOf(t, trail[..last]);
    } else {
      assert t + trail == t;
    }
  }

  /** Whitespace around a stripped string is exactly what `Strip` removes. */
  lemma StripPadded(lead: string, s: string, trail: string)
    requires AllSpace(lead) && AllSpace(trail) && s == Strip(s)
    ensures Strip(lead + s + trail) == s
  {
    var x := lead + s + trail;
    if s == [] {
      assert x == lead + trail;
      LeadingSpaceAll(x);
    } else {
      assert x == lead + (s + trail);
      assert (s + trail)[0] == s[0];
      LeadingSpaceOf(lead, s + trail);
      assert x[|lead|..] == s + trail;
      TrailingSpaceOf(s, trail);
      assert (s + trail)[..|s|] == s;
    }
  }

  /** A string that neither starts nor ends with whitespace is its own strip. */
  lemma StripClean(t: string)
    requires t != [] && !IsSpace(t[0]) && !IsSpace(t[|t| - 1])
    ensures Strip(t) == t
  {
    LeadingSpaceOf([], t);
    assert [] + t == t;
    TrailingSpaceOf(t, []);
    assert t + [] == t;
  }

  /** The longest prefix of `s` that holds no whitespace. */
  function Word(s: string): (w: string)
    ensures StartsWith(s, w) && NoSpace(w)
    ensures |w| == |s| || IsSpace(s[|w|])
  {
    if s == [] || IsSpace(s[0]) then [] else [s[0]] + Word(s[1..])
  }

  /**
   * `s.split()[0]`, or `None` where Python raises IndexError because `s`
   * holds no word (it is empty or all whitespace).
   */
  function FirstWord(s: string): (r: Option<string>)
    ensures r.None? <==> AllSpace(s)
    ensures r.Some? ==> (r.value != [] && NoSpace(r.value) &&
      exists k :: 0 <= k && k + |r.value| <= |s| && AllSpace(s[..k]) && s[k..k + |r.value|] == r.value
                  && (k + |r.value| == |s| || IsSpace(s[k + |r.value|])))
  {
    var k := LeadingSpace(s);
    if k == |s| then None
    else
      var t := s[k..];
      var w := Word(t);
      assert AllSpace(s[..k]);
      assert s[k..k + |w|] == w by { assert t[..|w|] == w; }
      assert k + |w| < |s| ==> s[k + |w|] == t[|w|];
      Some(w)
  }

  /** A name made of leading spaces, one word and anything after a separating space yields that word. */
  lemma {:induction false} FirstWordOf(lead: string, w: string, rest: string)
    requires AllSpace(lead) && w != [] && NoSpace(w)
    requires rest == [] || IsSpace(rest[0])
    ensures FirstWord(lead + w + rest) == Some(w)
  {
    var s := lead + w + rest;
    assert s == lead + (w + rest);
    assert (w + rest)[0] == w[0];
    LeadingSpaceOf(lead, w + rest);
    assert s[|lead|..] == w + rest;
    WordOf(w, rest);
  }

  lemma {:induction false} WordOf(w: string, rest: string)
    requires NoSpace(w)
    requires rest == [] || IsSpace(rest[0])
    ensures Word(w + rest) == w
  {
    if w == [] {
      assert w + rest == rest;
    } else {
      assert (w + rest)[1..] == w[1..] + rest;
      WordOf(w[1..], rest);
    }
  }

  // ---------------------------------------------------------------------------
  // Decimal numerals: str(int) and int(str)
  // ---------------------------------------------------------------------------

  function DigitChar(d: nat): char
    requires d < 10
  {
    ('0' as int + d) as char
  }

  function DigitValue(c: char): nat
    requires IsDigit(c)
  {
    c as int - '0' as int
  }

  /** `str(n)` for a natural number: its decimal digits, most significant first. */
  function NatToString(n: nat): (s: string)
    ensures s != [] && AllDigits(s)
    decreases n
  {
    if n < 10 then [DigitChar(n)] else NatToString(n / 10) + [DigitChar(n % 10)]
  }

  /** `str(i)` for any integer. */
  function IntToString(i: int): string {
    if i < 0 then "-" + NatToString(-i) else NatToString(i)
  }

  /** `int(s)` for a string of ASCII digits. */
  function ParseDigits(s: string): nat
    requires AllDigits(s)
  {
    if s == [] then 0 else ParseDigits(s[..|s| - 1]) * 10 + DigitValue(s[|s| - 1])
  }

  lemma {:induction false} ParseNatToString(n: nat)
    ensures ParseDigits(NatToString(n)) == n
    decreases n
  {
    var s := NatToString(n);
    if n >= 10 {
      assert s[..|s| - 1] == NatToString(n / 10);
      ParseNatToString(n / 10);
    }
  }

  /** A decimal rendering with a sign of its own reads back as the integer it renders. */
  lemma IntToStringParses(i: int)
    ensures i < 0 ==> IntToString(i)[0] == '-' && ParseDigits(IntToString(i)[1..]) == -i
    ensures i >= 0 ==> AllDigits(IntToString(i)) && ParseDigits(IntToString(i)) == i
  {
    if i < 0 {
      assert IntToString(i)[1..] == NatToString(-i);
      ParseNatToString(-i);
    } else {
      ParseNatToString(i);
    }
  }

  // ---------------------------------------------------------------------------
  // Sequences of strings
  // ---------------------------------------------------------------------------

  predicate NoDuplicates<T(==)>(s: seq<T>) {
    forall i, j :: 0 <= i < j < |s| ==> s[i] != s[j]
  }

  /** `sep.join(items)`. */
  function Join(items: seq<string>, sep: string): string {
    if items == [] then []
    else if |items| == 1 then items[0]
    else items[0] + sep + Join(items[1..], sep)
  }
}
