/**
 * The three `get_error_message` tables: the current Wyze one
 * (src/brands/wyze/error_mapping.py), the one the legacy script uses
 * (src/error_mapping.py) and the one the oldest script uses
 * (src/sync-locks/sync-locks-function/error_mapping.py). Each is a dict
 * lookup with a default, so each is total.
 */
module WyzeErrorMapping {
  import opened Common

  const NameInUse := "Name already in use. Please modify the name and try again."
  const TooFast := "The operation is too fast, please wait a moment."
  const SuccessfullyDeleted := "Successfully deleted"

  const ErrorCodes: map<int, string> := map[
    5030 := NameInUse,
    5034 := TooFast,
    5021 := SuccessfullyDeleted,
    3027 := "The parameter is incorrect. Date time frame may not be valid.",
    1001 := "Authentication failed. Please check your credentials.",
    1002 := "Session expired. Please reauthenticate.",
    1003 := "Permission denied. Your account doesn't have access to this device.",
    2000 := "Device is offline. Please check device connectivity.",
    2001 := "Device is already in use by another operation.",
    2002 := "Device firmware needs to be updated.",
    3000 := "Invalid request parameters.",
    4000 := "Service unavailable. Wyze servers may be experiencing issues.",
    4001 := "API rate limit exceeded. Please retry after a short delay.",
    5000 := "Internal server error from Wyze API.",
    9000 := "Network connectivity issue. Please check your internet connection."
  ]

  const UnknownPrefix := "Unknown error occurred (code "
  const UnknownSuffix := ")" + ". Please check the Wyze app for device status."

  /** `get_error_message(errno)`: the table text, or the generic text naming the code. */
  function GetErrorMessage(errno: int): (r: string)
    ensures errno in ErrorCodes ==> r == ErrorCodes[errno]
    ensures errno !in ErrorCodes ==> StartsWith(r, UnknownPrefix) && EndsWith(r, UnknownSuffix)
  {
    if errno in ErrorCodes then ErrorCodes[errno]
    else
      var r := UnknownPrefix + IntToString(errno) + UnknownSuffix;
      assert r[..|UnknownPrefix|] == UnknownPrefix;
      assert r[|r| - |UnknownSuffix|..] == UnknownSuffix;
      r
  }

  /** Reads the code back out of a generic message: the text between "(code " and ")". */
  function CodeInMessage(msg: string): Option<int> {
    if !StartsWith(msg, UnknownPrefix) then None
    else ReadNumeral(Numeral(msg[|UnknownPrefix|..]))
  }

  /** The integer a run of digits and '-' spells, if it spells one. */
  function ReadNumeral(digits: string): Option<int> {
    if digits == [] then None
    else if digits[0] == '-' then
      if |digits| > 1 && AllDigits(digits[1..]) then Some(-(ParseDigits(digits[1..]) as int)) else None
    else if AllDigits(digits) then Some(ParseDigits(digits))
    else None
  }

  lemma ReadIntToString(errno: int)
    ensures ReadNumeral(IntToString(errno)) == Some(errno)
    ensures forall i :: 0 <= i < |IntToString(errno)| ==> IsDigit(IntToString(errno)[i]) || IntToString(errno)[i] == '-'
  {
    IntToStringParses(errno);
    var num := IntToString(errno);
    if errno < 0 {
      assert num == "-" + NatToString(-errno);
      assert num[1..] == NatToString(-errno);
      forall i | 1 <= i < |num| ensures IsDigit(num[i]) { assert num[i] == NatToString(-errno)[i - 1]; }
    }
  }

  /** The longest prefix made of digits and '-'. */
  function Numeral(s: string): (r: string)
    ensures StartsWith(s, r)
    ensures forall i :: 0 <= i < |r| ==> IsDigit(r[i]) || r[i] == '-'
    ensures |r| == |s| || !(IsDigit(s[|r|]) || s[|r|] == '-')
  {
    if s == [] || !(IsDigit(s[0]) || s[0] == '-') then [] else [s[0]] + Numeral(s[1..])
  }

  lemma {:induction false} NumeralOf(n: string, rest: string)
    requires forall i :: 0 <= i < |n| ==> IsDigit(n[i]) || n[i] == '-'
    requires rest != [] && !(IsDigit(rest[0]) || rest[0] == '-')
    ensures Numeral(n + rest) == n
  {
    if n != [] {
      assert (n + rest)[1..] == n[1..] + rest;
      NumeralOf(n[1..], rest);
    } else {
      assert n + rest == rest;
    }
  }

  /** An unlisted code can be read back out of the message it produces. */
  lemma UnknownMessageNamesCode(errno: int)
    requires errno !in ErrorCodes
    ensures CodeInMessage(GetErrorMessage(errno)) == Some(errno)
  {
    var num := IntToString(errno);
    var msg := GetErrorMessage(errno);
    assert msg == UnknownPrefix + (num + UnknownSuffix);
    assert msg[|UnknownPrefix|..] == num + UnknownSuffix;
    ReadIntToString(errno);
    assert UnknownSuffix[0] == ')';
    NumeralOf(num, UnknownSuffix);
  }
}

/** src/error_mapping.py, used by the legacy script src/lock_sync.py. */
module LegacyErrorMapping {
  const ErrorCodes: map<int, string> := map[
    5030 := "Name already in use. Please modify the name and try again.",
    5034 := "The operation is too fast, please wait a moment."
  ]

  const Unknown := "An unknown error occurred."

  function GetErrorMessage(errno: int): (r: string)
    ensures errno == 5030 ==> r == "Name already in use. Please modify the name and try again."
    ensures errno == 5034 ==> r == "The operation is too fast, please wait a moment."
    ensures errno != 5030 && errno != 5034 ==> r == Unknown
  {
    if errno in ErrorCodes then ErrorCodes[errno] else Unknown
  }
}

/** src/sync-locks/sync-locks-function/error_mapping.py, used by the oldest script. */
module OldestErrorMapping {
  import LegacyErrorMapping

  const ErrorCodes: map<int, string> := map[
    5030 := "Name already in use. Please modify the name and try again."
  ]

  const Unknown := "An unknown error occurred."

  function GetErrorMessage(errno: int): (r: string)
    ensures errno == 5030 ==> r == "Name already in use. Please modify the name and try again."
    ensures errno != 5030 ==> r == Unknown
    ensures r == ErrorCodes[5030] || r == Unknown
  {
    if errno in ErrorCodes then ErrorCodes[errno] else Unknown
  }

  /** The two older tables agree on every code except 5034, which only the legacy one lists. */
  lemma AgreesWithLegacy(errno: int)
    ensures GetErrorMessage(errno) == LegacyErrorMapping.GetErrorMessage(errno) <==> errno != 5034
  {
  }
}
