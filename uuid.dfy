/**
 * The part of github.com/google/uuid the service relies on: Parse (all four accepted spellings) and the
 * canonical text form that String() prints. A parsed identifier is kept in canonical text form,
 * 8-4-4-4-12 lower-case hexadecimal digits.
 */
module Uuid {
  import opened Base
  import opened Text

  const Nil := "00000000-0000-0000-0000-000000000000"

  predicate IsHexDigit(c: char) {
    IsDigit(c) || 'a' <= c <= 'f' || 'A' <= c <= 'F'
  }

  predicate IsDashPosition(i: int) {
    i == 8 || i == 13 || i == 18 || i == 23
  }

  /** The text form String() prints. */
  predicate IsCanonical(s: string) {
    |s| == 36 &&
    forall i :: 0 <= i < 36 ==>
      if IsDashPosition(i) then s[i] == '-' else IsDigit(s[i]) || 'a' <= s[i] <= 'f'
  }

  /** The 36-character spelling in any letter case. */
  predicate IsDashed(s: string) {
    |s| == 36 &&
    forall i :: 0 <= i < 36 ==> if IsDashPosition(i) then s[i] == '-' else IsHexDigit(s[i])
  }

  predicate IsRawHex(s: string) {
    |s| == 32 && forall i :: 0 <= i < 32 ==> IsHexDigit(s[i])
  }

  /** Case-insensitive comparison with "urn:uuid:" (strings.EqualFold over ASCII). */
  predicate IsUrnPrefix(s: string)
    requires |s| == 9
  {
    forall i :: 0 <= i < 9 ==> ToLowerChar(s[i]) == "urn:uuid:"[i]
  }

  /** Lower-cases a dashed spelling into the canonical form. */
  function CanonicalFromDashed(s: string): (r: string)
    requires IsDashed(s)
    ensures IsCanonical(r)
  {
    ToLower(s)
  }

  /** Inserts the four dashes into 32 hexadecimal digits. */
  function CanonicalFromRaw(s: string): (r: string)
    requires IsRawHex(s)
    ensures IsCanonical(r)
  {
    var d := s[..8] + "-" + s[8..12] + "-" + s[12..16] + "-" + s[16..20] + "-" + s[20..];
    assert IsDashed(d) by {
      forall i | 0 <= i < 36
        ensures if IsDashPosition(i) then d[i] == '-' else IsHexDigit(d[i])
      {
        if i < 8 { assert d[i] == s[i]; }
        else if 8 < i < 13 { assert d[i] == s[i - 1]; }
        else if 13 < i < 18 { assert d[i] == s[i - 2]; }
        else if 18 < i < 23 { assert d[i] == s[i - 3]; }
        else if 23 < i { assert d[i] == s[i - 4]; }
      }
    }
    ToLower(d)
  }

  /**
   * uuid.Parse: 36 characters with dashes at 8, 13, 18 and 23; 45 characters after a case-insensitive
   * "urn:uuid:"; 38 characters, of which the first and the last are dropped unchecked; or 32 raw
   * hexadecimal digits. Anything else is an error (None).
   */
  function Parse(s: string): (r: Option<string>)
    ensures r.Some? ==> IsCanonical(r.value)
  {
    if |s| == 36 then
      if IsDashed(s) then Some(CanonicalFromDashed(s)) else None
    else if |s| == 45 then
      if IsUrnPrefix(s[..9]) && IsDashed(s[9..]) then Some(CanonicalFromDashed(s[9..])) else None
    else if |s| == 38 then
      if IsDashed(s[1..37]) then Some(CanonicalFromDashed(s[1..37])) else None
    else if |s| == 32 then
      if IsRawHex(s) then Some(CanonicalFromRaw(s)) else None
    else
      None
  }

  /** Parsing the text form of an identifier gives back that identifier. */
  lemma ParseCanonical(s: string)
    requires IsCanonical(s)
    ensures Parse(s) == Some(s)
  {
    assert IsDashed(s);
    assert ToLower(s) == s;
  }
}
