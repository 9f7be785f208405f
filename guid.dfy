/**
 * `System.Guid`: 32 hexadecimal digits. `ToString` writes the lower-case
 * hyphenated form ("D" format, 8-4-4-4-12 digits); `Parse` reads plain hex
 * digits in the "N", "D", "B" and "P" layouts, a subset of what the
 * `Guid(string)` constructor accepts (it also takes "0x" and "+" prefixes
 * inside groups, surrounding white space and the "X" format).
 */
module Guids {
  import opened Wrappers
  import opened DotNet

  type HexDigit = d: int | 0 <= d < 16

  type Digits = s: seq<HexDigit> | |s| == 32 witness seq(32, _ => 0)

  datatype Guid = Guid(digits: Digits)

  /** `Guid.Empty`, the default value of a `Guid` field: all digits zero. */
  const Empty: Guid := Guid([0, 0, 0, 0, 0, 0, 0, 0, 0, 0, 0, 0, 0, 0, 0, 0, 0, 0, 0, 0, 0, 0, 0, 0, 0, 0, 0, 0, 0, 0, 0, 0])

  function HexChar(d: HexDigit): char {
    if d < 10 then (d + 48) as char else (d + 87) as char
  }

  predicate IsHexChar(c: char) {
    '0' <= c <= '9' || 'a' <= c <= 'f' || 'A' <= c <= 'F'
  }

  function HexValue(c: char): (d: HexDigit)
    requires IsHexChar(c)
  {
    if c <= '9' then c as int - 48 else if c <= 'F' then c as int - 55 else c as int - 87
  }

  function Hex(ds: seq<HexDigit>): (s: string)
    ensures |s| == |ds|
    ensures forall i :: 0 <= i < |ds| ==> s[i] == HexChar(ds[i]) && IsHexChar(s[i])
  {
    seq(|ds|, i requires 0 <= i < |ds| => HexChar(ds[i]))
  }

  /** `Guid.ToString()`: "xxxxxxxx-xxxx-xxxx-xxxx-xxxxxxxxxxxx", lower case. */
  function ToString(g: Guid): (s: string)
    ensures |s| == 36
  {
    var d := g.digits;
    Hex(d[..8]) + "-" + Hex(d[8..12]) + "-" + Hex(d[12..16]) + "-" + Hex(d[16..20]) + "-" + Hex(d[20..])
  }

  /** The "N" format: 32 hexadecimal digits and nothing else. */
  function ParseDigits(s: string): (r: Option<Guid>)
    ensures r.Some? <==> |s| == 32 && forall i :: 0 <= i < |s| ==> IsHexChar(s[i])
  {
    if |s| == 32 && forall i :: 0 <= i < |s| ==> IsHexChar(s[i]) then
      Some(Guid(seq(32, i requires 0 <= i < 32 => HexValue(s[i]))))
    else
      None
  }

  /** The "D" format: groups of 8, 4, 4, 4 and 12 digits separated by hyphens. */
  function ParseHyphenated(s: string): Option<Guid> {
    if |s| == 36 && s[8] == '-' && s[13] == '-' && s[18] == '-' && s[23] == '-' then
      ParseDigits(s[..8] + s[9..13] + s[14..18] + s[19..23] + s[24..])
    else
      None
  }

  /** The formats "N", "D", "B" (braces around "D") and "P" (parentheses around "D"). */
  function Parse(s: string): (r: Option<Guid>)
    ensures r.Some? ==> |s| == 32 || |s| == 36 || |s| == 38
  {
    if |s| == 32 then ParseDigits(s)
    else if |s| == 36 then ParseHyphenated(s)
    else if |s| == 38 && ((s[0] == '{' && s[37] == '}') || (s[0] == '(' && s[37] == ')')) then
      ParseHyphenated(s[1..37])
    else None
  }

  /**
   * `new Guid(s)`: throws `ArgumentNullException` on null and
   * `FormatException` on a string in none of the accepted formats.
   */
  function NewGuid(s: Str): (r: Result<Guid, Exception>)
    ensures s.None? ==> r == Failure(ArgumentNull)
    ensures s.Some? && Parse(s.value).None? ==> r == Failure(BadGuidFormat)
    ensures s.Some? && Parse(s.value).Some? ==> r == Success(Parse(s.value).value)
  {
    match s
    case None => Failure(ArgumentNull)
    case Some(text) =>
      match Parse(text)
      case None => Failure(BadGuidFormat)
      case Some(g) => Success(g)
  }

  lemma HexValueOfHexChar(d: HexDigit)
    ensures HexValue(HexChar(d)) == d
  {
  }

  /** Reading back what `ToString` wrote gives the same `Guid`. */
  lemma ParseToString(g: Guid)
    ensures Parse(ToString(g)) == Some(g)
  {
    var d := g.digits;
    var s := ToString(g);
    assert s[8] == '-' && s[13] == '-' && s[18] == '-' && s[23] == '-';
    var packed := s[..8] + s[9..13] + s[14..18] + s[19..23] + s[24..];
    assert s[..8] == Hex(d[..8]);
    assert s[9..13] == Hex(d[8..12]);
    assert s[14..18] == Hex(d[12..16]);
    assert s[19..23] == Hex(d[16..20]);
    assert s[24..] == Hex(d[20..]);
    assert packed == Hex(d) by {
      forall i | 0 <= i < 32 ensures packed[i] == Hex(d)[i] {
        if i < 8 {} else if i < 12 {} else if i < 16 {} else if i < 20 {} else {}
      }
    }
    forall i | 0 <= i < 32 ensures HexValue(packed[i]) == d[i] {
      HexValueOfHexChar(d[i]);
    }
    assert seq(32, i requires 0 <= i < 32 => HexValue(packed[i])) == d;
  }

  /** Distinct identifiers have distinct string forms, so they are distinct dictionary keys. */
  lemma ToStringInjective(a: Guid, b: Guid)
    ensures ToString(a) == ToString(b) ==> a == b
  {
    ParseToString(a);
    ParseToString(b);
  }

  /** The string form of an identifier is never blank. */
  lemma ToStringNotBlank(g: Guid)
    ensures !IsNullOrWhiteSpace(Some(ToString(g)))
    ensures !IsNullOrEmpty(Some(ToString(g)))
  {
    assert ToString(g)[8] == '-';
  }

  /** `new Guid(g.ToString())` succeeds and gives `g` back. */
  lemma NewGuidOfToString(g: Guid)
    ensures NewGuid(Some(ToString(g))) == Success(g)
  {
    ParseToString(g);
  }
}
