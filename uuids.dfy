/** UUIDs as the uuid crate reads and writes them: `Uuid::parse_str` accepts the
    simple form (32 hexadecimal digits), the hyphenated form (8-4-4-4-12), the
    hyphenated form in braces, and the hyphenated form after "urn:uuid:"; hexadecimal
    digits of either case are accepted. `to_string` writes the lower-case hyphenated form. */
module Uuids {
  import opened Prelude
  import Text

  type Nibble = n: int | 0 <= n < 16

  type UuidDigits = d: seq<Nibble> | |d| == 32 witness seq(32, i => 0)

  /** The 128 bits of a UUID as 32 hexadecimal digits, most significant first. */
  datatype Uuid = Uuid(digits: UuidDigits)

  function HexValue(c: char): Option<Nibble> {
    if '0' <= c <= '9' then Some(c as int - '0' as int)
    else if 'a' <= c <= 'f' then Some(c as int - 'a' as int + 10)
    else if 'A' <= c <= 'F' then Some(c as int - 'A' as int + 10)
    else None
  }

  function HexDigit(n: Nibble): (c: char)
    ensures HexValue(c) == Some(n)
    ensures '0' <= c <= '9' || 'a' <= c <= 'f'
  {
    if n < 10 then ('0' as int + n) as char else ('a' as int + n - 10) as char
  }

  /** The digits of s, provided every character of s is a hexadecimal digit. */
  function ParseHex(s: string): (r: Option<seq<Nibble>>)
    ensures r.Some? ==> |r.value| == |s|
    ensures r.Some? <==> forall i :: 0 <= i < |s| ==> HexValue(s[i]).Some?
  {
    if s == [] then Some([])
    else
      match HexValue(s[0])
      case None => None
      case Some(n) =>
        match ParseHex(s[1..])
        case None => None
        case Some(rest) => Some([n] + rest)
  }

  /** Lower-case hexadecimal rendering of a digit sequence. */
  function HexString(d: seq<Nibble>): (s: string)
    ensures |s| == |d|
  {
    seq(|d|, i requires 0 <= i < |d| => HexDigit(d[i]))
  }

  lemma {:induction false} ParseHexString(d: seq<Nibble>)
    ensures ParseHex(HexString(d)) == Some(d)
  {
    if d != [] {
      var s := HexString(d);
      assert s[1..] == HexString(d[1..]);
      ParseHexString(d[1..]);
      assert d == [d[0]] + d[1..];
    }
  }

  predicate HasHyphens(s: string)
    requires |s| == 36
  {
    s[8] == '-' && s[13] == '-' && s[18] == '-' && s[23] == '-'
  }

  /** The 32 digit characters of the hyphenated form 8-4-4-4-12, hyphens taken off. */
  function Unhyphenated(s: string): (r: Option<string>)
    ensures r.Some? ==> |r.value| == 32
  {
    if |s| == 36 && HasHyphens(s) then Some(s[..8] + s[9..13] + s[14..18] + s[19..23] + s[24..])
    else None
  }

  /** The 32 digit characters of a string laid out in one of the four forms
      `parse_str` accepts (simple, hyphenated, braced, or after "urn:uuid:"), with the
      hyphens, braces and prefix taken off; None for any other layout. */
  function Unframed(s: string): (r: Option<string>)
    ensures r.Some? ==> |r.value| == 32 && |s| in {32, 36, 38, 45}
  {
    if |s| == 32 then Some(s)
    else if |s| == 36 then Unhyphenated(s)
    else if |s| == 38 && s[0] == '{' && s[37] == '}' then Unhyphenated(s[1..37])
    else if |s| == 45 && s[..9] == "urn:uuid:" then Unhyphenated(s[9..])
    else None
  }

  /** Parsed digits render back as the parsed characters in lower case. */
  lemma {:induction false} HexStringOfParseHex(s: string)
    requires ParseHex(s).Some?
    ensures HexString(ParseHex(s).value) == Text.Lower(s)
  {
    if s != [] {
      HexStringOfParseHex(s[1..]);
      var d := ParseHex(s).value;
      assert d == [HexValue(s[0]).value] + ParseHex(s[1..]).value;
      assert HexString(d)[1..] == HexString(ParseHex(s[1..]).value);
      assert Text.Lower(s)[1..] == Text.Lower(s[1..]);
    }
  }

  /** The error value `Uuid::parse_str` returns; the crate's detailed message (which
      character, which group) is not modelled. */
  const InvalidUuid := ForeignError("invalid UUID")

  /** `Uuid::parse_str` */
  function ParseStr(s: string): (r: Result<Uuid, ForeignError>)
    ensures r.Ok? <==> Unframed(s).Some? && forall i :: 0 <= i < 32 ==> HexValue(Unframed(s).value[i]).Some?
    ensures r.Ok? ==> HexString(r.value.digits) == Text.Lower(Unframed(s).value)
    ensures r.Ok? ==> |s| in {32, 36, 38, 45}
    ensures r.Err? ==> r.error == InvalidUuid
  {
    match Unframed(s)
    case None => Err(InvalidUuid)
    case Some(h) =>
      match ParseHex(h)
      case None => Err(InvalidUuid)
      case Some(d) =>
        HexStringOfParseHex(h);
        Ok(Uuid(d))
  }

  /** `Uuid::to_string`: the lower-case hyphenated form. */
  function ToString(u: Uuid): (s: string)
    ensures |s| == 36 && HasHyphens(s)
  {
    var h := HexString(u.digits);
    h[..8] + "-" + h[8..12] + "-" + h[12..16] + "-" + h[16..20] + "-" + h[20..]
  }

  /** Every UUID the program renders parses back to itself, so `parse_str` of a
      producer id written with `to_string` cannot fail. */
  lemma ParseToString(u: Uuid)
    ensures ParseStr(ToString(u)) == Ok(u)
  {
    var s := ToString(u);
    var h := HexString(u.digits);
    assert s[..8] == h[..8] && s[9..13] == h[8..12] && s[14..18] == h[12..16];
    assert s[19..23] == h[16..20] && s[24..] == h[20..];
    assert h == h[..8] + h[8..12] + h[12..16] + h[16..20] + h[20..];
    assert Unframed(s) == Some(h);
    ParseHexString(u.digits);
  }

  /** Distinct UUIDs render to distinct strings. */
  lemma ToStringInjective(u: Uuid, v: Uuid)
    requires ToString(u) == ToString(v)
    ensures u == v
  {
    ParseToString(u);
    ParseToString(v);
  }
}
