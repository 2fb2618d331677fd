/** The pieces of Rust's string handling the core relies on: `str::parse` for the
    primitive integer types, decimal rendering, `starts_with` / `strip_prefix`, and
    lower-casing. */
module Text {
  import opened Prelude

  predicate IsDigit(c: char) {
    '0' <= c <= '9'
  }

  predicate AllDigits(s: string) {
    forall i :: 0 <= i < |s| ==> IsDigit(s[i])
  }

  function DigitValue(c: char): (d: nat)
    requires IsDigit(c)
    ensures d < 10
  {
    (c as int) - ('0' as int)
  }

  function DigitChar(d: nat): (c: char)
    requires d < 10
    ensures IsDigit(c) && DigitValue(c) == d
  {
    (('0' as int) + d) as char
  }

  /** One or more decimal digits. */
  predicate IsNumeral(s: string) {
    |s| > 0 && AllDigits(s)
  }

  /** The value of a run of decimal digits, read from the most significant end. */
  function DigitsValue(s: string): nat
    requires AllDigits(s)
  {
    if |s| == 0 then 0 else DigitsValue(s[..|s| - 1]) * 10 + DigitValue(s[|s| - 1])
  }

  /** The shortest decimal rendering of a natural number. */
  function Digits(n: nat): (s: string)
    ensures |s| > 0 && AllDigits(s)
  {
    if n < 10 then [DigitChar(n)] else Digits(n / 10) + [DigitChar(n % 10)]
  }

  /** How Rust's `to_string` renders an integer. */
  function Decimal(n: int): (s: string)
    ensures |s| > 0
  {
    if n < 0 then "-" + Digits(0 - n) else Digits(n)
  }

  lemma {:induction false} DigitsValueOfDigits(n: nat)
    ensures DigitsValue(Digits(n)) == n
  {
    if n >= 10 {
      var s := Digits(n);
      assert s[..|s| - 1] == Digits(n / 10);
      DigitsValueOfDigits(n / 10);
    }
  }

  /** `str::parse::<T>()` for a primitive integer type T whose values are lo..=hi:
      the empty string and a lone sign are rejected, a leading '+' is accepted, a
      leading '-' is a sign only when T is signed, every other character must be a
      decimal digit, and the value must lie in T's range. No whitespace is skipped. */
  function ParseInteger(s: string, signed: bool, lo: int, hi: int): (r: Option<int>)
    ensures r.Some? ==> lo <= r.value <= hi
    ensures r.Some? ==> |s| > 0
    ensures r.Some? <==>
              || (IsNumeral(s) && lo <= DigitsValue(s) <= hi)
              || (|s| > 0 && s[0] == '+' && IsNumeral(s[1..]) && lo <= DigitsValue(s[1..]) <= hi)
              || (signed && |s| > 0 && s[0] == '-' && IsNumeral(s[1..]) && lo <= 0 - DigitsValue(s[1..]) <= hi)
    ensures r.Some? && IsNumeral(s) ==> r.value == DigitsValue(s)
    ensures r.Some? && |s| > 0 && s[0] == '+' ==> IsNumeral(s[1..]) && r.value == DigitsValue(s[1..])
    ensures r.Some? && |s| > 0 && s[0] == '-' ==> signed && IsNumeral(s[1..]) && r.value == 0 - DigitsValue(s[1..])
  {
    if |s| == 0 then None
    else if (s[0] == '+' || s[0] == '-') && |s| == 1 then None
    else
      var negative := s[0] == '-' && signed;
      var digits := if s[0] == '+' || negative then s[1..] else s;
      if !AllDigits(digits) then None
      else
        var v: int := if negative then 0 - DigitsValue(digits) else DigitsValue(digits);
        if lo <= v <= hi then Some(v) else None
  }

  const I64Min: int := -0x8000_0000_0000_0000
  const I64Max: int := 0x7FFF_FFFF_FFFF_FFFF
  const U16Max: int := 0xFFFF

  predicate InI64(n: int) {
    I64Min <= n <= I64Max
  }

  /** `str::parse::<i64>()` */
  function ParseI64(s: string): (r: Option<int>)
    ensures r.Some? ==> InI64(r.value)
    ensures r.Some? <==>
              || (IsNumeral(s) && DigitsValue(s) <= I64Max)
              || (|s| > 0 && s[0] == '+' && IsNumeral(s[1..]) && DigitsValue(s[1..]) <= I64Max)
              || (|s| > 0 && s[0] == '-' && IsNumeral(s[1..]) && DigitsValue(s[1..]) <= 0 - I64Min)
    ensures r.Some? && IsNumeral(s) ==> r.value == DigitsValue(s)
    ensures r.Some? && |s| > 0 && s[0] == '+' ==> r.value == DigitsValue(s[1..])
    ensures r.Some? && |s| > 0 && s[0] == '-' ==> r.value == 0 - DigitsValue(s[1..])
  {
    ParseInteger(s, true, I64Min, I64Max)
  }

  /** `str::parse::<u16>()` */
  function ParseU16(s: string): (r: Option<nat>)
    ensures r.Some? ==> r.value <= U16Max
    ensures r.Some? <==>
              || (IsNumeral(s) && DigitsValue(s) <= U16Max)
              || (|s| > 0 && s[0] == '+' && IsNumeral(s[1..]) && DigitsValue(s[1..]) <= U16Max)
    ensures r.Some? && IsNumeral(s) ==> r.value == DigitsValue(s)
    ensures r.Some? && |s| > 0 && s[0] == '+' ==> r.value == DigitsValue(s[1..])
  {
    match ParseInteger(s, false, 0, U16Max)
    case Some(v) => Some(v)
    case None => None
  }

  /** Parsing an i64 back from its rendering gives the same value. */
  lemma ParseI64OfDecimal(n: int)
    requires InI64(n)
    ensures ParseI64(Decimal(n)) == Some(n)
  {
    if n < 0 {
      var s := Decimal(n);
      assert s[1..] == Digits(-n);
      DigitsValueOfDigits(-n);
    } else {
      DigitsValueOfDigits(n);
    }
  }

  /** Parsing a u16 back from its rendering gives the same value. */
  lemma ParseU16OfDecimal(n: nat)
    requires n <= U16Max
    ensures ParseU16(Decimal(n)) == Some(n)
  {
    DigitsValueOfDigits(n);
  }

  /** A u16 parser never accepts a minus sign, not even on "-0". */
  lemma ParseU16RejectsMinus(s: string)
    requires |s| > 0 && s[0] == '-'
    ensures ParseU16(s) == None
  {
    assert !IsDigit(s[0]);
  }

  /** Strings that are not numerals are refused: letters, surrounding blanks, a lone
      sign, a doubled sign, and a value one past the type's range. */
  lemma ParseRejectsNonNumerals()
    ensures ParseI64("abc") == None && ParseI64(" 1") == None && ParseI64("1 ") == None
    ensures ParseI64("+") == None && ParseI64("--1") == None && ParseI64("") == None
    ensures ParseU16("65536") == None && ParseU16("8080x") == None
  {
    assert !IsDigit("abc"[0]) && !IsDigit(" 1"[0]) && !IsDigit("1 "[1]);
    assert !IsDigit("--1"[1..][0]) && !IsDigit("8080x"[4]);
    assert "65536"[..4] == "6553" && "6553"[..3] == "655" && "655"[..2] == "65" && "65"[..1] == "6";
    assert DigitsValue("65536") == 65536;
  }

  predicate StartsWith(s: string, prefix: string) {
    |prefix| <= |s| && s[..|prefix|] == prefix
  }

  /** `str::strip_prefix` */
  function StripPrefix(s: string, prefix: string): (r: Option<string>)
    ensures r.Some? <==> StartsWith(s, prefix)
    ensures r.Some? ==> prefix + r.value == s
  {
    if StartsWith(s, prefix) then Some(s[|prefix|..]) else None
  }

  function AsciiLower(c: char): char {
    if 'A' <= c <= 'Z' then (c as int + 32) as char else c
  }

  /** `str::to_lowercase`, restricted to the ASCII letters. */
  function Lower(s: string): (r: string)
    ensures |r| == |s|
    ensures forall i :: 0 <= i < |s| ==> r[i] == AsciiLower(s[i])
  {
    seq(|s|, i requires 0 <= i < |s| => AsciiLower(s[i]))
  }
}
