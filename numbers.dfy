// Decimal rendering (`to_string`) and parsing (`str::parse` for the unsigned
// integer types) as the standard library does them: parsing accepts an
// optional leading '+', then one or more ASCII digits, and fails on anything
// else or on a value that does not fit the target type.
module Numbers {
  import opened Types
  import Text

  predicate IsDigit(c: char)
  {
    '0' <= c <= '9'
  }

  predicate AllDigits(s: string)
  {
    forall i :: 0 <= i < |s| ==> IsDigit(s[i])
  }

  function DigitValue(c: char): nat
    requires IsDigit(c)
  {
    c as int - '0' as int
  }

  function DigitChar(d: nat): (c: char)
    requires d < 10
    ensures IsDigit(c) && DigitValue(c) == d
  {
    ('0' as int + d) as char
  }

  /** The number a string of decimal digits denotes. */
  function DigitsValue(s: string): nat
    requires AllDigits(s)
  {
    if s == [] then 0 else 10 * DigitsValue(s[..|s| - 1]) + DigitValue(s[|s| - 1])
  }

  /** `u64::to_string` and friends: the shortest decimal rendering. */
  function Show(n: nat): (s: string)
    ensures |s| >= 1 && AllDigits(s)
    ensures s[0] == '0' ==> n == 0
  {
    if n < 10 then [DigitChar(n)] else Show(n / 10) + [DigitChar(n % 10)]
  }

  /** The rendering denotes the number it renders. */
  lemma {:induction false} ShowValue(n: nat)
    ensures DigitsValue(Show(n)) == n
  {
    if n >= 10 {
      var s := Show(n);
      assert s[..|s| - 1] == Show(n / 10);
      ShowValue(n / 10);
    }
  }

  /** A rendering is a white-space-free token. */
  lemma ShowIsToken(n: nat)
    ensures Text.IsToken(Show(n))
  {
    var s := Show(n);
    forall i | 0 <= i < |s| ensures !Text.IsWhitespace(s[i]) {
      assert IsDigit(s[i]);
    }
  }

  /** `str::parse::<uN>` where `max` is the largest value of the type. */
  function ParseUnsigned(s: string, max: nat): (r: Option<nat>)
    ensures r.Some? ==> r.value <= max
    ensures r.Some? <==>
      var digits := if |s| > 0 && s[0] == '+' then s[1..] else s;
      |digits| > 0 && AllDigits(digits) && DigitsValue(digits) <= max
  {
    var digits := if |s| > 0 && s[0] == '+' then s[1..] else s;
    if |digits| == 0 || !AllDigits(digits) then None
    else
      var v := DigitsValue(digits);
      if v <= max then Some(v) else None
  }

  /** Parsing inverts rendering for every value of the type. */
  lemma ParseShow(n: nat, max: nat)
    requires n <= max
    ensures ParseUnsigned(Show(n), max) == Some(n)
  {
    ShowValue(n);
  }

  /** A decimal text is never parsed to a number outside the type. */
  lemma ParseShowTooLarge(n: nat, max: nat)
    requires n > max
    ensures ParseUnsigned(Show(n), max) == None
  {
    ShowValue(n);
  }

  function ParseU8(s: string): (r: Option<u8>)
    ensures r.Some? <==> ParseUnsigned(s, U8Max).Some?
    ensures r.Some? ==> r.value == ParseUnsigned(s, U8Max).value
  {
    match ParseUnsigned(s, U8Max)
    case Some(v) => Some(v)
    case None => None
  }

  function ParseU16(s: string): (r: Option<u16>)
    ensures r.Some? <==> ParseUnsigned(s, U16Max).Some?
    ensures r.Some? ==> r.value == ParseUnsigned(s, U16Max).value
  {
    match ParseUnsigned(s, U16Max)
    case Some(v) => Some(v)
    case None => None
  }

  function ParseU32(s: string): (r: Option<u32>)
    ensures r.Some? <==> ParseUnsigned(s, U32Max).Some?
    ensures r.Some? ==> r.value == ParseUnsigned(s, U32Max).value
  {
    match ParseUnsigned(s, U32Max)
    case Some(v) => Some(v)
    case None => None
  }

  function ParseU64(s: string): (r: Option<u64>)
    ensures r.Some? <==> ParseUnsigned(s, U64Max).Some?
    ensures r.Some? ==> r.value == ParseUnsigned(s, U64Max).value
  {
    match ParseUnsigned(s, U64Max)
    case Some(v) => Some(v)
    case None => None
  }

  /** The providers' `parse_u64`: trim, then parse as `u64`. */
  function ParseU64Trimmed(s: string): (r: Option<u64>)
    ensures r == ParseU64(Text.Trim(s))
  {
    ParseU64(Text.Trim(s))
  }

  /** An identifier rendered by `to_string` is accepted back by
      `parse_u64`. */
  lemma ParseU64TrimmedShow(n: u64)
    ensures ParseU64Trimmed(Show(n)) == Some(n)
  {
    ShowIsToken(n);
    Text.TrimToken(Show(n));
    ParseShow(n, U64Max);
  }

  /** `i64::to_string`. */
  function ShowInt(i: int): (s: string)
    ensures |s| >= 1
    ensures s[0] == '-' <==> i < 0
  {
    if i < 0 then "-" + Show(-i) else Show(i)
  }
}
