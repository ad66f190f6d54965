// The percent-encoding the Aliyun and Baidu signers apply to every key, value
// and path: `urlencoding::encode` (every UTF-8 byte except the ASCII letters,
// digits and "-._~" becomes "%XX" with upper-case hexadecimal), followed by
// three replacements ('+' to "%20", '*' to "%2A", "%7E" to "~") that the
// signature schemes ask for. The lemmas show the three replacements never
// change the encoder's output, and that decoding the output gives the
// original bytes back.
module PercentEncoding {
  import opened Types
  import opened Text

  predicate IsUnreservedByte(b: u8)
  {
    (0x30 <= b <= 0x39) || (0x41 <= b <= 0x5A) || (0x61 <= b <= 0x7A)
    || b == 0x2D || b == 0x2E || b == 0x5F || b == 0x7E
  }

  predicate IsUnreservedChar(c: char)
  {
    c as int < 0x80 && IsUnreservedByte(c as int)
  }

  function HexDigit(n: nat): (c: char)
    requires n < 16
    ensures IsHexDigit(c) && HexValue(c) == n
  {
    if n < 10 then ('0' as int + n) as char else ('A' as int + n - 10) as char
  }

  /** The upper-case hexadecimal digits the encoder writes. */
  predicate IsHexDigit(c: char)
  {
    ('0' <= c <= '9') || ('A' <= c <= 'F')
  }

  function HexValue(c: char): (n: nat)
    requires IsHexDigit(c)
    ensures n < 16
  {
    if c <= '9' then c as int - '0' as int else c as int - 'A' as int + 10
  }

  /** The text one byte is encoded to. */
  function EncodeByte(b: u8): string
  {
    if IsUnreservedByte(b) then [b as char] else ['%', HexDigit(b / 16), HexDigit(b % 16)]
  }

  function EncodeBytes(bytes: Bytes): string
  {
    if bytes == [] then "" else EncodeByte(bytes[0]) + EncodeBytes(bytes[1..])
  }

  /** `urlencoding::encode`. */
  function UrlEncode(s: string): string
  {
    EncodeBytes(Utf8(s))
  }

  /** `str::replace(pattern, with)`: every non-overlapping occurrence, left to
      right. */
  function Replace(s: string, pattern: string, with: string): string
    requires |pattern| > 0
    decreases |s|
  {
    if s == [] then ""
    else if StartsWith(s, pattern) then with + Replace(s[|pattern|..], pattern, with)
    else [s[0]] + Replace(s[1..], pattern, with)
  }

  /** The signers' `percent_encode`. */
  function PercentEncode(s: string): string
  {
    Replace(Replace(Replace(UrlEncode(s), "+", "%20"), "*", "%2A"), "%7E", "~")
  }

  // ---------------------------------------------------------------------
  // The shape of the encoder's output

  /** A sequence of encoded units: an unreserved character, or '%' and two
      upper-case hexadecimal digits naming a byte that is not unreserved. */
  predicate WellFormed(s: string)
    decreases |s|
  {
    if s == [] then true
    else if IsUnreservedChar(s[0]) then WellFormed(s[1..])
    else
      |s| >= 3 && s[0] == '%' && IsHexDigit(s[1]) && IsHexDigit(s[2])
      && !IsUnreservedByte(16 * HexValue(s[1]) + HexValue(s[2]))
      && WellFormed(s[3..])
  }

  lemma EncodeByteUnit(b: u8, rest: string)
    requires WellFormed(rest)
    ensures WellFormed(EncodeByte(b) + rest)
  {
    var s := EncodeByte(b) + rest;
    if IsUnreservedByte(b) {
      assert s[1..] == rest;
    } else {
      assert 16 * HexValue(s[1]) + HexValue(s[2]) == b;
      assert s[3..] == rest;
    }
  }

  /** Every output of the encoder is well formed. */
  lemma {:induction false} EncodeBytesWellFormed(bytes: Bytes)
    ensures WellFormed(EncodeBytes(bytes))
    decreases |bytes|
  {
    if bytes != [] {
      EncodeBytesWellFormed(bytes[1..]);
      EncodeByteUnit(bytes[0], EncodeBytes(bytes[1..]));
    }
  }

  /** A well-formed text holds only unreserved characters, '%' and
      hexadecimal digits. */
  lemma {:induction false} WellFormedAlphabet(s: string)
    requires WellFormed(s)
    ensures forall i :: 0 <= i < |s| ==> IsUnreservedChar(s[i]) || s[i] == '%' || IsHexDigit(s[i])
    decreases |s|
  {
    if s != [] {
      if IsUnreservedChar(s[0]) {
        WellFormedAlphabet(s[1..]);
        assert forall i :: 1 <= i < |s| ==> s[i] == s[1..][i - 1];
      } else {
        WellFormedAlphabet(s[3..]);
        assert forall i :: 3 <= i < |s| ==> s[i] == s[3..][i - 3];
      }
    }
  }

  lemma {:induction false} ReplaceAbsent(s: string, pattern: string, with: string)
    requires |pattern| > 0 && !Contains(s, pattern)
    ensures Replace(s, pattern, with) == s
    decreases |s|
  {
    if s != [] {
      ReplaceAbsent(s[1..], pattern, with);
      assert s == [s[0]] + s[1..];
    }
  }

  /** "%7E" never occurs in a well-formed text: its one unit that starts with
      '%' and names 0x7E would be the unreserved '~'. */
  lemma {:induction false} WellFormedNoEncodedTilde(s: string)
    requires WellFormed(s)
    ensures !Contains(s, "%7E")
    decreases |s|
  {
    if s != [] {
      if IsUnreservedChar(s[0]) {
        WellFormedNoEncodedTilde(s[1..]);
        assert s[0] != '%';
      } else {
        WellFormedNoEncodedTilde(s[3..]);
        assert s[1..3] != "7E" by {
          assert HexValue('7') == 7 && HexValue('E') == 14;
        }
        assert !StartsWith(s, "%7E");
        var t := s[1..];
        var u := s[2..];
        assert u[1..] == s[3..];
        assert !StartsWith(u, "%7E") by { assert u[0] == s[2] && s[2] != '%'; }
        assert !Contains(u, "%7E");
        assert t[1..] == u;
        assert !StartsWith(t, "%7E") by { assert t[0] == s[1] && s[1] != '%'; }
        assert !Contains(t, "%7E");
      }
    }
  }

  /** The three replacements of `percent_encode` are never triggered: its
      result is the plain `urlencoding::encode` of the input. */
  lemma PercentEncodeIsUrlEncode(s: string)
    ensures PercentEncode(s) == UrlEncode(s)
  {
    var e := UrlEncode(s);
    EncodeBytesWellFormed(Utf8(s));
    WellFormedAlphabet(e);
    if Contains(e, "+") {
      ContainsFirstChar(e, "+");
      assert false;
    }
    ReplaceAbsent(e, "+", "%20");
    if Contains(e, "*") {
      ContainsFirstChar(e, "*");
      assert false;
    }
    ReplaceAbsent(e, "*", "%2A");
    WellFormedNoEncodedTilde(e);
    ReplaceAbsent(e, "%7E", "~");
  }

  // ---------------------------------------------------------------------
  // Decoding

  /** Percent-decoding of a well-formed text into bytes. */
  function Decode(s: string): Option<Bytes>
    decreases |s|
  {
    if s == [] then Some([])
    else if IsUnreservedChar(s[0]) then
      match Decode(s[1..])
      case Some(rest) => Some([s[0] as int] + rest)
      case None => None
    else if |s| >= 3 && s[0] == '%' && IsHexDigit(s[1]) && IsHexDigit(s[2]) then
      match Decode(s[3..])
      case Some(rest) => Some([16 * HexValue(s[1]) + HexValue(s[2])] + rest)
      case None => None
    else None
  }

  /** Decoding inverts the encoder, so distinct byte strings never share an
      encoding. */
  lemma {:induction false} DecodeEncode(bytes: Bytes)
    ensures Decode(EncodeBytes(bytes)) == Some(bytes)
    decreases |bytes|
  {
    if bytes != [] {
      DecodeEncode(bytes[1..]);
      var b := bytes[0];
      var s := EncodeBytes(bytes);
      assert s == EncodeByte(b) + EncodeBytes(bytes[1..]);
      if IsUnreservedByte(b) {
        assert s[1..] == EncodeBytes(bytes[1..]);
      } else {
        assert s[3..] == EncodeBytes(bytes[1..]);
        assert 16 * HexValue(s[1]) + HexValue(s[2]) == b;
      }
      assert bytes == [b] + bytes[1..];
    }
  }

  /** Text made only of unreserved characters is left exactly as it is. */
  lemma {:induction false} UnreservedUnchanged(s: string)
    requires forall i :: 0 <= i < |s| ==> IsUnreservedChar(s[i])
    ensures PercentEncode(s) == s
  {
    UnreservedEncodesToItself(s);
    PercentEncodeIsUrlEncode(s);
  }

  lemma {:induction false} UnreservedEncodesToItself(s: string)
    requires forall i :: 0 <= i < |s| ==> IsUnreservedChar(s[i])
    ensures UrlEncode(s) == s
    decreases |s|
  {
    if s != [] {
      UnreservedEncodesToItself(s[1..]);
      assert Utf8(s) == [s[0] as int] + Utf8(s[1..]);
      assert EncodeByte(s[0] as int) == [s[0]];
      assert s == [s[0]] + s[1..];
    }
  }

  /** The encoded text of a byte string is well formed and decodes back to
      the UTF-8 bytes of the input. */
  lemma PercentEncodeDecodes(s: string)
    ensures WellFormed(PercentEncode(s))
    ensures Decode(PercentEncode(s)) == Some(Utf8(s))
  {
    PercentEncodeIsUrlEncode(s);
    EncodeBytesWellFormed(Utf8(s));
    DecodeEncode(Utf8(s));
  }
}
