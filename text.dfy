// The string operations the core relies on, written out with the standard
// library's semantics: Unicode white space for `trim` and `split_whitespace`,
// `split` on one character (empty pieces kept), `join`, suffix stripping,
// ASCII case mapping and UTF-8 encoding.
module Text {
  import opened Types

  /** The characters with the Unicode White_Space property. */
  predicate IsWhitespace(c: char)
  {
    ('\U{0009}' <= c <= '\U{000D}') || c == ' ' || c == '\U{0085}' || c == '\U{00A0}'
    || c == '\U{1680}' || ('\U{2000}' <= c <= '\U{200A}') || c == '\U{2028}'
    || c == '\U{2029}' || c == '\U{202F}' || c == '\U{205F}' || c == '\U{3000}'
  }

  predicate NoWhitespace(s: string)
  {
    forall i :: 0 <= i < |s| ==> !IsWhitespace(s[i])
  }

  /** A non-empty run of non-white-space characters. */
  predicate IsToken(s: string)
  {
    |s| > 0 && NoWhitespace(s)
  }

  function TrimStart(s: string): (r: string)
    ensures |r| <= |s| && r == s[|s| - |r|..]
    ensures forall i :: 0 <= i < |s| - |r| ==> IsWhitespace(s[i])
    ensures r != [] ==> !IsWhitespace(r[0])
  {
    if s != [] && IsWhitespace(s[0]) then TrimStart(s[1..]) else s
  }

  function TrimEnd(s: string): (r: string)
    ensures |r| <= |s| && r == s[..|r|]
    ensures forall i :: |r| <= i < |s| ==> IsWhitespace(s[i])
    ensures r != [] ==> !IsWhitespace(r[|r| - 1])
  {
    if s != [] && IsWhitespace(s[|s| - 1]) then TrimEnd(s[..|s| - 1]) else s
  }

  /** `str::trim`. */
  function Trim(s: string): string
  {
    TrimEnd(TrimStart(s))
  }

  /** Trimming is empty exactly when the text is all white space. */
  lemma TrimEmptyIff(s: string)
    ensures Trim(s) == [] <==> (forall i :: 0 <= i < |s| ==> IsWhitespace(s[i]))
  {
    var t := TrimStart(s);
    if Trim(s) == [] {
      forall i | 0 <= i < |s| ensures IsWhitespace(s[i]) {
        if i >= |s| - |t| {
          assert t[i - (|s| - |t|)] == s[i];
        }
      }
    } else {
      var r := Trim(s);
      assert !IsWhitespace(r[0]);
      assert r[0] == t[0] == s[|s| - |t|];
    }
  }

  /** Trimming a token leaves it unchanged. */
  lemma TrimToken(s: string)
    requires IsToken(s)
    ensures Trim(s) == s
  {
  }

  predicate StartsWith(s: string, prefix: string)
  {
    |prefix| <= |s| && s[..|prefix|] == prefix
  }

  predicate EndsWith(s: string, suffix: string)
  {
    |suffix| <= |s| && s[|s| - |suffix|..] == suffix
  }

  /** `str::contains` with a string pattern. */
  predicate Contains(haystack: string, needle: string)
    decreases |haystack|
  {
    StartsWith(haystack, needle) || (haystack != [] && Contains(haystack[1..], needle))
  }

  /** A text holding the pattern holds the pattern's first character. */
  lemma {:induction false} ContainsFirstChar(s: string, pattern: string)
    requires |pattern| > 0 && Contains(s, pattern)
    ensures pattern[0] in s
    decreases |s|
  {
    if StartsWith(s, pattern) {
      assert s[0] == pattern[0];
    } else {
      ContainsFirstChar(s[1..], pattern);
      assert pattern[0] in s[1..];
    }
  }

  /** `str::strip_suffix`. */
  function StripSuffix(s: string, suffix: string): (r: Option<string>)
    ensures r.Some? <==> EndsWith(s, suffix)
    ensures r.Some? ==> r.value + suffix == s
  {
    if EndsWith(s, suffix) then Some(s[..|s| - |suffix|]) else None
  }

  /** `str::trim_end_matches` with a string pattern: strips the suffix as often
      as it occurs at the end. */
  function TrimEndMatches(s: string, suffix: string): (r: string)
    ensures |r| <= |s| && r == s[..|r|]
    ensures |suffix| > 0 ==> !EndsWith(r, suffix)
    decreases |s|
  {
    if |suffix| > 0 && EndsWith(s, suffix) then TrimEndMatches(s[..|s| - |suffix|], suffix) else s
  }

  /** `str::trim_end_matches('.')`. */
  function TrimEndDots(s: string): (r: string)
    ensures |r| <= |s| && r == s[..|r|]
    ensures forall i :: |r| <= i < |s| ==> s[i] == '.'
    ensures r == [] || r[|r| - 1] != '.'
  {
    if s != [] && s[|s| - 1] == '.' then TrimEndDots(s[..|s| - 1]) else s
  }

  // ---------------------------------------------------------------------
  // Joining and splitting

  /** `[String]::join(sep)`. */
  function Join(parts: seq<string>, sep: string): string
  {
    if |parts| == 0 then ""
    else if |parts| == 1 then parts[0]
    else parts[0] + sep + Join(parts[1..], sep)
  }

  /** `str::split(c)`: every piece, empty ones included; never empty. */
  function Split(s: string, c: char): (r: seq<string>)
    ensures |r| >= 1
    ensures forall i :: 0 <= i < |r| ==> c !in r[i]
    ensures Join(r, [c]) == s
    decreases |s|
  {
    if c !in s then [s]
    else
      var i := IndexOf(s, c);
      var rest := Split(s[i + 1..], c);
      assert s == s[..i] + [c] + s[i + 1..];
      [s[..i]] + rest
  }

  function IndexOf(s: string, c: char): (i: nat)
    requires c in s
    ensures i < |s| && s[i] == c && c !in s[..i]
  {
    if s[0] == c then 0 else 1 + IndexOf(s[1..], c)
  }

  /** Splitting a join at a separator the pieces do not contain gives the
      pieces back. */
  lemma {:induction false} SplitJoin(parts: seq<string>, c: char)
    requires |parts| >= 1
    requires forall i :: 0 <= i < |parts| ==> c !in parts[i]
    ensures Split(Join(parts, [c]), c) == parts
    decreases |parts|
  {
    if |parts| == 1 {
    } else {
      var s := Join(parts, [c]);
      var tail := Join(parts[1..], [c]);
      assert s == parts[0] + [c] + tail;
      assert s[|parts[0]|] == c;
      assert s[..|parts[0]|] == parts[0];
      assert c !in s[..|parts[0]|];
      assert c in s;
      assert IndexOf(s, c) == |parts[0]| by {
        IndexOfFirst(s, c, |parts[0]|);
      }
      assert s[|parts[0]| + 1..] == tail;
      SplitJoin(parts[1..], c);
    }
  }

  /** A piece free of the separator, then the separator, then the rest:
      splitting gives the piece and then the rest's pieces. */
  lemma SplitCons(a: string, c: char, b: string)
    requires c !in a
    ensures Split(a + [c] + b, c) == [a] + Split(b, c)
  {
    var s := a + [c] + b;
    assert s[..|a|] == a;
    IndexOfFirst(s, c, |a|);
    assert s[|a| + 1..] == b;
  }

  lemma IndexOfFirst(s: string, c: char, k: nat)
    requires k < |s| && s[k] == c && c !in s[..k]
    ensures c in s && IndexOf(s, c) == k
    decreases k
  {
    if s[0] != c {
      assert k > 0;
      assert s[1..][..k - 1] == s[..k][1..];
      IndexOfFirst(s[1..], c, k - 1);
    }
  }

  // ---------------------------------------------------------------------
  // `str::split_whitespace`

  /** The longest white-space-free prefix. */
  function Word(s: string): (w: string)
    ensures |w| <= |s| && NoWhitespace(w) && w == s[..|w|]
    ensures |w| < |s| ==> IsWhitespace(s[|w|])
  {
    if s == [] || IsWhitespace(s[0]) then "" else [s[0]] + Word(s[1..])
  }

  /** `str::split_whitespace`: the maximal non-white-space runs. */
  function Words(s: string): (r: seq<string>)
    ensures forall i :: 0 <= i < |r| ==> IsToken(r[i])
    decreases |s|
  {
    if s == [] then []
    else if IsWhitespace(s[0]) then Words(s[1..])
    else
      var w := Word(s);
      [w] + Words(s[|w|..])
  }

  lemma WordOfToken(w: string, rest: string)
    requires IsToken(w)
    requires rest == [] || IsWhitespace(rest[0])
    ensures Word(w + rest) == w
    decreases |w|
  {
    if |w| > 1 {
      assert (w + rest)[1..] == w[1..] + rest;
      WordOfToken(w[1..], rest);
    } else {
      assert (w + rest)[1..] == rest;
    }
  }

  /** A token followed by a space and more text splits into the token and the
      words of the rest. */
  lemma {:induction false} WordsCons(w: string, rest: string)
    requires IsToken(w)
    ensures Words(w + " " + rest) == [w] + Words(rest)
  {
    var s := w + " " + rest;
    WordOfToken(w, " " + rest);
    assert s == w + (" " + rest);
    assert Word(s) == w;
    assert s[|w|..] == " " + rest;
    assert (" " + rest)[1..] == rest;
  }

  lemma {:induction false} WordsToken(w: string)
    requires IsToken(w)
    ensures Words(w) == [w]
  {
    WordOfToken(w, "");
    assert w + "" == w;
    assert w[|w|..] == [];
  }

  /** `split_whitespace` undoes a single-space join of tokens. */
  lemma {:induction false} WordsJoin(parts: seq<string>)
    requires forall i :: 0 <= i < |parts| ==> IsToken(parts[i])
    ensures Words(Join(parts, " ")) == parts
    decreases |parts|
  {
    if |parts| == 0 {
    } else if |parts| == 1 {
      WordsToken(parts[0]);
    } else {
      WordsCons(parts[0], Join(parts[1..], " "));
      WordsJoin(parts[1..]);
      assert parts == [parts[0]] + parts[1..];
    }
  }

  // ---------------------------------------------------------------------
  // Case mapping and lexicographic order

  function LowerChar(c: char): char
  {
    if 'A' <= c <= 'Z' then (c as int + 32) as char else c
  }

  function UpperChar(c: char): char
  {
    if 'a' <= c <= 'z' then (c as int - 32) as char else c
  }

  /** `str::to_lowercase`, restricted to the ASCII letters. */
  function ToLower(s: string): (r: string)
    ensures |r| == |s|
    ensures forall i :: 0 <= i < |s| ==> r[i] == LowerChar(s[i])
  {
    seq(|s|, i requires 0 <= i < |s| => LowerChar(s[i]))
  }

  /** `str::to_uppercase`, restricted to the ASCII letters. */
  function ToUpper(s: string): (r: string)
    ensures |r| == |s|
    ensures forall i :: 0 <= i < |s| ==> r[i] == UpperChar(s[i])
  {
    seq(|s|, i requires 0 <= i < |s| => UpperChar(s[i]))
  }

  /** Lower-casing twice is lower-casing once. */
  lemma ToLowerIdempotent(s: string)
    ensures ToLower(ToLower(s)) == ToLower(s)
  {
  }

  /** Strict lexicographic order on code points, which is the order of
      `String`'s `Ord` (UTF-8 byte order agrees with code point order). */
  predicate Less(a: string, b: string)
  {
    if a == [] then b != []
    else if b == [] then false
    else a[0] < b[0] || (a[0] == b[0] && Less(a[1..], b[1..]))
  }

  lemma LessIrreflexive(a: string)
    ensures !Less(a, a)
  {
  }

  lemma {:induction false} LessTransitive(a: string, b: string, c: string)
    requires Less(a, b) && Less(b, c)
    ensures Less(a, c)
    decreases |a|
  {
    if a != [] && b != [] && c != [] && a[0] == b[0] == c[0] {
      LessTransitive(a[1..], b[1..], c[1..]);
    }
  }

  lemma {:induction false} LessTotal(a: string, b: string)
    ensures a == b || Less(a, b) || Less(b, a)
    decreases |a|
  {
    if a != [] && b != [] && a[0] == b[0] {
      LessTotal(a[1..], b[1..]);
      if a[1..] == b[1..] {
        assert a == [a[0]] + a[1..] && b == [b[0]] + b[1..];
      }
    }
  }

  lemma {:induction false} LessAsymmetric(a: string, b: string)
    requires Less(a, b)
    ensures !Less(b, a)
    decreases |a|
  {
    if a != [] && b != [] && a[0] == b[0] {
      LessAsymmetric(a[1..], b[1..]);
    }
  }

  // ---------------------------------------------------------------------
  // UTF-8

  /** The UTF-8 encoding of one Unicode scalar value. */
  function Utf8Char(c: char): (r: Bytes)
    ensures 1 <= |r| <= 4
    ensures (|r| == 1) <==> (c as int < 0x80)
  {
    var n := c as int;
    if n < 0x80 then [n]
    else if n < 0x800 then [0xC0 + n / 0x40, 0x80 + n % 0x40]
    else if n < 0x1_0000 then [0xE0 + n / 0x1000, 0x80 + (n / 0x40) % 0x40, 0x80 + n % 0x40]
    else [0xF0 + n / 0x4_0000, 0x80 + (n / 0x1000) % 0x40, 0x80 + (n / 0x40) % 0x40, 0x80 + n % 0x40]
  }

  /** `str::as_bytes`. */
  function Utf8(s: string): Bytes
  {
    if s == [] then [] else Utf8Char(s[0]) + Utf8(s[1..])
  }

  /** `str::len`: the length in UTF-8 bytes, which is at least the number of
      characters and equal to it for ASCII text. */
  function Utf8Len(s: string): (n: nat)
    ensures |s| <= n <= 4 * |s|
    ensures (forall i :: 0 <= i < |s| ==> s[i] as int < 0x80) ==> n == |s|
  {
    if s == [] then 0 else |Utf8Char(s[0])| + Utf8Len(s[1..])
  }

  lemma Utf8LenIsLength(s: string)
    ensures Utf8Len(s) == |Utf8(s)|
  {
  }
}
