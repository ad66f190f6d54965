// The canonical query string of the Baidu and Aliyun signers: the parameters
// in ascending key order, each written "enc(key)=enc(value)" with the
// signers' percent-encoding, joined by '&'. Built by a loop that pushes one
// item per parameter and joins at the end.
module CanonicalQuery {
  import opened Types
  import opened Text
  import opened OrderedParams
  import opened PercentEncoding

  function EncodedPair(entry: (string, string)): string
  {
    PercentEncode(entry.0) + "=" + PercentEncode(entry.1)
  }

  function EncodedPairs(e: Entries): (r: seq<string>)
    ensures |r| == |e|
    ensures forall i :: 0 <= i < |e| ==> r[i] == EncodedPair(e[i])
  {
    if e == [] then [] else [EncodedPair(e[0])] + EncodedPairs(e[1..])
  }

  /** What the loop computes, as a function. */
  function Canonical(e: Entries): string
  {
    Join(EncodedPairs(e), "&")
  }

  /** Baidu's `canonical_query_string`, also the loop in Aliyun's `sign`. */
  method CanonicalQueryString(params: Entries) returns (query: string)
    ensures query == Canonical(params)
  {
    var items: seq<string> := [];
    var i := 0;
    while i < |params|
      invariant 0 <= i <= |params|
      invariant items == EncodedPairs(params[..i])
    {
      var (k, v) := params[i];
      assert params[..i + 1] == params[..i] + [params[i]];
      EncodedPairsAppend(params[..i], params[i]);
      items := items + [PercentEncode(k) + "=" + PercentEncode(v)];
      i := i + 1;
    }
    assert params[..|params|] == params;
    query := Join(items, "&");
  }

  lemma {:induction false} EncodedPairsAppend(e: Entries, x: (string, string))
    ensures EncodedPairs(e + [x]) == EncodedPairs(e) + [EncodedPair(x)]
    decreases |e|
  {
    if e == [] {
      assert e + [x] == [x];
    } else {
      assert (e + [x])[1..] == e[1..] + [x];
      EncodedPairsAppend(e[1..], x);
    }
  }

  /** An empty parameter map gives the empty query. */
  lemma EmptyQuery()
    ensures Canonical([]) == ""
  {
  }

  /** A character the encoder never writes. */
  lemma EncodedAvoids(s: string, c: char)
    requires !IsUnreservedChar(c) && c != '%' && !IsHexDigit(c)
    ensures c !in PercentEncode(s)
  {
    PercentEncodeDecodes(s);
    WellFormedAlphabet(PercentEncode(s));
  }

  /** The canonical query is recoverable: it splits at '&' into one item per
      parameter, in key order, and each item splits at '=' into the encoded
      key and value, which decode to the UTF-8 bytes of the originals. */
  lemma QuerySplitsIntoPairs(e: Entries)
    requires |e| >= 1
    ensures Split(Canonical(e), '&') == EncodedPairs(e)
    ensures forall i :: 0 <= i < |e| ==>
      Split(EncodedPairs(e)[i], '=') == [PercentEncode(e[i].0), PercentEncode(e[i].1)]
    ensures forall i :: 0 <= i < |e| ==>
      Decode(PercentEncode(e[i].0)) == Some(Utf8(e[i].0))
      && Decode(PercentEncode(e[i].1)) == Some(Utf8(e[i].1))
  {
    var pairs := EncodedPairs(e);
    forall i | 0 <= i < |e|
      ensures '&' !in pairs[i]
      ensures Split(pairs[i], '=') == [PercentEncode(e[i].0), PercentEncode(e[i].1)]
      ensures Decode(PercentEncode(e[i].0)) == Some(Utf8(e[i].0))
      ensures Decode(PercentEncode(e[i].1)) == Some(Utf8(e[i].1))
    {
      var k := PercentEncode(e[i].0);
      var v := PercentEncode(e[i].1);
      EncodedAvoids(e[i].0, '&');
      EncodedAvoids(e[i].1, '&');
      EncodedAvoids(e[i].0, '=');
      EncodedAvoids(e[i].1, '=');
      assert pairs[i] == k + "=" + v;
      assert Join([k, v], "=") == k + "=" + v;
      SplitJoin([k, v], '=');
      PercentEncodeDecodes(e[i].0);
      PercentEncodeDecodes(e[i].1);
    }
    SplitJoin(pairs, '&');
  }
}
