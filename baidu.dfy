// Baidu Cloud DNS client (desktop/src-tauri/src/providers/baidu.rs): the
// SRV/CAA value presentation, the record mapping and the canonical parts of
// the BCE request signature (query string and headers).
module Baidu {
  import opened Types
  import opened Text
  import opened PercentEncoding
  import opened OrderedParams
  import RecordValue
  import CanonicalQuery

  /** `baidu_value`. */
  function BaiduValue(recordType: string, content: string, srvPriority: Option<u16>,
                      srvWeight: Option<u16>, srvPort: Option<u16>, caaFlags: Option<u8>,
                      caaTag: Option<string>): string
  {
    RecordValue.Format(recordType, content, srvPriority, srvWeight, srvPort, caaFlags, caaTag)
  }

  /** `parse_baidu_record_value`. */
  function ParseBaiduRecordValue(recordType: string, value: string): RecordValue.Parsed
  {
    RecordValue.Parse(recordType, value)
  }

  /** Parsing a formatted value gives back the content and the SRV or CAA
      fields (missing numbers as 0, a missing tag as "issue"); other types
      carry the content unchanged with no structured fields. */
  lemma ValueRoundTrip(recordType: string, content: string, srvPriority: Option<u16>,
                       srvWeight: Option<u16>, srvPort: Option<u16>, caaFlags: Option<u8>,
                       caaTag: Option<string>)
    requires (recordType == "SRV" || recordType == "CAA") ==> RecordValue.SingleSpaced(content)
    requires recordType == "CAA" ==> IsToken(caaTag.UnwrapOr("issue"))
    ensures ParseBaiduRecordValue(recordType,
              BaiduValue(recordType, content, srvPriority, srvWeight, srvPort, caaFlags, caaTag))
         == RecordValue.Expected(recordType, content, srvPriority, srvWeight, srvPort, caaFlags, caaTag)
  {
    RecordValue.RoundTrip(recordType, content, srvPriority, srvWeight, srvPort, caaFlags, caaTag);
  }

  /** Types other than SRV and CAA: the value is the content, and any value
      parses to itself with every structured field absent. */
  lemma OtherTypesVerbatim(recordType: string, content: string, value: string,
                           srvPriority: Option<u16>, srvWeight: Option<u16>, srvPort: Option<u16>,
                           caaFlags: Option<u8>, caaTag: Option<string>)
    requires recordType != "SRV" && recordType != "CAA"
    ensures BaiduValue(recordType, content, srvPriority, srvWeight, srvPort, caaFlags, caaTag) == content
    ensures ParseBaiduRecordValue(recordType, value) == RecordValue.Raw(value)
  {
  }

  datatype BaiduRecord = BaiduRecord(
    id: string, rr: string, recordType: string, value: string, ttl: u32, priority: Option<u16>)

  /** `BaiduRecord::to_dns_record`. */
  function ToDnsRecord(rec: BaiduRecord, domainName: string): DnsRecord
  {
    var p := ParseBaiduRecordValue(rec.recordType, rec.value);
    DnsRecord(rec.id, Provider.Baidu, domainName, rec.recordType, rec.rr, p.content, rec.ttl,
              rec.priority, p.srvPriority, p.srvWeight, p.srvPort, p.caaFlags, p.caaTag)
  }

  /** A record stored with the value `baidu_value` formats is listed back
      with the request's content and structured fields, its name, and
      `mx_priority` taken from the priority. */
  lemma ListedRecordRoundTrip(id: string, rr: string, recordType: string, content: string,
                              ttl: u32, priority: Option<u16>, srvPriority: Option<u16>,
                              srvWeight: Option<u16>, srvPort: Option<u16>,
                              caaFlags: Option<u8>, caaTag: Option<string>, domainName: string)
    requires (recordType == "SRV" || recordType == "CAA") ==> RecordValue.SingleSpaced(content)
    requires recordType == "CAA" ==> IsToken(caaTag.UnwrapOr("issue"))
    ensures var r := ToDnsRecord(BaiduRecord(id, rr, recordType,
                       BaiduValue(recordType, content, srvPriority, srvWeight, srvPort, caaFlags, caaTag),
                       ttl, priority), domainName);
            var x := RecordValue.Expected(recordType, content, srvPriority, srvWeight, srvPort, caaFlags, caaTag);
            r.id == id && r.name == rr && r.domain == domainName && r.provider == Provider.Baidu
            && r.content == content && r.mxPriority == priority && r.ttl == ttl
            && r.srvPriority == x.srvPriority && r.srvWeight == x.srvWeight && r.srvPort == x.srvPort
            && r.caaFlags == x.caaFlags && r.caaTag == x.caaTag
  {
    ValueRoundTrip(recordType, content, srvPriority, srvWeight, srvPort, caaFlags, caaTag);
  }

  // ---------------------------------------------------------------------
  // Canonical query string

  /** `canonical_query_string`: the loop is the shared one, and the map
      hands it its entries in ascending key order. */
  method CanonicalQueryString(params: Entries) returns (query: string)
    requires Ordered(params)
    ensures query == Join(CanonicalQuery.EncodedPairs(params), "&")
    ensures params == [] ==> query == ""
    ensures |params| >= 1 ==> Split(query, '&') == CanonicalQuery.EncodedPairs(params)
  {
    query := CanonicalQuery.CanonicalQueryString(params);
    if |params| >= 1 {
      CanonicalQuery.QuerySplitsIntoPairs(params);
    }
  }

  // ---------------------------------------------------------------------
  // Canonical headers

  type Header = (string, string)

  /** Name lower-cased, value trimmed. */
  function Normalize(h: Header): Header
  {
    (ToLower(h.0), Trim(h.1))
  }

  function NormalizeAll(hs: seq<Header>): seq<Header>
  {
    seq(|hs|, i requires 0 <= i < |hs| => Normalize(hs[i]))
  }

  /** Ordered by name, ties in any order. */
  predicate SortedByName(hs: seq<Header>)
  {
    forall i, j :: 0 <= i < j < |hs| ==> !Less(hs[j].0, hs[i].0)
  }

  /** Insertion before the first element whose name is not smaller. */
  function InsertByName(h: Header, sorted: seq<Header>): seq<Header>
  {
    if sorted == [] || !Less(sorted[0].0, h.0) then [h] + sorted
    else [sorted[0]] + InsertByName(h, sorted[1..])
  }

  /** `sort_by(|a, b| a.0.cmp(&b.0))`: a sort by name (the signed headers
      have distinct names, so the order of equal names is not stated). */
  function SortByName(hs: seq<Header>): seq<Header>
  {
    if hs == [] then [] else InsertByName(hs[0], SortByName(hs[1..]))
  }

  lemma NotLessTransitive(a: string, b: string, c: string)
    requires !Less(b, a) && !Less(c, b)
    ensures !Less(c, a)
  {
    LessTotal(a, b);
    LessTotal(b, c);
    if Less(c, a) {
      if a == b {
      } else if b == c {
      } else {
        LessTransitive(a, b, c);
        LessAsymmetric(a, c);
      }
    }
  }

  lemma {:induction false} InsertByNameMultiset(h: Header, sorted: seq<Header>)
    ensures multiset(InsertByName(h, sorted)) == multiset{h} + multiset(sorted)
    decreases |sorted|
  {
    if sorted != [] && Less(sorted[0].0, h.0) {
      InsertByNameMultiset(h, sorted[1..]);
      assert sorted == [sorted[0]] + sorted[1..];
    }
  }

  /** Every name after the head of a sorted sequence is at least the head's. */
  lemma HeadIsLeast(sorted: seq<Header>, x: Header)
    requires SortedByName(sorted) && sorted != []
    requires x in multiset(sorted[1..])
    ensures !Less(x.0, sorted[0].0)
  {
    var k :| 0 <= k < |sorted[1..]| && sorted[1..][k] == x;
    assert sorted[k + 1] == x;
  }

  /** A header no later than every name of a sorted sequence can head it. */
  lemma ConsSorted(x: Header, t: seq<Header>)
    requires SortedByName(t)
    requires forall j :: 0 <= j < |t| ==> !Less(t[j].0, x.0)
    ensures SortedByName([x] + t)
  {
    var r := [x] + t;
    forall i, j | 0 <= i < j < |r| ensures !Less(r[j].0, r[i].0) {
      assert r[j] == t[j - 1];
      if i > 0 {
        assert r[i] == t[i - 1];
      }
    }
  }

  /** A header no later than the head of a sorted sequence can head it. */
  lemma PrependSorted(h: Header, sorted: seq<Header>)
    requires SortedByName(sorted)
    requires sorted == [] || !Less(sorted[0].0, h.0)
    ensures SortedByName([h] + sorted)
  {
    forall j | 0 <= j < |sorted| ensures !Less(sorted[j].0, h.0) {
      if j > 0 { NotLessTransitive(h.0, sorted[0].0, sorted[j].0); }
    }
    ConsSorted(h, sorted);
  }

  lemma {:induction false} InsertByNameSorted(h: Header, sorted: seq<Header>)
    requires SortedByName(sorted)
    ensures SortedByName(InsertByName(h, sorted))
    decreases |sorted|
  {
    if sorted == [] || !Less(sorted[0].0, h.0) {
      PrependSorted(h, sorted);
    } else {
      var tail := sorted[1..];
      assert SortedByName(tail) by {
        forall i, j | 0 <= i < j < |tail| ensures !Less(tail[j].0, tail[i].0) {
          assert tail[i] == sorted[i + 1] && tail[j] == sorted[j + 1];
        }
      }
      InsertByNameSorted(h, tail);
      InsertByNameMultiset(h, tail);
      var t := InsertByName(h, tail);
      LessAsymmetric(sorted[0].0, h.0);
      forall j | 0 <= j < |t| ensures !Less(t[j].0, sorted[0].0) {
        assert t[j] in multiset(t);
        if t[j] != h {
          HeadIsLeast(sorted, t[j]);
        }
      }
      ConsSorted(sorted[0], t);
    }
  }

  /** The sort orders by name and only rearranges. */
  lemma {:induction false} SortByNameCorrect(hs: seq<Header>)
    ensures SortedByName(SortByName(hs))
    ensures multiset(SortByName(hs)) == multiset(hs)
    decreases |hs|
  {
    if hs != [] {
      SortByNameCorrect(hs[1..]);
      InsertByNameSorted(hs[0], SortByName(hs[1..]));
      InsertByNameMultiset(hs[0], SortByName(hs[1..]));
      assert hs == [hs[0]] + hs[1..];
    }
  }

  function HeaderLine(h: Header): string
  {
    PercentEncode(h.0) + ":" + PercentEncode(h.1)
  }

  function HeaderLines(hs: seq<Header>): seq<string>
  {
    seq(|hs|, i requires 0 <= i < |hs| => HeaderLine(hs[i]))
  }

  /** The normalised headers in name order. */
  function CanonicalOrder(headers: seq<Header>): seq<Header>
  {
    SortByName(NormalizeAll(headers))
  }

  /** `canonical_headers`. */
  function CanonicalHeaders(headers: seq<Header>): string
  {
    Join(HeaderLines(CanonicalOrder(headers)), "\n")
  }

  /** The canonical headers are one '\n'-separated line per header, each
      "enc(name):enc(value)" of a lower-cased name and a trimmed value, in
      ascending name order, covering exactly the given headers once each. */
  lemma CanonicalHeadersLines(headers: seq<Header>)
    requires |headers| >= 1
    ensures var order := CanonicalOrder(headers);
            SortedByName(order)
            && multiset(order) == multiset(NormalizeAll(headers))
            && Split(CanonicalHeaders(headers), '\n') == HeaderLines(order)
            && |Split(CanonicalHeaders(headers), '\n')| == |headers|
  {
    var order := CanonicalOrder(headers);
    SortByNameCorrect(NormalizeAll(headers));
    assert |order| == |headers| by {
      assert |multiset(order)| == |multiset(NormalizeAll(headers))|;
    }
    var lines := HeaderLines(order);
    forall i | 0 <= i < |lines| ensures '\n' !in lines[i] {
      CanonicalQuery.EncodedAvoids(order[i].0, '\n');
      CanonicalQuery.EncodedAvoids(order[i].1, '\n');
    }
    SplitJoin(lines, '\n');
  }
}
