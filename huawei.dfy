// Huawei Cloud DNS client (desktop/src-tauri/src/providers/huawei.rs): the
// names the API wants (fully qualified with a trailing dot) and the relative
// names the app shows, the value presentation, and the mapping of listed
// zones and recordsets.
module Huawei {
  import opened Types
  import opened Text
  import opened Numbers
  import RecordValue

  // ---------------------------------------------------------------------
  // Names

  /** `huawei_full_name` as written: "@" is the zone itself, a host ending
      with the zone's text is taken as qualified, and any other host is
      put under the zone. */
  function FullName(domainName: string, host: string): (r: string)
    ensures |r| > 0 && r[|r| - 1] == '.'
    ensures host == "@" ==> r == TrimEndDots(domainName) + "."
    ensures host != "@" && !EndsWith(host, domainName) ==> r == host + "." + TrimEndDots(domainName) + "."
  {
    if host == "@" then TrimEndDots(domainName) + "."
    else if EndsWith(host, domainName) then
      if EndsWith(host, ".") then host else host + "."
    else host + "." + TrimEndDots(domainName) + "."
  }

  /** `huawei_rr`: the name relative to the zone, "@" for the zone itself;
      it never ends with ".zone". */
  function Rr(fullName: string, domainName: string): (r: string)
    ensures TrimEndDots(fullName) == TrimEndDots(domainName) ==> r == "@"
    ensures r != "@" ==> StartsWith(TrimEndDots(fullName), r)
    ensures !EndsWith(r, "." + TrimEndDots(domainName))
  {
    var normalized := TrimEndDots(fullName);
    var zone := TrimEndDots(domainName);
    var suffix := "." + zone;
    if normalized == zone then
      assert suffix[0] == '.';
      "@"
    else if EndsWith(normalized, suffix) then TrimEndMatches(normalized, suffix)
    else normalized
  }

  /** A zone name with no trailing dot. */
  predicate Bare(domainName: string)
  {
    domainName == [] || domainName[|domainName| - 1] != '.'
  }

  lemma BareTrimmed(s: string)
    requires Bare(s)
    ensures TrimEndDots(s) == s
  {
  }

  /** A name that a trailing dot was appended to loses it again. */
  lemma TrimDotAppended(s: string)
    requires Bare(s)
    ensures TrimEndDots(s + ".") == s
  {
    assert (s + ".")[..|s + "."| - 1] == s;
  }

  /** Stripping a suffix that occurs once gives back what preceded it. */
  lemma TrimEndMatchesOnce(s: string, suffix: string)
    requires |suffix| > 0 && !EndsWith(s, suffix)
    ensures TrimEndMatches(s + suffix, suffix) == s
  {
    var t := s + suffix;
    assert t[|t| - |suffix|..] == suffix;
    assert t[..|t| - |suffix|] == s;
  }

  /** `huawei_rr` undoes `huawei_full_name` for "@" and for every host that
      does not end with the zone's name, when the zone has no trailing dot
      and the host none either. */
  lemma NameRoundTrip(domainName: string, host: string)
    requires Bare(domainName) && Bare(host)
    requires host == "@" || !EndsWith(host, domainName)
    ensures Rr(FullName(domainName, host), domainName) == host
  {
    BareTrimmed(domainName);
    if host == "@" {
      TrimDotAppended(domainName);
    } else {
      // A host that does not end with the zone's name puts the zone non-empty.
      assert domainName != [];
      var n := host + "." + domainName;
      assert FullName(domainName, host) == n + ".";
      assert n[|n| - 1] == domainName[|domainName| - 1];
      TrimDotAppended(n);
      assert n != domainName;
      assert !EndsWith(host, "." + domainName);
      assert n == host + ("." + domainName);
      TrimEndMatchesOnce(host, "." + domainName);
    }
  }

  /** A host already qualified with the zone, "sub.zone", is sent with a
      trailing dot and shown again as "sub". */
  lemma QualifiedHostRoundTrip(domainName: string, sub: string)
    requires Bare(domainName) && domainName != [] && Bare(sub)
    requires !EndsWith(sub, "." + domainName)
    ensures FullName(domainName, sub + "." + domainName) == sub + "." + domainName + "."
    ensures Rr(FullName(domainName, sub + "." + domainName), domainName) == sub
  {
    BareTrimmed(domainName);
    var h := sub + "." + domainName;
    assert h[|h| - |domainName|..] == domainName;
    assert h[|h| - 1] == domainName[|domainName| - 1];
    TrimDotAppended(h);
    assert h != domainName;
    assert h == sub + ("." + domainName);
    TrimEndMatchesOnce(sub, "." + domainName);
  }

  // ---------------------------------------------------------------------
  // Findings about `huawei_full_name`

  /** A fully qualified host with its trailing dot, "www.example.com.", does
      not end with the zone's text "example.com", so it is put under the
      zone a second time. */
  lemma QualifiedDottedHostDoubled(domainName: string, sub: string)
    requires Bare(domainName) && domainName != []
    ensures var host := sub + "." + domainName + ".";
            FullName(domainName, host) == host + "." + domainName + "."
  {
    BareTrimmed(domainName);
    var host := sub + "." + domainName + ".";
    assert host[|host| - 1] == '.';
  }

  /** A host that ends with the zone's text without a label boundary,
      "myexample.com" in "example.com", is taken as qualified and sent as a
      name outside the zone. */
  lemma UnboundedSuffixLeavesZone()
    ensures FullName("example.com", "myexample.com") == "myexample.com."
    ensures !EndsWith(FullName("example.com", "myexample.com"), ".example.com.")
    ensures FullName("example.com", "myexample.com") != "example.com."
  {
    var h := "myexample.com";
    assert h[|h| - |"example.com"|..] == "example.com";
    assert h[|h| - 1] == 'm';
    var r := FullName("example.com", h);
    assert r == h + ".";
    assert r[|r| - |".example.com."|] == 'y';
  }

  /** The corrected full name: trailing dots of host and zone are ignored,
      and a host counts as qualified only when it is the zone or ends with
      "." followed by the zone. */
  function FullNameInZone(domainName: string, host: string): (r: string)
  {
    var zone := TrimEndDots(domainName);
    var h := TrimEndDots(host);
    if host == "@" || h == zone then zone + "."
    else if EndsWith(h, "." + zone) then h + "."
    else h + "." + zone + "."
  }

  /** Every name sent lies in the zone: it is the zone or ends with
      ".zone.". */
  lemma FullNameInZoneInZone(domainName: string, host: string)
    ensures var zone := TrimEndDots(domainName);
            var r := FullNameInZone(domainName, host);
            r == zone + "." || EndsWith(r, "." + zone + ".")
  {
    var zone := TrimEndDots(domainName);
    var h := TrimEndDots(host);
    var r := FullNameInZone(domainName, host);
    if host == "@" || h == zone {
    } else if EndsWith(h, "." + zone) {
      assert r == h + ".";
      EndsWithDot(h, "." + zone);
    } else {
      assert r == h + ("." + zone + ".");
      EndsWithAppended(h, "." + zone + ".");
    }
  }

  lemma EndsWithDot(s: string, suffix: string)
    requires EndsWith(s, suffix)
    ensures EndsWith(s + ".", suffix + ".")
  {
    assert (s + ".")[|s + "."| - |suffix + "."|..] == s[|s| - |suffix|..] + ".";
  }

  lemma EndsWithAppended(s: string, suffix: string)
    ensures EndsWith(s + suffix, suffix)
  {
    assert (s + suffix)[|s|..] == suffix;
  }

  /** `huawei_rr` undoes the corrected name for "@", for relative hosts and
      for hosts qualified with or without the trailing dot. */
  lemma FullNameInZoneRoundTrip(domainName: string, sub: string)
    requires Bare(domainName) && domainName != [] && Bare(sub) && sub != []
    requires sub != "@" && sub != domainName && !EndsWith(sub, "." + domainName)
    ensures Rr(FullNameInZone(domainName, "@"), domainName) == "@"
    ensures Rr(FullNameInZone(domainName, sub), domainName) == sub
    ensures Rr(FullNameInZone(domainName, sub + "." + domainName), domainName) == sub
    ensures Rr(FullNameInZone(domainName, sub + "." + domainName + "."), domainName) == sub
  {
    BareTrimmed(domainName);
    BareTrimmed(sub);
    TrimDotAppended(domainName);
    // A relative name.
    var n := sub + "." + domainName;
    assert n[|n| - 1] == domainName[|domainName| - 1];
    assert FullNameInZone(domainName, sub) == n + ".";
    TrimDotAppended(n);
    assert n == sub + ("." + domainName);
    TrimEndMatchesOnce(sub, "." + domainName);
    // The same name qualified, with and without the trailing dot.
    BareTrimmed(n);
    TrimDotAppended(n);
    assert n != domainName;
    assert FullNameInZone(domainName, n) == n + ".";
    assert FullNameInZone(domainName, n + ".") == n + ".";
  }

  // ---------------------------------------------------------------------
  // Values

  /** `huawei_value`. */
  function HuaweiValue(recordType: string, content: string, srvPriority: Option<u16>,
                       srvWeight: Option<u16>, srvPort: Option<u16>, caaFlags: Option<u8>,
                       caaTag: Option<string>): string
  {
    RecordValue.Format(recordType, content, srvPriority, srvWeight, srvPort, caaFlags, caaTag)
  }

  /** `parse_huawei_record_value`. */
  function ParseHuaweiRecordValue(recordType: string, value: string): RecordValue.Parsed
  {
    RecordValue.Parse(recordType, value)
  }

  /** Reading back a formatted value gives the content and the SRV or CAA
      fields, with 0 for missing numbers and "issue" for a missing tag. */
  lemma ValueRoundTrip(recordType: string, content: string, srvPriority: Option<u16>,
                       srvWeight: Option<u16>, srvPort: Option<u16>, caaFlags: Option<u8>,
                       caaTag: Option<string>)
    requires (recordType == "SRV" || recordType == "CAA") ==> RecordValue.SingleSpaced(content)
    requires recordType == "CAA" ==> IsToken(caaTag.UnwrapOr("issue"))
    ensures ParseHuaweiRecordValue(recordType,
              HuaweiValue(recordType, content, srvPriority, srvWeight, srvPort, caaFlags, caaTag))
         == RecordValue.Expected(recordType, content, srvPriority, srvWeight, srvPort, caaFlags, caaTag)
  {
    RecordValue.RoundTrip(recordType, content, srvPriority, srvWeight, srvPort, caaFlags, caaTag);
  }

  /** Too short an SRV or CAA value, and any value of another type, is kept
      whole with no structured field. */
  lemma ShortValuesRaw(recordType: string, value: string)
    requires recordType == "SRV" ==> |Words(value)| < 4
    requires recordType == "CAA" ==> |Words(value)| < 3
    ensures ParseHuaweiRecordValue(recordType, value) == RecordValue.Raw(value)
  {
  }

  // ---------------------------------------------------------------------
  // Zones and recordsets

  datatype HuaweiZone = HuaweiZone(id: string, name: string, recordNum: Option<u32>, updateAt: Option<string>)

  /** One item of `list_domains`; `rfc3339` reads the zone's update time
      and renders it again (None when it does not parse). */
  function ZoneItem(zone: HuaweiZone, rfc3339: string -> Option<string>): (r: DomainItem)
    ensures r.name == TrimEndDots(zone.name) && (r.name == [] || r.name[|r.name| - 1] != '.')
    ensures r.provider == Provider.Huawei && r.providerId == zone.id && r.status == DomainStatus.Ok
    ensures r.recordsCount == zone.recordNum
    ensures zone.updateAt.None? ==> r.lastChangedAt.None?
  {
    DomainItem(Provider.Huawei, TrimEndDots(zone.name), zone.id, DomainStatus.Ok, zone.recordNum,
               match zone.updateAt case Some(s) => rfc3339(s) case None => None)
  }

  /** A listed zone name is bare, so it satisfies the condition of the
      name round trip. */
  lemma ZoneNameBare(zone: HuaweiZone, rfc3339: string -> Option<string>)
    ensures Bare(ZoneItem(zone, rfc3339).name)
  {
  }

  datatype HuaweiRecordset = HuaweiRecordset(
    id: string, name: string, recordType: string, ttl: u32, records: seq<string>, priority: Option<u16>)

  /** The value a recordset is shown with: its first value, "" when it has
      none. */
  function FirstValue(records: seq<string>): (v: string)
    ensures |records| > 0 ==> v == records[0]
    ensures |records| == 0 ==> v == ""
  {
    if |records| > 0 then records[0] else ""
  }

  /** One record of `list_records`. */
  function ListedRecord(rs: HuaweiRecordset, domainName: string): (r: DnsRecord)
    ensures r.id == rs.id && r.provider == Provider.Huawei && r.domain == domainName
    ensures r.recordType == rs.recordType && r.ttl == rs.ttl && r.mxPriority == rs.priority
    ensures r.name == Rr(rs.name, domainName)
  {
    var p := ParseHuaweiRecordValue(rs.recordType, FirstValue(rs.records));
    DnsRecord(rs.id, Provider.Huawei, domainName, rs.recordType, Rr(rs.name, domainName), p.content,
              rs.ttl, rs.priority, p.srvPriority, p.srvWeight, p.srvPort, p.caaFlags, p.caaTag)
  }

  /** A recordset created from a request lists back with the request's
      host, content and fields, and one with no value shows empty content. */
  lemma ListedRecordRoundTrip(id: string, domainName: string, req: RecordCreateRequest, priority: Option<u16>)
    requires Bare(domainName) && Bare(req.name)
    requires req.name == "@" || !EndsWith(req.name, domainName)
    requires (req.recordType == "SRV" || req.recordType == "CAA") ==> RecordValue.SingleSpaced(req.content)
    requires req.recordType == "CAA" ==> IsToken(req.caaTag.UnwrapOr("issue"))
    ensures var value := HuaweiValue(req.recordType, req.content, req.srvPriority, req.srvWeight,
                                     req.srvPort, req.caaFlags, req.caaTag);
            var rs := HuaweiRecordset(id, FullName(domainName, req.name), req.recordType, req.ttl, [value], priority);
            var r := ListedRecord(rs, domainName);
            var x := RecordValue.Expected(req.recordType, req.content, req.srvPriority, req.srvWeight,
                                          req.srvPort, req.caaFlags, req.caaTag);
            r.name == req.name && r.content == req.content
            && r.srvPriority == x.srvPriority && r.srvWeight == x.srvWeight && r.srvPort == x.srvPort
            && r.caaFlags == x.caaFlags && r.caaTag == x.caaTag
    ensures ListedRecord(HuaweiRecordset(id, req.name, "A", req.ttl, [], priority), domainName).content == ""
  {
    var value := HuaweiValue(req.recordType, req.content, req.srvPriority, req.srvWeight,
                             req.srvPort, req.caaFlags, req.caaTag);
    var rs := HuaweiRecordset(id, FullName(domainName, req.name), req.recordType, req.ttl, [value], priority);
    NameRoundTrip(domainName, req.name);
    ValueRoundTrip(req.recordType, req.content, req.srvPriority, req.srvWeight, req.srvPort,
                   req.caaFlags, req.caaTag);
    assert FirstValue(rs.records) == value;
    var p := ParseHuaweiRecordValue(req.recordType, value);
    assert p == RecordValue.Expected(req.recordType, req.content, req.srvPriority, req.srvWeight,
                                     req.srvPort, req.caaFlags, req.caaTag);
    ListedRecordFields(rs, domainName);
    assert ListedRecord(rs, domainName).name == req.name;
    ListedRecordFields(HuaweiRecordset(id, req.name, "A", req.ttl, [], priority), domainName);
  }

  /** A listed record's content and fields are those of its first value. */
  lemma ListedRecordFields(rs: HuaweiRecordset, domainName: string)
    ensures var p := ParseHuaweiRecordValue(rs.recordType, FirstValue(rs.records));
            var r := ListedRecord(rs, domainName);
            r.content == p.content && r.srvPriority == p.srvPriority && r.srvWeight == p.srvWeight
            && r.srvPort == p.srvPort && r.caaFlags == p.caaFlags && r.caaTag == p.caaTag
  {
  }

  /** The body of `create_record`: the name `huawei_full_name` gives, the
      type, the TTL and the one formatted value. */
  datatype CreatePayload = CreatePayload(name: string, recordType: string, ttl: u32, records: seq<string>)

  function BuildCreatePayload(domainName: string, req: RecordCreateRequest): (p: CreatePayload)
    ensures p.name == FullName(domainName, req.name) && p.name[|p.name| - 1] == '.'
    ensures p.recordType == req.recordType && p.ttl == req.ttl
    ensures p.records == [HuaweiValue(req.recordType, req.content, req.srvPriority, req.srvWeight,
                                      req.srvPort, req.caaFlags, req.caaTag)]
  {
    CreatePayload(FullName(domainName, req.name), req.recordType, req.ttl,
                  [HuaweiValue(req.recordType, req.content, req.srvPriority, req.srvWeight,
                               req.srvPort, req.caaFlags, req.caaTag)])
  }

  /** The recordset the payload creates lists back as the request: its
      host, its content and its SRV or CAA fields. */
  lemma PayloadListsBack(id: string, domainName: string, req: RecordCreateRequest, priority: Option<u16>)
    requires Bare(domainName) && Bare(req.name)
    requires req.name == "@" || !EndsWith(req.name, domainName)
    requires (req.recordType == "SRV" || req.recordType == "CAA") ==> RecordValue.SingleSpaced(req.content)
    requires req.recordType == "CAA" ==> IsToken(req.caaTag.UnwrapOr("issue"))
    ensures var p := BuildCreatePayload(domainName, req);
            var r := ListedRecord(HuaweiRecordset(id, p.name, p.recordType, p.ttl, p.records, priority), domainName);
            var x := RecordValue.Expected(req.recordType, req.content, req.srvPriority, req.srvWeight,
                                          req.srvPort, req.caaFlags, req.caaTag);
            r.name == req.name && r.recordType == req.recordType && r.ttl == req.ttl && r.content == req.content
            && r.srvPriority == x.srvPriority && r.srvWeight == x.srvWeight && r.srvPort == x.srvPort
            && r.caaFlags == x.caaFlags && r.caaTag == x.caaTag
  {
    ListedRecordRoundTrip(id, domainName, req, priority);
  }

  /** As written, a host "myexample.com" in the zone "example.com" is sent
      as "myexample.com.", a name outside the zone. */
  lemma PayloadLeavesZone(req: RecordCreateRequest)
    requires req.name == "myexample.com"
    ensures BuildCreatePayload("example.com", req).name == "myexample.com."
    ensures !EndsWith(BuildCreatePayload("example.com", req).name, ".example.com.")
  {
    UnboundedSuffixLeavesZone();
  }

  /** The corrected body of `create_record`, named by `FullNameInZone`. */
  function BuildCreatePayloadInZone(domainName: string, req: RecordCreateRequest): (p: CreatePayload)
    ensures p.recordType == req.recordType && p.ttl == req.ttl
    ensures p.records == BuildCreatePayload(domainName, req).records
  {
    CreatePayload(FullNameInZone(domainName, req.name), req.recordType, req.ttl,
                  [HuaweiValue(req.recordType, req.content, req.srvPriority, req.srvWeight,
                               req.srvPort, req.caaFlags, req.caaTag)])
  }

  /** Every corrected payload names a record inside the zone. */
  lemma PayloadInZone(domainName: string, req: RecordCreateRequest)
    ensures var zone := TrimEndDots(domainName);
            var n := BuildCreatePayloadInZone(domainName, req).name;
            n == zone + "." || EndsWith(n, "." + zone + ".")
  {
    FullNameInZoneInZone(domainName, req.name);
  }

  /** The record `create_record` returns: the answer's id, type, name and
      TTL, with the request's content read through the value parser (not
      the formatted value that was sent). */
  function CreatedRecord(answer: HuaweiRecordset, domainName: string, req: RecordCreateRequest): (r: DnsRecord)
    ensures r.id == answer.id && r.recordType == answer.recordType && r.ttl == answer.ttl
    ensures r.name == Rr(answer.name, domainName) && r.mxPriority == answer.priority
  {
    var p := ParseHuaweiRecordValue(answer.recordType, req.content);
    DnsRecord(answer.id, Provider.Huawei, domainName, answer.recordType, Rr(answer.name, domainName),
              p.content, answer.ttl, answer.priority, p.srvPriority, p.srvWeight, p.srvPort,
              p.caaFlags, p.caaTag)
  }

  /** Since the request's content is a bare target, an SRV or CAA answer
      comes back with that content and no structured field. */
  lemma CreatedRecordKeepsContent(answer: HuaweiRecordset, domainName: string, req: RecordCreateRequest)
    requires IsToken(req.content)
    ensures var r := CreatedRecord(answer, domainName, req);
            r.content == req.content && r.srvPriority.None? && r.caaTag.None?
  {
    WordsToken(req.content);
  }
}
