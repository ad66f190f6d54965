// DNS.COM client (desktop/src-tauri/src/providers/dnscom.rs): the value
// presentation, the request signature that `sign_params` adds to the
// caller's parameter map, the status check and the record mapping.
module Dnscom {
  import opened Types
  import opened Text
  import opened Numbers
  import opened OrderedParams
  import RecordValue

  /** `dnscom_value`. */
  function DnscomValue(recordType: string, content: string, srvPriority: Option<u16>,
                       srvWeight: Option<u16>, srvPort: Option<u16>, caaFlags: Option<u8>,
                       caaTag: Option<string>): string
  {
    RecordValue.Format(recordType, content, srvPriority, srvWeight, srvPort, caaFlags, caaTag)
  }

  /** `parse_dnscom_record_value`. */
  function ParseDnscomRecordValue(recordType: string, value: string): RecordValue.Parsed
  {
    RecordValue.Parse(recordType, value)
  }

  /** Reading back a formatted value gives the content and the SRV or CAA
      fields, with 0 for missing numbers and "issue" for a missing tag. */
  lemma ValueRoundTrip(recordType: string, content: string, srvPriority: Option<u16>,
                       srvWeight: Option<u16>, srvPort: Option<u16>, caaFlags: Option<u8>,
                       caaTag: Option<string>)
    requires (recordType == "SRV" || recordType == "CAA") ==> RecordValue.SingleSpaced(content)
    requires recordType == "CAA" ==> IsToken(caaTag.UnwrapOr("issue"))
    ensures ParseDnscomRecordValue(recordType,
              DnscomValue(recordType, content, srvPriority, srvWeight, srvPort, caaFlags, caaTag))
         == RecordValue.Expected(recordType, content, srvPriority, srvWeight, srvPort, caaFlags, caaTag)
  {
    RecordValue.RoundTrip(recordType, content, srvPriority, srvWeight, srvPort, caaFlags, caaTag);
  }

  /** Too short an SRV or CAA value, and any value of another type, is kept
      whole with no structured field. */
  lemma ShortValuesRaw(recordType: string, value: string)
    requires recordType == "SRV" ==> |Words(value)| < 4
    requires recordType == "CAA" ==> |Words(value)| < 3
    ensures ParseDnscomRecordValue(recordType, value) == RecordValue.Raw(value)
  {
  }

  // ---------------------------------------------------------------------
  // Signature

  /** One "k=v" item of the canonical string: no percent-encoding. */
  function Pair(entry: (string, string)): string
  {
    entry.0 + "=" + entry.1
  }

  function Pairs(e: Entries): (r: seq<string>)
    ensures |r| == |e|
    ensures forall i :: 0 <= i < |e| ==> r[i] == Pair(e[i])
  {
    if e == [] then [] else [Pair(e[0])] + Pairs(e[1..])
  }

  /** The text signed: the method upper-cased, the path, and the map's
      items in ascending key order joined by '&'. */
  function StringToSign(httpMethod: string, path: string, e: Entries): string
  {
    ToUpper(httpMethod) + "\n" + path + "\n" + Join(Pairs(e), "&")
  }

  /** The entries signed: the caller's with the API key and the timestamp. */
  function Unsigned(e: Entries, apiKey: string, timestamp: string): Entries
  {
    Put(Put(e, "api_key", apiKey), "timestamp", timestamp)
  }

  /** The entries `sign_params` leaves: the signed ones and the signature
      over them. */
  function SignedEntries(e: Entries, httpMethod: string, path: string, apiKey: string, apiSecret: string,
                         timestamp: string, hmacHex: (string, string) -> string): Entries
  {
    var u := Unsigned(e, apiKey, timestamp);
    Put(u, "signature", hmacHex(apiSecret, StringToSign(httpMethod, path, u)))
  }

  /** `sign_params`: adds the API key and the timestamp, signs the
      resulting map and adds the signature; `timestamp` is the caller's
      clock reading and `hmacHex` the hexadecimal HMAC-SHA256 of a message
      under a key. */
  method SignParams(params: ParamMap, httpMethod: string, path: string, apiKey: string, apiSecret: string,
                    timestamp: string, hmacHex: (string, string) -> string)
    requires params.Valid()
    modifies params
    ensures params.Valid()
    ensures params.entries == SignedEntries(old(params.entries), httpMethod, path, apiKey, apiSecret,
                                            timestamp, hmacHex)
    ensures params.Contents() == old(params.Contents())["api_key" := apiKey]["timestamp" := timestamp]
                                   ["signature" := hmacHex(apiSecret, StringToSign(httpMethod, path,
                                                    Unsigned(old(params.entries), apiKey, timestamp)))]
  {
    params.Insert("api_key", apiKey);
    params.Insert("timestamp", timestamp);
    var canonical := Join(Pairs(params.entries), "&");
    var stringToSign := ToUpper(httpMethod) + "\n" + path + "\n" + canonical;
    var signature := hmacHex(apiSecret, stringToSign);
    params.Insert("signature", signature);
  }

  /** After signing, the entries are still in ascending key order and hold
      every key they held before plus the three added; every other key
      keeps its value, and the signature covers every entry but itself. */
  lemma SignedMapKeepsOthers(e: Entries, httpMethod: string, path: string, apiKey: string, apiSecret: string,
                             timestamp: string, hmacHex: (string, string) -> string)
    requires Ordered(e)
    ensures var u := Unsigned(e, apiKey, timestamp);
            var r := SignedEntries(e, httpMethod, path, apiKey, apiSecret, timestamp, hmacHex);
            && Ordered(r)
            && Keys(r) == Keys(e) + {"api_key", "timestamp", "signature"}
            && Keys(u) == Keys(e) + {"api_key", "timestamp"}
            && ToMap(r) == ToMap(e)["api_key" := apiKey]["timestamp" := timestamp]
                             ["signature" := hmacHex(apiSecret, StringToSign(httpMethod, path, u))]
  {
    var u1 := Put(e, "api_key", apiKey);
    var u := Unsigned(e, apiKey, timestamp);
    assert u == Put(u1, "timestamp", timestamp);
    var sig := hmacHex(apiSecret, StringToSign(httpMethod, path, u));
    var r := SignedEntries(e, httpMethod, path, apiKey, apiSecret, timestamp, hmacHex);
    assert r == Put(u, "signature", sig);
    PutOrdered(e, "api_key", apiKey);
    PutOrdered(u1, "timestamp", timestamp);
    PutOrdered(u, "signature", sig);
    PutKeys(e, "api_key", apiKey);
    PutKeys(u1, "timestamp", timestamp);
    PutKeys(u, "signature", sig);
    assert Keys(u) == Keys(e) + {"api_key", "timestamp"};
    PutToMap(e, "api_key", apiKey);
    PutToMap(u1, "timestamp", timestamp);
    PutToMap(u, "signature", sig);
  }

  /** The signed entries are the map's keys in ascending order, and when no
      key or value contains '&' the canonical part splits back into one
      "k=v" item per entry. */
  lemma CanonicalSplits(httpMethod: string, path: string, e: Entries)
    requires |e| >= 1
    requires forall i :: 0 <= i < |e| ==> '&' !in e[i].0 && '&' !in e[i].1
    ensures var canonical := Join(Pairs(e), "&");
            StringToSign(httpMethod, path, e) == ToUpper(httpMethod) + "\n" + path + "\n" + canonical
            && Split(canonical, '&') == Pairs(e)
  {
    var pairs := Pairs(e);
    forall i | 0 <= i < |pairs| ensures '&' !in pairs[i] {
      assert pairs[i] == e[i].0 + "=" + e[i].1;
    }
    SplitJoin(pairs, '&');
  }

  // ---------------------------------------------------------------------
  // Responses and records

  /** `DnscomResponse::ensure_ok`: code 0 is success; any other code is an
      authentication failure with the server's message or a fixed text. */
  function EnsureOk(code: int, message: Option<string>): (r: Result<()>)
    ensures r.Success? <==> code == 0
    ensures r.Failure? ==> r.error.code == "auth_failed"
    ensures r.Failure? && message.Some? ==> r.error.message == message.value
    ensures r.Failure? && message.None? ==> r.error.message == "DNS.COM API failed"
  {
    if code == 0 then Success(())
    else Failure(AppError("auth_failed", message.UnwrapOr("DNS.COM API failed")))
  }

  datatype DnscomRecord = DnscomRecord(
    id: u64, record: string, recordType: string, value: string, ttl: u32, mx: Option<u16>)

  /** `DnscomRecord::to_dns_record`. */
  function ToDnsRecord(rec: DnscomRecord, domainName: string): (r: DnsRecord)
    ensures r.id == Show(rec.id) && r.name == rec.record && r.mxPriority == rec.mx
    ensures r.recordType == rec.recordType && r.ttl == rec.ttl && r.domain == domainName
  {
    var p := ParseDnscomRecordValue(rec.recordType, rec.value);
    DnsRecord(Show(rec.id), Provider.Dnscom, domainName, rec.recordType, rec.record, p.content,
              rec.ttl, rec.mx, p.srvPriority, p.srvWeight, p.srvPort, p.caaFlags, p.caaTag)
  }

  /** A record stored with the value `dnscom_value` formats is listed with
      the request's content and fields, and its id reads back as the
      number. */
  lemma ListedRecordRoundTrip(id: u64, record: string, recordType: string, content: string, ttl: u32,
                              mx: Option<u16>, srvPriority: Option<u16>, srvWeight: Option<u16>,
                              srvPort: Option<u16>, caaFlags: Option<u8>, caaTag: Option<string>,
                              domainName: string)
    requires (recordType == "SRV" || recordType == "CAA") ==> RecordValue.SingleSpaced(content)
    requires recordType == "CAA" ==> IsToken(caaTag.UnwrapOr("issue"))
    ensures var value := DnscomValue(recordType, content, srvPriority, srvWeight, srvPort, caaFlags, caaTag);
            var r := ToDnsRecord(DnscomRecord(id, record, recordType, value, ttl, mx), domainName);
            var x := RecordValue.Expected(recordType, content, srvPriority, srvWeight, srvPort, caaFlags, caaTag);
            r.content == content && ParseU64(r.id) == Some(id)
            && r.srvPriority == x.srvPriority && r.srvWeight == x.srvWeight && r.srvPort == x.srvPort
            && r.caaFlags == x.caaFlags && r.caaTag == x.caaTag
  {
    ValueRoundTrip(recordType, content, srvPriority, srvWeight, srvPort, caaFlags, caaTag);
    ParseShow(id, U64Max);
  }
}
