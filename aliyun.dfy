// Aliyun (Alibaba Cloud DNS) client (desktop/src-tauri/src/providers/aliyun.rs):
// the value presentation, record mapping, the request parameters of
// create_record, the canonical string of the RPC signature and the
// classification of failed responses.
module Aliyun {
  import opened Types
  import opened Text
  import opened Numbers
  import opened OrderedParams
  import opened PercentEncoding
  import RecordValue
  import CanonicalQuery

  /** `aliyun_value`. */
  function AliyunValue(recordType: string, content: string, srvPriority: Option<u16>,
                       srvWeight: Option<u16>, srvPort: Option<u16>, caaFlags: Option<u8>,
                       caaTag: Option<string>): string
  {
    RecordValue.Format(recordType, content, srvPriority, srvWeight, srvPort, caaFlags, caaTag)
  }

  /** The value is the presentation form: read back with a white-space split
      it gives the content and the SRV or CAA fields (0 and "issue" for the
      missing ones); any other type sends its content unchanged. */
  lemma AliyunValueShape(recordType: string, content: string, srvPriority: Option<u16>,
                         srvWeight: Option<u16>, srvPort: Option<u16>, caaFlags: Option<u8>,
                         caaTag: Option<string>)
    requires (recordType == "SRV" || recordType == "CAA") ==> RecordValue.SingleSpaced(content)
    requires recordType == "CAA" ==> IsToken(caaTag.UnwrapOr("issue"))
    ensures RecordValue.Parse(recordType,
              AliyunValue(recordType, content, srvPriority, srvWeight, srvPort, caaFlags, caaTag))
         == RecordValue.Expected(recordType, content, srvPriority, srvWeight, srvPort, caaFlags, caaTag)
    ensures recordType != "SRV" && recordType != "CAA" ==>
      AliyunValue(recordType, content, srvPriority, srvWeight, srvPort, caaFlags, caaTag) == content
  {
    RecordValue.RoundTrip(recordType, content, srvPriority, srvWeight, srvPort, caaFlags, caaTag);
  }

  datatype AliyunRecord = AliyunRecord(
    recordId: string, rr: string, recordType: string, value: string, ttl: u32, priority: Option<u16>)

  /** `AliyunRecord::to_dns_record` as written: the stored value becomes the
      content verbatim and no SRV or CAA field is ever filled. */
  function ToDnsRecord(rec: AliyunRecord, domainName: string): (r: DnsRecord)
    ensures r.content == rec.value && r.mxPriority == rec.priority
    ensures r.srvPriority.None? && r.srvWeight.None? && r.srvPort.None?
    ensures r.caaFlags.None? && r.caaTag.None?
  {
    DnsRecord(rec.recordId, Provider.Aliyun, domainName, rec.recordType, rec.rr, rec.value,
              rec.ttl, rec.priority, None, None, None, None, None)
  }

  /** An SRV record created through this client is listed back with the
      formatted value as its content and without its priority, weight and
      port, unlike the record `create_record` returned for it. */
  lemma ListedSrvKeepsFormattedValue()
    ensures var value := AliyunValue("SRV", "sip.example.com", Some(10), Some(5), Some(443), None, None);
            var r := ToDnsRecord(AliyunRecord("1", "_sip._tcp", "SRV", value, 600, Some(10)), "example.com");
            r.content == "10 5 443 sip.example.com" && r.content != "sip.example.com"
            && r.srvPriority.None? && r.srvPort.None?
  {
    assert Show(10) == "10" && Show(5) == "5" && Show(443) == "443";
  }

  /** The mapping with the value read back the way the other clients read
      theirs. */
  function ToDnsRecordParsed(rec: AliyunRecord, domainName: string): DnsRecord
  {
    var p := RecordValue.Parse(rec.recordType, rec.value);
    DnsRecord(rec.recordId, Provider.Aliyun, domainName, rec.recordType, rec.rr, p.content,
              rec.ttl, rec.priority, p.srvPriority, p.srvWeight, p.srvPort, p.caaFlags, p.caaTag)
  }

  /** With the value read back, a record stored by `create_record` is listed
      with the request's content and structured fields. */
  lemma ListedRecordRoundTrip(req: RecordCreateRequest, recordId: string, domainName: string)
    requires (req.recordType == "SRV" || req.recordType == "CAA") ==> RecordValue.SingleSpaced(req.content)
    requires req.recordType == "CAA" ==> IsToken(req.caaTag.UnwrapOr("issue"))
    ensures var value := AliyunValue(req.recordType, req.content, req.srvPriority, req.srvWeight,
                                     req.srvPort, req.caaFlags, req.caaTag);
            var r := ToDnsRecordParsed(AliyunRecord(recordId, req.name, req.recordType, value,
                                                    req.ttl, req.mxPriority), domainName);
            var x := RecordValue.Expected(req.recordType, req.content, req.srvPriority, req.srvWeight,
                                          req.srvPort, req.caaFlags, req.caaTag);
            r.content == req.content && r.name == req.name && r.recordType == req.recordType
            && r.srvPriority == x.srvPriority && r.srvWeight == x.srvWeight && r.srvPort == x.srvPort
            && r.caaFlags == x.caaFlags && r.caaTag == x.caaTag
  {
    AliyunValueShape(req.recordType, req.content, req.srvPriority, req.srvWeight, req.srvPort,
                     req.caaFlags, req.caaTag);
  }

  // ---------------------------------------------------------------------
  // Request parameters

  /** `common_params`; the nonce and the timestamp are the caller's
      random hexadecimal text and clock reading. */
  method CommonParams(action: string, accessKeyId: string, nonce: string, timestamp: string)
    returns (params: Entries)
    ensures Ordered(params)
    ensures ToMap(params) == map[
      "Action" := action, "Format" := "JSON", "Version" := "2015-01-09",
      "AccessKeyId" := accessKeyId, "SignatureMethod" := "HMAC-SHA1",
      "SignatureVersion" := "1.0", "SignatureNonce" := nonce, "Timestamp" := timestamp]
  {
    params := [];
    params := Insert(params, "Action", action);
    params := Insert(params, "Format", "JSON");
    params := Insert(params, "Version", "2015-01-09");
    params := Insert(params, "AccessKeyId", accessKeyId);
    params := Insert(params, "SignatureMethod", "HMAC-SHA1");
    params := Insert(params, "SignatureVersion", "1.0");
    params := Insert(params, "SignatureNonce", nonce);
    params := Insert(params, "Timestamp", timestamp);
  }

  /** One `insert`. */
  method Insert(e: Entries, key: string, value: string) returns (r: Entries)
    requires Ordered(e)
    ensures Ordered(r) && r == Put(e, key, value)
    ensures ToMap(r) == ToMap(e)[key := value]
  {
    PutOrdered(e, key, value);
    PutToMap(e, key, value);
    r := Put(e, key, value);
  }

  /** Whether `create_record` sends a Priority, and which. */
  function PriorityParam(req: RecordCreateRequest): Option<u16>
  {
    if req.recordType == "MX" || req.recordType == "SRV" then req.mxPriority.Or(req.srvPriority) else None
  }

  predicate SendsWeight(req: RecordCreateRequest)
  {
    req.recordType == "SRV" && req.srvWeight.Some?
  }

  predicate SendsPort(req: RecordCreateRequest)
  {
    req.recordType == "SRV" && req.srvPort.Some?
  }

  /** The parameter map `create_record` sends, as map updates of the
      common parameters `c`. */
  function CreateMap(c: map<string, string>, domainName: string, req: RecordCreateRequest): map<string, string>
  {
    var base := c["DomainName" := domainName]["RR" := req.name]["Type" := req.recordType]
                 ["Value" := AliyunValue(req.recordType, req.content, req.srvPriority, req.srvWeight,
                                         req.srvPort, req.caaFlags, req.caaTag)]
                 ["TTL" := Show(req.ttl)];
    var withPriority := if PriorityParam(req).Some? then base["Priority" := Show(PriorityParam(req).value)] else base;
    var withWeight := if SendsWeight(req) then withPriority["Weight" := Show(req.srvWeight.value)] else withPriority;
    if SendsPort(req) then withWeight["Port" := Show(req.srvPort.value)] else withWeight
  }

  /** `create_record`'s parameters: the common ones plus the record's. */
  method CreateParams(common: Entries, domainName: string, req: RecordCreateRequest)
    returns (params: Entries)
    requires Ordered(common)
    ensures Ordered(params)
    ensures ToMap(params) == CreateMap(ToMap(common), domainName, req)
  {
    params := Insert(common, "DomainName", domainName);
    params := Insert(params, "RR", req.name);
    params := Insert(params, "Type", req.recordType);
    params := Insert(params, "Value", AliyunValue(req.recordType, req.content, req.srvPriority,
                                                  req.srvWeight, req.srvPort, req.caaFlags, req.caaTag));
    params := Insert(params, "TTL", Show(req.ttl));
    if req.recordType == "MX" || req.recordType == "SRV" {
      var priority := req.mxPriority.Or(req.srvPriority);
      if priority.Some? {
        params := Insert(params, "Priority", Show(priority.value));
      }
    }
    if req.recordType == "SRV" {
      if req.srvWeight.Some? {
        params := Insert(params, "Weight", Show(req.srvWeight.value));
      }
      if req.srvPort.Some? {
        params := Insert(params, "Port", Show(req.srvPort.value));
      }
    }
  }

  /** What the parameters of `create_record` say: the record's fields,
      Priority exactly for MX and SRV records that have one (preferring
      `mx_priority`), Weight and Port exactly for SRV records that have
      them, all numbers in decimal, and every other common parameter
      unchanged. Applied to the common parameters, which hold none of these
      keys. */
  lemma CreateMapFields(c: map<string, string>, domainName: string, req: RecordCreateRequest)
    requires forall k :: k in CreateKeys ==> k !in c
    ensures var m := CreateMap(c, domainName, req);
            && {"DomainName", "RR", "Type", "Value", "TTL"} <= m.Keys
            && m["DomainName"] == domainName && m["RR"] == req.name && m["Type"] == req.recordType
            && m["Value"] == AliyunValue(req.recordType, req.content, req.srvPriority, req.srvWeight,
                                         req.srvPort, req.caaFlags, req.caaTag)
            && m["TTL"] == Show(req.ttl)
            && ("Priority" in m <==> (req.recordType == "MX" || req.recordType == "SRV")
                                     && (req.mxPriority.Some? || req.srvPriority.Some?))
            && (req.recordType in {"MX", "SRV"} && req.mxPriority.Some? ==> m["Priority"] == Show(req.mxPriority.value))
            && (req.recordType in {"MX", "SRV"} && req.mxPriority.None? && req.srvPriority.Some? ==>
                  m["Priority"] == Show(req.srvPriority.value))
            && ("Weight" in m <==> req.recordType == "SRV" && req.srvWeight.Some?)
            && (req.recordType == "SRV" && req.srvWeight.Some? ==> m["Weight"] == Show(req.srvWeight.value))
            && ("Port" in m <==> req.recordType == "SRV" && req.srvPort.Some?)
            && (req.recordType == "SRV" && req.srvPort.Some? ==> m["Port"] == Show(req.srvPort.value))
            && m.Keys == c.Keys + (m.Keys * CreateKeys)
            && (forall k :: k in c ==> k in m && m[k] == c[k])
  {
  }

  const CreateKeys: set<string> := {"DomainName", "RR", "Type", "Value", "TTL", "Priority", "Weight", "Port"}

  /** The record `create_record` returns: the request echoed, with the id
      the response carried or "". */
  function CreatedRecord(domainName: string, req: RecordCreateRequest, recordId: Option<string>): DnsRecord
  {
    DnsRecord(recordId.UnwrapOr(""), Provider.Aliyun, domainName, req.recordType, req.name,
              req.content, req.ttl, req.mxPriority, req.srvPriority, req.srvWeight, req.srvPort,
              req.caaFlags, req.caaTag)
  }

  /** The returned record describes the parameters that were sent: its
      domain, RR, type and TTL are those parameters, formatting its fields
      gives the Value that was sent, an MX record's priority is the Priority
      sent, and its id is the response's or "". */
  lemma CreatedRecordMatchesRequest(c: map<string, string>, domainName: string, req: RecordCreateRequest,
                                    recordId: Option<string>)
    requires forall k :: k in CreateKeys ==> k !in c
    ensures var m := CreateMap(c, domainName, req);
            var r := CreatedRecord(domainName, req, recordId);
            && r.id == recordId.UnwrapOr("")
            && {"DomainName", "RR", "Type", "Value", "TTL"} <= m.Keys
            && m["DomainName"] == r.domain && m["RR"] == r.name && m["Type"] == r.recordType
            && m["TTL"] == Show(r.ttl)
            && m["Value"] == AliyunValue(r.recordType, r.content, r.srvPriority, r.srvWeight, r.srvPort,
                                         r.caaFlags, r.caaTag)
            && (r.recordType == "MX" && r.mxPriority.Some? ==>
                  "Priority" in m && m["Priority"] == Show(r.mxPriority.value))
            && (r.recordType == "SRV" && r.srvPort.Some? ==> "Port" in m && m["Port"] == Show(r.srvPort.value))
  {
    CreateMapFields(c, domainName, req);
  }

  // ---------------------------------------------------------------------
  // Signature

  const StringToSignPrefix := "GET&%2F&"

  /** The canonical string of `sign` and the HMAC key: the canonical query
      (built by the shared loop) percent-encoded once more behind
      "GET&%2F&", and the secret followed by '&'. */
  method SignInput(params: Entries, accessKeySecret: string) returns (stringToSign: string, key: string)
    requires Ordered(params)
    ensures stringToSign == StringToSignPrefix + PercentEncode(CanonicalQuery.Canonical(params))
    ensures key == accessKeySecret + "&"
  {
    var query := CanonicalQuery.CanonicalQueryString(params);
    stringToSign := "GET&%2F&" + PercentEncode(query);
    key := accessKeySecret + "&";
  }

  /** The part after the fixed prefix decodes to the canonical query, which
      in turn splits into the parameters' encoded pairs in key order. */
  lemma StringToSignRecoversQuery(params: Entries)
    requires Ordered(params) && |params| >= 1
    ensures var sts := StringToSignPrefix + PercentEncode(CanonicalQuery.Canonical(params));
            StartsWith(sts, StringToSignPrefix)
            && Decode(sts[|StringToSignPrefix|..]) == Some(Utf8(CanonicalQuery.Canonical(params)))
            && Split(CanonicalQuery.Canonical(params), '&') == CanonicalQuery.EncodedPairs(params)
  {
    var q := CanonicalQuery.Canonical(params);
    var sts := StringToSignPrefix + PercentEncode(q);
    assert sts[|StringToSignPrefix|..] == PercentEncode(q);
    PercentEncodeDecodes(q);
    CanonicalQuery.QuerySplitsIntoPairs(params);
  }

  // ---------------------------------------------------------------------
  // Response classification

  /** The optional error fields any JSON object body can be read as. */
  datatype ErrorBody = ErrorBody(code: Option<string>, message: Option<string>)

  /** A response Code names an authentication problem. */
  predicate IsAuthCode(code: string)
  {
    Contains(code, "AccessKey") || Contains(code, "Signature")
  }

  /** The outcome of `request` once the response arrived: `reason` is the
      status's canonical reason ("Unknown" when it has none), `errorBody`
      the body read as error fields (None when it is not a JSON object),
      `decoded` the body read as the expected response (None when it does
      not decode) with `decodeError` the decoder's text. */
  function Classify<T>(status: u16, reason: string, text: string, errorBody: Option<ErrorBody>,
                       decoded: Option<T>, decodeError: string): (r: Result<T>)
    ensures !IsSuccessStatus(status) ==> r.Failure? && r.error.code == "fetch_failed"
    ensures IsSuccessStatus(status) && errorBody.Some? && errorBody.value.code.Some? ==>
      var code := errorBody.value.code.value;
      r.Failure? && r.error.message == errorBody.value.message.UnwrapOr(code)
      && (r.error.code == "auth_failed" <==> IsAuthCode(code))
      && (r.error.code == "fetch_failed" <==> !IsAuthCode(code))
    ensures IsSuccessStatus(status) && !(errorBody.Some? && errorBody.value.code.Some?) ==>
      (decoded.Some? ==> r == Success(decoded.value))
      && (decoded.None? ==> r.Failure? && r.error.code == "json_decode_failed")
  {
    if !IsSuccessStatus(status) then
      Failure(AppError("fetch_failed",
        "HTTP " + Show(status) + ": " + reason + " (response text: " + text + ")"))
    else if errorBody.Some? && errorBody.value.code.Some? then
      var code := errorBody.value.code.value;
      var message := errorBody.value.message.UnwrapOr(code);
      Failure(AppError(if IsAuthCode(code) then "auth_failed" else "fetch_failed", message))
    else if decoded.Some? then Success(decoded.value)
    else
      Failure(AppError("json_decode_failed",
        "Failed to decode response: " + decodeError + " (response text: " + text + ")"))
  }

  /** A failed status is reported before the body is looked at: the result
      does not depend on the body at all. */
  lemma StatusBeforeBody<T>(status: u16, reason: string, text: string,
                            errorBody1: Option<ErrorBody>, decoded1: Option<T>,
                            errorBody2: Option<ErrorBody>, decoded2: Option<T>, decodeError: string)
    requires !IsSuccessStatus(status)
    ensures Classify(status, reason, text, errorBody1, decoded1, decodeError)
         == Classify(status, reason, text, errorBody2, decoded2, decodeError)
  {
  }
}
