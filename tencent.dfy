// Tencent Cloud DNSPod API 3.0 client
// (desktop/src-tauri/src/providers/tencentcloud.rs): the value presentation,
// the field extractors and the record mapping of listed items, the domain
// selector every request starts from and the classification of responses.
module Tencent {
  import opened Types
  import opened Text
  import opened Numbers
  import opened Json
  import RecordValue

  /** `tencent_value`. */
  function TencentValue(recordType: string, content: string, srvPriority: Option<u16>,
                        srvWeight: Option<u16>, srvPort: Option<u16>, caaFlags: Option<u8>,
                        caaTag: Option<string>): string
  {
    RecordValue.Format(recordType, content, srvPriority, srvWeight, srvPort, caaFlags, caaTag)
  }

  /** `parse_record_value`. */
  function ParseRecordValue(recordType: string, value: string): RecordValue.Parsed
  {
    RecordValue.Parse(recordType, value)
  }

  /** Reading back a formatted SRV or CAA value gives the content and the
      fields, with 0 for missing numbers and "issue" for a missing tag. */
  lemma ValueRoundTrip(recordType: string, content: string, srvPriority: Option<u16>,
                       srvWeight: Option<u16>, srvPort: Option<u16>, caaFlags: Option<u8>,
                       caaTag: Option<string>)
    requires (recordType == "SRV" || recordType == "CAA") ==> RecordValue.SingleSpaced(content)
    requires recordType == "CAA" ==> IsToken(caaTag.UnwrapOr("issue"))
    ensures ParseRecordValue(recordType,
              TencentValue(recordType, content, srvPriority, srvWeight, srvPort, caaFlags, caaTag))
         == RecordValue.Expected(recordType, content, srvPriority, srvWeight, srvPort, caaFlags, caaTag)
  {
    RecordValue.RoundTrip(recordType, content, srvPriority, srvWeight, srvPort, caaFlags, caaTag);
  }

  /** Types other than SRV and CAA carry their content unchanged, and a
      value of theirs reads back as itself with no structured field. */
  lemma OtherTypesVerbatim(recordType: string, content: string, value: string,
                           srvPriority: Option<u16>, srvWeight: Option<u16>, srvPort: Option<u16>,
                           caaFlags: Option<u8>, caaTag: Option<string>)
    requires recordType != "SRV" && recordType != "CAA"
    ensures TencentValue(recordType, content, srvPriority, srvWeight, srvPort, caaFlags, caaTag) == content
    ensures ParseRecordValue(recordType, value) == RecordValue.Raw(value)
  {
  }

  /** An SRV value of fewer than four words, or a CAA value of fewer than
      three, is kept whole. */
  lemma ShortValuesRaw(recordType: string, value: string)
    requires recordType == "SRV" ==> |Words(value)| < 4
    requires recordType == "CAA" ==> |Words(value)| < 3
    ensures ParseRecordValue(recordType, value) == RecordValue.Raw(value)
  {
  }

  // ---------------------------------------------------------------------
  // Field extraction

  /** `extract_string`: a string as it is, a non-negative integer in
      decimal, anything else absent. */
  function ExtractString(value: Json, key: string): (r: Option<string>)
    ensures r.Some? <==> Get(value, key).Some? && (Get(value, key).value.Str? || AsU64(Get(value, key).value).Some?)
    ensures r.Some? && Get(value, key).value.Str? ==> r.value == Get(value, key).value.s
    ensures r.Some? && Get(value, key).value.Int? ==> r.value == Show(Get(value, key).value.i)
  {
    match Get(value, key)
    case None => None
    case Some(v) =>
      if AsStr(v).Some? then AsStr(v)
      else match AsU64(v)
        case Some(n) => Some(Show(n))
        case None => None
  }

  /** `extract_u32` and `extract_u16`: a number of the field's width, or a
      string that parses as one; a number that does not fit, a negative
      number and any other kind of value are absent. */
  function ExtractUnsigned(value: Json, key: string, max: nat): (r: Option<nat>)
    ensures Get(value, key).None? ==> r.None?
    ensures Get(value, key).Some? ==>
              var v := Get(value, key).value;
              (r.Some? <==> (v.Int? && 0 <= v.i <= max) || (v.Str? && ParseUnsigned(v.s, max).Some?))
              && (v.Int? && r.Some? ==> r.value == v.i)
              && (v.Str? ==> r == ParseUnsigned(v.s, max))
    ensures r.Some? ==> r.value <= max
  {
    match Get(value, key)
    case None => None
    case Some(v) =>
      match AsU64(v)
      case Some(n) => if n <= max then Some(n) else None
      case None =>
        match AsStr(v)
        case Some(s) => ParseUnsigned(s, max)
        case None => None
  }

  function ExtractU32(value: Json, key: string): (r: Option<u32>)
    ensures r.Some? <==> ExtractUnsigned(value, key, U32Max).Some?
    ensures r.Some? ==> r.value == ExtractUnsigned(value, key, U32Max).value
  {
    match ExtractUnsigned(value, key, U32Max)
    case Some(n) => Some(n)
    case None => None
  }

  function ExtractU16(value: Json, key: string): (r: Option<u16>)
    ensures r.Some? <==> ExtractUnsigned(value, key, U16Max).Some?
    ensures r.Some? ==> r.value == ExtractUnsigned(value, key, U16Max).value
  {
    match ExtractUnsigned(value, key, U16Max)
    case Some(n) => Some(n)
    case None => None
  }

  /** The extractors accept a number in either of its JSON forms: as a
      number within the width and as its decimal text. */
  lemma ExtractBothForms(key: string, n: nat, max: nat)
    requires n <= max <= U64Max
    ensures ExtractUnsigned(Obj(map[key := Int(n)]), key, max) == Some(n)
    ensures ExtractUnsigned(Obj(map[key := Str(Show(n))]), key, max) == Some(n)
    ensures ExtractString(Obj(map[key := Int(n)]), key) == Some(Show(n))
  {
    ParseShow(n, max);
  }

  /** A number or digit text beyond the width is absent. */
  lemma ExtractTooLarge(key: string, n: nat, max: nat)
    requires max < n <= U64Max
    ensures ExtractUnsigned(Obj(map[key := Int(n)]), key, max) == None
    ensures ExtractUnsigned(Obj(map[key := Str(Show(n))]), key, max) == None
  {
    ParseShowTooLarge(n, max);
  }

  // ---------------------------------------------------------------------
  // Listed records

  /** `parse_record_item`: no RecordId means no record; otherwise missing
      fields take the defaults "A", "@", "" and 600. */
  function ParseRecordItem(value: Json, domainName: string): (r: Option<DnsRecord>)
    ensures r.Some? <==> ExtractString(value, "RecordId").Some?
    ensures r.Some? ==>
      && r.value.id == ExtractString(value, "RecordId").value
      && r.value.provider == Provider.Tencentcloud && r.value.domain == domainName
      && r.value.recordType == ExtractString(value, "Type").UnwrapOr("A")
      && r.value.name == ExtractString(value, "Name").UnwrapOr("@")
      && r.value.ttl == ExtractU32(value, "TTL").UnwrapOr(600)
      && r.value.mxPriority == ExtractU16(value, "MX")
  {
    match ExtractString(value, "RecordId")
    case None => None
    case Some(id) =>
      var recordType := ExtractString(value, "Type").UnwrapOr("A");
      var name := ExtractString(value, "Name").UnwrapOr("@");
      var rawValue := ExtractString(value, "Value").UnwrapOr("");
      var ttl := ExtractU32(value, "TTL").UnwrapOr(600);
      var mx := ExtractU16(value, "MX");
      var p := ParseRecordValue(recordType, rawValue);
      Some(DnsRecord(id, Provider.Tencentcloud, domainName, recordType, name, p.content, ttl, mx,
                     p.srvPriority, p.srvWeight, p.srvPort, p.caaFlags, p.caaTag))
  }

  /** An item holding only its id is an A record at the apex with an empty
      content and a TTL of 600. */
  lemma BareItemDefaults(id: u64, domainName: string)
    ensures var r := ParseRecordItem(Obj(map["RecordId" := Int(id)]), domainName);
            r.Some? && r.value.id == Show(id) && r.value.recordType == "A" && r.value.name == "@"
            && r.value.content == "" && r.value.ttl == 600 && r.value.mxPriority.None?
  {
    var v := Obj(map["RecordId" := Int(id)]);
    assert Get(v, "Type").None? && Get(v, "Name").None? && Get(v, "Value").None?;
    assert Get(v, "TTL").None? && Get(v, "MX").None?;
  }

  /** The item the API lists for an SRV record created through this client
      is mapped back to the request's fields. */
  lemma ListedSrvRoundTrip(item: Json, id: u64, name: string, content: string, p: u16, w: u16,
                           port: u16, ttl: u32, domainName: string)
    requires RecordValue.SingleSpaced(content)
    requires item.Obj? && "MX" !in item.fields
    requires "RecordId" in item.fields && item.fields["RecordId"] == Int(id)
    requires "Type" in item.fields && item.fields["Type"] == Str("SRV")
    requires "Name" in item.fields && item.fields["Name"] == Str(name)
    requires "Value" in item.fields
    requires item.fields["Value"] == Str(TencentValue("SRV", content, Some(p), Some(w), Some(port), None, None))
    requires "TTL" in item.fields && item.fields["TTL"] == Int(ttl)
    ensures var r := ParseRecordItem(item, domainName);
            r.Some? && r.value.id == Show(id) && r.value.name == name && r.value.recordType == "SRV"
            && r.value.content == content && r.value.ttl == ttl && r.value.mxPriority.None?
            && r.value.srvPriority == Some(p) && r.value.srvWeight == Some(w) && r.value.srvPort == Some(port)
  {
    ValueRoundTrip("SRV", content, Some(p), Some(w), Some(port), None, None);
  }

  /** `parse_record_from_response`: the request's fields, with the id the
      response carries, else the one the caller knew, else 0. */
  function ParseRecordFromResponse(value: Json, domainName: string, recordType: string, name: string,
                                   contentRaw: string, ttl: u32, mxPriority: Option<u16>,
                                   recordId: Option<u64>): (r: DnsRecord)
    ensures var sent := match GetIn(Get(value, "Response"), "RecordId")
                        case Some(v) => AsU64(v)
                        case None => None;
            r.id == Show(sent.Or(recordId).UnwrapOr(0))
    ensures r.provider == Provider.Tencentcloud && r.domain == domainName
    ensures r.recordType == recordType && r.name == name && r.ttl == ttl && r.mxPriority == mxPriority
    ensures var p := ParseRecordValue(recordType, contentRaw);
            r.content == p.content && r.srvPriority == p.srvPriority && r.srvWeight == p.srvWeight
            && r.srvPort == p.srvPort && r.caaFlags == p.caaFlags && r.caaTag == p.caaTag
  {
    var sent := match GetIn(Get(value, "Response"), "RecordId")
                case Some(v) => AsU64(v)
                case None => None;
    var id := Show(sent.Or(recordId).UnwrapOr(0));
    var p := ParseRecordValue(recordType, contentRaw);
    DnsRecord(id, Provider.Tencentcloud, domainName, recordType, name, p.content, ttl, mxPriority,
              p.srvPriority, p.srvWeight, p.srvPort, p.caaFlags, p.caaTag)
  }

  /** The record `create_record` returns for an answer: the request's
      fields, read from the request's own content rather than from the
      formatted value that was sent. */
  function CreatedRecord(answer: Json, domainName: string, req: RecordCreateRequest): DnsRecord
  {
    ParseRecordFromResponse(answer, domainName, req.recordType, req.name, req.content, req.ttl,
                            req.mxPriority, None)
  }

  /** An SRV record created with a one-word target comes back with that
      target as its content and no priority, weight or port, although the
      value sent carried all three; a CAA record likewise loses its flags
      and tag. */
  lemma CreatedRecordDropsFields(answer: Json, domainName: string, req: RecordCreateRequest)
    requires req.recordType == "SRV" || req.recordType == "CAA"
    requires IsToken(req.content)
    ensures var r := CreatedRecord(answer, domainName, req);
            r.recordType == req.recordType && r.name == req.name && r.ttl == req.ttl
            && r.content == req.content
            && r.srvPriority.None? && r.srvWeight.None? && r.srvPort.None?
            && r.caaFlags.None? && r.caaTag.None?
  {
    WordsToken(req.content);
  }

  // ---------------------------------------------------------------------
  // Domain selector

  /** `parse_u64`. */
  function ParseId(s: string): Option<u64>
  {
    ParseU64Trimmed(s)
  }

  /** The domain name a request names: the trimmed name, or, when that is
      blank, the trimmed id if it looks like a domain (contains '.'). */
  function SelectedName(domainId: string, domainName: string): string
  {
    var name := Trim(domainName);
    var fallback := Trim(domainId);
    if name == "" && fallback != "" && '.' in fallback then fallback else name
  }

  /** `domain_selector`: Domain is always sent, DomainId only for an id that
      parses to a positive integer, and a request naming no domain is
      refused. */
  method DomainSelector(domainId: string, domainName: string) returns (r: Result<map<string, Json>>)
    ensures r.Failure? <==> SelectedName(domainId, domainName) == ""
    ensures r.Failure? ==> r.error.code == "invalid_input"
    ensures r.Success? ==>
      && "Domain" in r.value && r.value["Domain"] == Str(SelectedName(domainId, domainName))
      && r.value.Keys <= {"Domain", "DomainId"}
      && ("DomainId" in r.value <==> ParseId(domainId).UnwrapOr(0) > 0)
      && ("DomainId" in r.value ==> r.value["DomainId"] == Int(ParseId(domainId).value))
  {
    var payload: map<string, Json> := map[];
    var name := Trim(domainName);
    if name == "" {
      var fallback := Trim(domainId);
      if fallback != "" && '.' in fallback {
        name := fallback;
      }
    }
    if name == "" {
      return Failure(AppError("invalid_input", "domain is required"));
    }
    payload := payload["Domain" := Str(name)];
    var id := ParseId(domainId).UnwrapOr(0);
    if id > 0 {
      payload := payload["DomainId" := Int(id)];
    }
    r := Success(payload);
  }

  /** A blank name with an id that is not a domain name (a numeric id, say)
      is refused even though the id alone would identify the domain. */
  lemma NumericIdAloneRefused(domainId: string)
    requires '.' !in Trim(domainId)
    ensures SelectedName(domainId, "") == ""
  {
  }

  // ---------------------------------------------------------------------
  // Responses

  predicate IsAuthCode(code: string)
  {
    Contains(code, "AuthFailure") || Contains(code, "UnauthorizedOperation")
  }

  /** The outcome of `request` once the response arrived: `body` is the text
      read as JSON (None when it is not JSON, with `decodeError` the
      parser's message). The error object inside "Response" decides before
      anything else in the body, with "FailedOperation" and "TencentCloud
      request failed" standing in for a missing Code and Message. */
  function Classify(status: u16, text: string, body: Option<Json>, decodeError: string): (r: Result<Json>)
    ensures !IsSuccessStatus(status) ==> r.Failure? && r.error.code == "fetch_failed"
    ensures IsSuccessStatus(status) && body.None? ==>
      r.Failure? && r.error.code == "json_decode_failed" && r.error.message == decodeError
    ensures IsSuccessStatus(status) && body.Some? ==>
      var err := GetIn(Get(body.value, "Response"), "Error");
      (err.None? ==> r == Success(body.value))
      && (err.Some? ==>
            var code := (match Get(err.value, "Code") case Some(c) => AsStr(c) case None => None).UnwrapOr("FailedOperation");
            r.Failure?
            && (r.error.code == "auth_failed" <==> IsAuthCode(code))
            && (r.error.code == "fetch_failed" <==> !IsAuthCode(code)))
  {
    if !IsSuccessStatus(status) then Failure(AppError("fetch_failed", "HTTP " + Show(status) + ": " + text))
    else match body
      case None => Failure(AppError("json_decode_failed", decodeError))
      case Some(v) =>
        match GetIn(Get(v, "Response"), "Error")
        case None => Success(v)
        case Some(error) =>
          var code := (match Get(error, "Code") case Some(c) => AsStr(c) case None => None).UnwrapOr("FailedOperation");
          var message := (match Get(error, "Message") case Some(m) => AsStr(m) case None => None)
                         .UnwrapOr("TencentCloud request failed");
          Failure(AppError(if IsAuthCode(code) then "auth_failed" else "fetch_failed", message))
  }

  /** An error object without a Code is an ordinary failure. */
  lemma MissingCodeIsFetchFailed(status: u16, text: string, body: Json, decodeError: string)
    requires IsSuccessStatus(status)
    requires var err := GetIn(Get(body, "Response"), "Error");
             err.Some? && Get(err.value, "Code").None?
    ensures var r := Classify(status, text, Some(body), decodeError);
            r.Failure? && r.error.code == "fetch_failed"
  {
    DefaultCodeNotAuth();
  }

  lemma DefaultCodeNotAuth()
    ensures !IsAuthCode("FailedOperation")
  {
    var d := "FailedOperation";
    assert 'A' !in d && 'U' !in d;
    if Contains(d, "AuthFailure") {
      ContainsFirstChar(d, "AuthFailure");
    }
    if Contains(d, "UnauthorizedOperation") {
      ContainsFirstChar(d, "UnauthorizedOperation");
    }
  }
}
