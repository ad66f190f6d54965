// DNSPod (legacy API) client (desktop/src-tauri/src/providers/dnspod.rs): the
// value presentation, the record mapping with its fallbacks, the status
// check, the login token and form parameters, and the handling of the
// HTTP response.
module Dnspod {
  import opened Types
  import opened Text
  import opened Numbers
  import RecordValue

  /** `dnspod_value`. */
  function DnspodValue(recordType: string, content: string, srvPriority: Option<u16>,
                       srvWeight: Option<u16>, srvPort: Option<u16>, caaFlags: Option<u8>,
                       caaTag: Option<string>): string
  {
    RecordValue.Format(recordType, content, srvPriority, srvWeight, srvPort, caaFlags, caaTag)
  }

  // ---------------------------------------------------------------------
  // Records

  /** A record as the API returns it: every field but id and name may be
      missing, and the numbers are text. */
  datatype DnspodRecord = DnspodRecord(
    id: string, name: string, recordType: Option<string>, value: Option<string>,
    ttl: Option<string>, mx: Option<string>)

  /** The SRV reading of `to_dns_record`: content, priority, weight, port. */
  function SrvPart(recordType: string, value: string): (string, Option<u16>, Option<u16>, Option<u16>)
  {
    if recordType == "SRV" then
      var parts := Words(value);
      if |parts| >= 4 then (Join(parts[3..], " "), ParseU16(parts[0]), ParseU16(parts[1]), ParseU16(parts[2]))
      else (value, None, None, None)
    else (value, None, None, None)
  }

  /** The CAA reading of `to_dns_record`: flags, tag and the final content,
      which for other types is the SRV reading's content. */
  function CaaPart(recordType: string, value: string, content: string): (Option<u8>, Option<string>, string)
  {
    if recordType == "CAA" then
      var parts := Words(value);
      if |parts| >= 3 then (ParseU8(parts[0]), Some(parts[1]), Join(parts[2..], " "))
      else (None, None, value)
    else (None, None, content)
  }

  /** `DnspodRecord::to_dns_record`, with the defaults the caller supplies:
      each field is the record's own, else the default, else a constant. */
  function ToDnsRecord(rec: DnspodRecord, domainName: string, defaultType: Option<string>,
                       defaultValue: Option<string>, defaultTtl: Option<u32>,
                       defaultMx: Option<u16>): (r: DnsRecord)
    ensures r.id == rec.id && r.name == rec.name && r.domain == domainName && r.provider == Provider.Dnspod
    ensures r.recordType == rec.recordType.Or(defaultType).UnwrapOr("A")
    ensures r.ttl == (match rec.ttl case Some(t) => ParseU32(t) case None => None).Or(defaultTtl).UnwrapOr(600)
    ensures r.mxPriority == (match rec.mx case Some(m) => ParseU16(m) case None => None).Or(defaultMx)
  {
    var recordType := rec.recordType.Or(defaultType).UnwrapOr("A");
    var value := rec.value.Or(defaultValue).UnwrapOr("");
    var (content, srvPriority, srvWeight, srvPort) := SrvPart(recordType, value);
    var (caaFlags, caaTag, caaValue) := CaaPart(recordType, value, content);
    var ttl := (match rec.ttl case Some(t) => ParseU32(t) case None => None).Or(defaultTtl).UnwrapOr(600);
    var mx := (match rec.mx case Some(m) => ParseU16(m) case None => None).Or(defaultMx);
    DnsRecord(rec.id, Provider.Dnspod, domainName, recordType, rec.name, caaValue, ttl, mx,
              srvPriority, srvWeight, srvPort, caaFlags, caaTag)
  }

  /** The two readings together are the shared SRV/CAA presentation
      parser: a value with too few words, or of another type, is kept
      whole with no structured field. */
  lemma ToDnsRecordReadsValue(rec: DnspodRecord, domainName: string, defaultType: Option<string>,
                              defaultValue: Option<string>, defaultTtl: Option<u32>, defaultMx: Option<u16>)
    ensures var r := ToDnsRecord(rec, domainName, defaultType, defaultValue, defaultTtl, defaultMx);
            var p := RecordValue.Parse(r.recordType, rec.value.Or(defaultValue).UnwrapOr(""));
            r.content == p.content && r.srvPriority == p.srvPriority && r.srvWeight == p.srvWeight
            && r.srvPort == p.srvPort && r.caaFlags == p.caaFlags && r.caaTag == p.caaTag
  {
  }

  /** `create_record` maps the answer's record with the request's type,
      the value it sent, the request's TTL and MX priority as defaults; the
      answer holds only id and name, so the returned record reads back the
      request's content and fields. */
  lemma CreatedRecordRoundTrip(id: string, name: string, domainName: string, req: RecordCreateRequest)
    requires (req.recordType == "SRV" || req.recordType == "CAA") ==> RecordValue.SingleSpaced(req.content)
    requires req.recordType == "CAA" ==> IsToken(req.caaTag.UnwrapOr("issue"))
    ensures var value := DnspodValue(req.recordType, req.content, req.srvPriority, req.srvWeight,
                                     req.srvPort, req.caaFlags, req.caaTag);
            var r := ToDnsRecord(DnspodRecord(id, name, None, None, None, None), domainName,
                                 Some(req.recordType), Some(value), Some(req.ttl), req.mxPriority);
            var x := RecordValue.Expected(req.recordType, req.content, req.srvPriority, req.srvWeight,
                                          req.srvPort, req.caaFlags, req.caaTag);
            r.id == id && r.recordType == req.recordType && r.content == req.content
            && r.ttl == req.ttl && r.mxPriority == req.mxPriority
            && r.srvPriority == x.srvPriority && r.srvWeight == x.srvWeight && r.srvPort == x.srvPort
            && r.caaFlags == x.caaFlags && r.caaTag == x.caaTag
  {
    var value := DnspodValue(req.recordType, req.content, req.srvPriority, req.srvWeight,
                             req.srvPort, req.caaFlags, req.caaTag);
    ToDnsRecordReadsValue(DnspodRecord(id, name, None, None, None, None), domainName,
                          Some(req.recordType), Some(value), Some(req.ttl), req.mxPriority);
    RecordValue.RoundTrip(req.recordType, req.content, req.srvPriority, req.srvWeight, req.srvPort,
                          req.caaFlags, req.caaTag);
  }

  /** A TTL the record states wins over the default, and one that is not a
      number falls back to it; a record with neither gets 600. */
  lemma TtlFallback(rec: DnspodRecord, domainName: string, t: u32, d: u32)
    ensures ToDnsRecord(rec.(ttl := Some(Show(t))), domainName, None, None, Some(d), None).ttl == t
    ensures ToDnsRecord(rec.(ttl := Some("")), domainName, None, None, Some(d), None).ttl == d
    ensures ToDnsRecord(rec.(ttl := None), domainName, None, None, None, None).ttl == 600
  {
    ParseShow(t, U32Max);
  }

  // ---------------------------------------------------------------------
  // Status, token and parameters

  /** `ensure_ok`: only code "1" is success; any other status is reported
      as an authentication failure with the server's message. */
  function EnsureOk(code: string, message: string): (r: Result<()>)
    ensures r.Success? <==> code == "1"
    ensures r.Failure? ==> r.error == AppError("auth_failed", message)
  {
    if code == "1" then Success(()) else Failure(AppError("auth_failed", message))
  }

  /** `login_token`. */
  function LoginToken(tokenId: string, token: string): string
  {
    tokenId + "," + token
  }

  /** The token splits back into its id and secret when neither contains a
      comma. */
  lemma LoginTokenSplits(tokenId: string, token: string)
    requires ',' !in tokenId && ',' !in token
    ensures Split(LoginToken(tokenId, token), ',') == [tokenId, token]
  {
    assert LoginToken(tokenId, token) == tokenId + [','] + token;
    SplitCons(tokenId, ',', token);
  }

  /** `common_params`: exactly the login token and the JSON format. */
  method CommonParams(loginToken: string) returns (params: map<string, string>)
    ensures params == map["login_token" := loginToken, "format" := "json"]
    ensures params.Keys == {"login_token", "format"}
  {
    params := map[];
    params := params["login_token" := loginToken];
    params := params["format" := "json"];
  }

  /** The form of `create_record`: the common parameters and the record's,
      with mx only for an MX record that has a priority. */
  method CreateParams(loginToken: string, domainId: string, req: RecordCreateRequest)
    returns (params: map<string, string>)
    ensures params.Keys == {"login_token", "format", "domain_id", "sub_domain", "record_type",
                            "record_line", "value", "ttl"}
                         + (if req.recordType == "MX" && req.mxPriority.Some? then {"mx"} else {})
    ensures params["login_token"] == loginToken && params["format"] == "json"
    ensures params["domain_id"] == domainId && params["sub_domain"] == req.name
    ensures params["record_type"] == req.recordType && params["record_line"] == "默认"
    ensures params["value"] == DnspodValue(req.recordType, req.content, req.srvPriority, req.srvWeight,
                                           req.srvPort, req.caaFlags, req.caaTag)
    ensures params["ttl"] == Show(req.ttl)
    ensures "mx" in params ==> params["mx"] == Show(req.mxPriority.value)
  {
    params := CommonParams(loginToken);
    params := params["domain_id" := domainId];
    params := params["sub_domain" := req.name];
    params := params["record_type" := req.recordType];
    params := params["record_line" := "默认"];
    var value := DnspodValue(req.recordType, req.content, req.srvPriority, req.srvWeight,
                             req.srvPort, req.caaFlags, req.caaTag);
    params := params["value" := value];
    params := params["ttl" := Show(req.ttl)];
    if req.recordType == "MX" {
      if req.mxPriority.Some? {
        params := params["mx" := Show(req.mxPriority.value)];
      }
    }
  }

  /** `parse_response`: a failed status is an HTTP error, an undecodable
      body a decoding error; `reason` is the status's canonical reason
      ("Unknown" when it has none), `decoded` the body decoded (None when it
      does not decode, with `decodeError` the decoder's text). */
  function ParseResponse<T>(status: u16, reason: string, text: string, decoded: Option<T>,
                            decodeError: string): (r: Result<T>)
    ensures !IsSuccessStatus(status) ==> r.Failure? && r.error.code == "http_error"
    ensures IsSuccessStatus(status) && decoded.Some? ==> r == Success(decoded.value)
    ensures IsSuccessStatus(status) && decoded.None? ==> r.Failure? && r.error.code == "json_decode_failed"
  {
    if !IsSuccessStatus(status) then
      Failure(AppError("http_error", "HTTP " + Show(status) + ": " + reason + " (response text: " + text + ")"))
    else if decoded.Some? then Success(decoded.value)
    else
      Failure(AppError("json_decode_failed",
        "Failed to decode response: " + decodeError + " (response text: " + text + ")"))
  }
}
