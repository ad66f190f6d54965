// Cloudflare client (desktop/src-tauri/src/providers/cloudflare.rs): host
// names between the relative form the application shows and the
// fully-qualified form the API stores, the mapping of a listed record, the
// payload of create and update, the SRV service/protocol labels and the
// error message of a failed response.
module Cloudflare {
  import opened Types
  import opened Text
  import opened Json

  // ---------------------------------------------------------------------
  // Host names

  /** `normalize_full_name`. The source's second test also accepts
      `host == host + "." + zone`, which no host satisfies (the right side
      is longer); it is kept so the branch structure is the source's. */
  function NormalizeFullName(zone: string, host: string): (r: string)
    ensures r == zone || EndsWith(r, "." + zone)
    ensures host == "@" || host == zone ==> r == zone
    ensures host != "@" && host != zone && EndsWith(host, "." + zone) ==> r == host
    ensures host != "@" && host != zone && !EndsWith(host, "." + zone) ==> r == host + "." + zone
  {
    if host == "@" || host == zone then zone
    else if EndsWith(host, "." + zone) || host == host + "." + zone then host
    else host + "." + zone
  }

  /** The host of a listed record: "@" for the zone itself, the name with
      "." + zone stripped, or the name unchanged when it is outside the
      zone. */
  function RelativeName(zone: string, name: string): (r: string)
    ensures name == zone ==> r == "@"
    ensures name != zone && EndsWith(name, "." + zone) ==> r + "." + zone == name
    ensures name != zone && !EndsWith(name, "." + zone) ==> r == name
  {
    if name == zone then "@"
    else match StripSuffix(name, "." + zone)
      case Some(stripped) => stripped
      case None => name
  }

  /** A host the application sends comes back as the same host: "@" and
      every host that is neither the zone nor already under it. */
  lemma HostRoundTrip(zone: string, host: string)
    requires host == "@" || (host != zone && !EndsWith(host, "." + zone))
    ensures RelativeName(zone, NormalizeFullName(zone, host)) == host
  {
    if host != "@" {
      var full := host + "." + zone;
      assert full != zone;
      assert full[|full| - |"." + zone|..] == "." + zone;
      assert full[..|full| - |"." + zone|] == host;
    }
  }

  /** A host already written under the zone is sent as it is, and comes
      back as its part before the zone. */
  lemma QualifiedHostRoundTrip(zone: string, host: string)
    requires host != "@" && host != zone && EndsWith(host, "." + zone)
    ensures NormalizeFullName(zone, host) == host
    ensures RelativeName(zone, NormalizeFullName(zone, host)) + "." + zone == host
  {
  }

  // ---------------------------------------------------------------------
  // Listed records

  datatype CfRecord = CfRecord(
    id: string, recordType: string, name: string, content: Option<string>,
    ttl: u32, priority: Option<u16>, data: Option<Json>)

  /** `v as u16` and `v as u8` on a `u64`: the low bits. */
  function TruncU16(v: u64): u16 { v % 0x1_0000 }
  function TruncU8(v: u64): u8 { v % 0x100 }

  /** `data.get(key).and_then(as_u64).map(|v| v as u16)`. */
  function DataU16(data: Json, key: string): (r: Option<u16>)
    ensures r.Some? <==> data.Obj? && key in data.fields && data.fields[key].Int? && data.fields[key].i >= 0
    ensures r.Some? ==> r.value as int == data.fields[key].i % 0x1_0000
  {
    match Get(data, key)
    case Some(v) => (match AsU64(v) case Some(n) => Some(TruncU16(n)) case None => None)
    case None => None
  }

  function DataU8(data: Json, key: string): (r: Option<u8>)
    ensures r.Some? <==> data.Obj? && key in data.fields && data.fields[key].Int? && data.fields[key].i >= 0
    ensures r.Some? ==> r.value as int == data.fields[key].i % 0x100
  {
    match Get(data, key)
    case Some(v) => (match AsU64(v) case Some(n) => Some(TruncU8(n)) case None => None)
    case None => None
  }

  function DataStr(data: Json, key: string): (r: Option<string>)
    ensures r.Some? <==> data.Obj? && key in data.fields && data.fields[key].Str?
  {
    match Get(data, key)
    case Some(v) => AsStr(v)
    case None => None
  }

  /** What a listed record becomes: the fields every type has, then the
      fields of its own type. */
  function Mapped(rec: CfRecord, zone: string): DnsRecord
  {
    var base := DnsRecord(rec.id, Provider.Cloudflare, zone, rec.recordType,
                          RelativeName(zone, rec.name), rec.content.UnwrapOr(""), rec.ttl,
                          None, None, None, None, None, None);
    if rec.recordType == "MX" then base.(mxPriority := rec.priority)
    else if rec.recordType == "SRV" && rec.data.Some? then
      var d := rec.data.value;
      base.(srvPriority := DataU16(d, "priority"), srvWeight := DataU16(d, "weight"),
            srvPort := DataU16(d, "port"), content := DataStr(d, "target").UnwrapOr(base.content))
    else if rec.recordType == "CAA" && rec.data.Some? then
      var d := rec.data.value;
      base.(caaFlags := DataU8(d, "flags"), caaTag := DataStr(d, "tag"),
            content := DataStr(d, "value").UnwrapOr(base.content))
    else base
  }

  /** `CfDnsRecord::to_dns_record`: the record is first built with the
      common fields and then completed according to its type. */
  method ToDnsRecord(rec: CfRecord, zone: string) returns (out: DnsRecord)
    ensures out == Mapped(rec, zone)
    ensures out.id == rec.id && out.provider == Provider.Cloudflare && out.domain == zone
    ensures out.recordType == rec.recordType && out.ttl == rec.ttl
    ensures out.name == RelativeName(zone, rec.name)
    ensures out.mxPriority == (if rec.recordType == "MX" then rec.priority else None)
    ensures rec.recordType != "SRV" ==> out.srvPriority.None? && out.srvWeight.None? && out.srvPort.None?
    ensures rec.recordType != "CAA" ==> out.caaFlags.None? && out.caaTag.None?
    ensures rec.data.None? || (rec.recordType != "SRV" && rec.recordType != "CAA") ==>
      out.content == rec.content.UnwrapOr("")
    ensures rec.recordType == "SRV" && rec.data.Some? ==>
      out.srvPort == DataU16(rec.data.value, "port")
      && out.content == DataStr(rec.data.value, "target").UnwrapOr(rec.content.UnwrapOr(""))
  {
    var host := RelativeName(zone, rec.name);
    out := DnsRecord(rec.id, Provider.Cloudflare, zone, rec.recordType, host,
                     rec.content.UnwrapOr(""), rec.ttl, None, None, None, None, None, None);
    if rec.recordType == "MX" {
      out := out.(mxPriority := rec.priority);
    } else if rec.recordType == "SRV" {
      if rec.data.Some? {
        var data := rec.data.value;
        out := out.(srvPriority := DataU16(data, "priority"));
        out := out.(srvWeight := DataU16(data, "weight"));
        out := out.(srvPort := DataU16(data, "port"));
        var target := DataStr(data, "target");
        if target.Some? {
          out := out.(content := target.value);
        }
      }
    } else if rec.recordType == "CAA" {
      if rec.data.Some? {
        var data := rec.data.value;
        out := out.(caaFlags := DataU8(data, "flags"));
        out := out.(caaTag := DataStr(data, "tag"));
        var value := DataStr(data, "value");
        if value.Some? {
          out := out.(content := value.value);
        }
      }
    }
  }

  /** A port above 65535 in the data object is read modulo 65536. */
  lemma PortTruncates()
    ensures DataU16(Obj(map["port" := Int(65536 + 53)]), "port") == Some(53)
  {
  }

  // ---------------------------------------------------------------------
  // Create and update payloads

  datatype CfRecordPayload = CfRecordPayload(
    recordType: string, name: string, content: Option<string>, ttl: u32,
    priority: Option<u16>, data: Option<Json>)

  /** `parse_srv_service_proto`: the first two labels of the host when both
      start with '_', otherwise the placeholder pair. */
  function ParseSrvServiceProto(host: string): (r: (string, string))
    ensures StartsWith(r.0, "_") && StartsWith(r.1, "_")
    ensures '.' !in r.0 && '.' !in r.1
  {
    var parts := Split(host, '.');
    if |parts| >= 2 && StartsWith(parts[0], "_") && StartsWith(parts[1], "_") then (parts[0], parts[1])
    else ("_service", "_tcp")
  }

  /** A host "_service._proto" or "_service._proto.more" gives its two
      labels. */
  lemma ServiceProtoOfLabels(service: string, proto: string, rest: string)
    requires StartsWith(service, "_") && StartsWith(proto, "_")
    requires '.' !in service && '.' !in proto
    requires rest == [] || rest[0] == '.'
    ensures ParseSrvServiceProto(service + "." + proto + rest) == (service, proto)
  {
    var host := service + "." + proto + rest;
    var tail := proto + rest;
    assert host == service + ['.'] + tail;
    SplitCons(service, '.', tail);
    assert Split(tail, '.')[0] == proto by {
      if rest == [] {
        assert tail == proto;
      } else {
        DotTail(proto, rest);
        SplitCons(proto, '.', rest[1..]);
      }
    }
    var parts := Split(host, '.');
    assert |parts| >= 2 && parts[0] == service && parts[1] == proto;
  }

  lemma DotTail(a: string, rest: string)
    requires rest != [] && rest[0] == '.'
    ensures a + rest == a + ['.'] + rest[1..]
  {
    assert rest == ['.'] + rest[1..];
  }

  /** A host whose first label does not start with '_' (a plain name such
      as "sip" or "@") gets the placeholder pair. */
  lemma PlaceholderForPlainHost(host: string)
    requires host == [] || host[0] != '_'
    ensures ParseSrvServiceProto(host) == ("_service", "_tcp")
  {
    SplitFirstIsPrefix(host);
  }

  lemma SplitFirstIsPrefix(s: string)
    ensures StartsWith(s, Split(s, '.')[0])
  {
    if '.' in s {
      var i := IndexOf(s, '.');
      assert s == s[..i] + ['.'] + s[i + 1..];
      SplitCons(s[..i], '.', s[i + 1..]);
    }
  }

  /** The SRV data object. */
  function SrvData(zone: string, host: string, content: string, srvPriority: Option<u16>,
                   srvWeight: Option<u16>, srvPort: Option<u16>): Json
  {
    var (service, proto) := ParseSrvServiceProto(host);
    Obj(map["service" := Str(service), "proto" := Str(proto), "name" := Str(zone),
            "priority" := Int(srvPriority.UnwrapOr(0)), "weight" := Int(srvWeight.UnwrapOr(0)),
            "port" := Int(srvPort.UnwrapOr(0)), "target" := Str(content)])
  }

  /** The CAA data object. */
  function CaaData(content: string, caaFlags: Option<u8>, caaTag: Option<string>): Json
  {
    Obj(map["flags" := Int(caaFlags.UnwrapOr(0)), "tag" := Str(caaTag.UnwrapOr("issue")),
            "value" := Str(content)])
  }

  /** `build_cf_payload_common`. SRV and CAA carry their fields in a data
      object and no content or priority; MX carries content and its
      priority; every other type carries only its content. */
  function BuildCfPayloadCommon(zone: string, recordType: string, host: string, content: string,
                                ttl: u32, mxPriority: Option<u16>, srvPriority: Option<u16>,
                                srvWeight: Option<u16>, srvPort: Option<u16>, caaFlags: Option<u8>,
                                caaTag: Option<string>): (r: CfRecordPayload)
    ensures r.recordType == recordType && r.ttl == ttl && r.name == NormalizeFullName(zone, host)
    ensures r.content.None? <==> recordType == "SRV" || recordType == "CAA"
    ensures r.content.Some? ==> r.content.value == content
    ensures r.data.Some? <==> recordType == "SRV" || recordType == "CAA"
    ensures r.priority == (if recordType == "MX" then mxPriority else None)
  {
    var fullName := NormalizeFullName(zone, host);
    match recordType
    case "SRV" =>
      CfRecordPayload(recordType, fullName, None, ttl, None,
                      Some(SrvData(zone, host, content, srvPriority, srvWeight, srvPort)))
    case "CAA" =>
      CfRecordPayload(recordType, fullName, None, ttl, None, Some(CaaData(content, caaFlags, caaTag)))
    case "MX" =>
      CfRecordPayload(recordType, fullName, Some(content), ttl, mxPriority, None)
    case _ =>
      CfRecordPayload(recordType, fullName, Some(content), ttl, None, None)
  }

  /** The record Cloudflare stores for a payload, listed back: the request's
      content, its own type's fields (missing numbers as 0, a missing tag as
      "issue") and the host it was sent under. */
  lemma PayloadReadsBack(zone: string, recordType: string, host: string, content: string,
                         ttl: u32, mxPriority: Option<u16>, srvPriority: Option<u16>,
                         srvWeight: Option<u16>, srvPort: Option<u16>, caaFlags: Option<u8>,
                         caaTag: Option<string>, id: string)
    requires host == "@" || (host != zone && !EndsWith(host, "." + zone))
    ensures var p := BuildCfPayloadCommon(zone, recordType, host, content, ttl, mxPriority,
                                          srvPriority, srvWeight, srvPort, caaFlags, caaTag);
            var r := Mapped(CfRecord(id, p.recordType, p.name, p.content, p.ttl, p.priority, p.data), zone);
            r.name == host && r.content == content && r.recordType == recordType && r.ttl == ttl
            && r.mxPriority == (if recordType == "MX" then mxPriority else None)
            && (recordType == "SRV" ==>
                  r.srvPriority == Some(srvPriority.UnwrapOr(0)) && r.srvWeight == Some(srvWeight.UnwrapOr(0))
                  && r.srvPort == Some(srvPort.UnwrapOr(0)))
            && (recordType == "CAA" ==>
                  r.caaFlags == Some(caaFlags.UnwrapOr(0)) && r.caaTag == Some(caaTag.UnwrapOr("issue")))
  {
    HostRoundTrip(zone, host);
    if recordType == "SRV" {
      SrvDataReadsBack(zone, host, content, srvPriority, srvWeight, srvPort);
    } else if recordType == "CAA" {
      CaaDataReadsBack(content, caaFlags, caaTag);
    }
  }

  lemma SrvDataReadsBack(zone: string, host: string, content: string, srvPriority: Option<u16>,
                         srvWeight: Option<u16>, srvPort: Option<u16>)
    ensures var d := SrvData(zone, host, content, srvPriority, srvWeight, srvPort);
            DataU16(d, "priority") == Some(srvPriority.UnwrapOr(0))
            && DataU16(d, "weight") == Some(srvWeight.UnwrapOr(0))
            && DataU16(d, "port") == Some(srvPort.UnwrapOr(0))
            && DataStr(d, "target") == Some(content)
  {
    var d := SrvData(zone, host, content, srvPriority, srvWeight, srvPort);
    assert d.fields["priority"] == Int(srvPriority.UnwrapOr(0));
    assert d.fields["weight"] == Int(srvWeight.UnwrapOr(0));
    assert d.fields["port"] == Int(srvPort.UnwrapOr(0));
    assert d.fields["target"] == Str(content);
  }

  lemma CaaDataReadsBack(content: string, caaFlags: Option<u8>, caaTag: Option<string>)
    ensures var d := CaaData(content, caaFlags, caaTag);
            DataU8(d, "flags") == Some(caaFlags.UnwrapOr(0))
            && DataStr(d, "tag") == Some(caaTag.UnwrapOr("issue"))
            && DataStr(d, "value") == Some(content)
  {
    var d := CaaData(content, caaFlags, caaTag);
    assert d.fields["flags"] == Int(caaFlags.UnwrapOr(0));
    assert d.fields["tag"] == Str(caaTag.UnwrapOr("issue"));
    assert d.fields["value"] == Str(content);
  }

  // ---------------------------------------------------------------------
  // Errors

  /** `first_error_message`: the message of the first reported error, or
      "Unknown error" when the list is absent or empty. */
  function FirstErrorMessage(errors: Option<seq<string>>): (r: string)
    ensures errors.Some? && |errors.value| > 0 ==> r == errors.value[0]
    ensures errors.None? || errors.value == [] ==> r == "Unknown error"
  {
    match errors
    case Some(es) => if |es| > 0 then es[0] else "Unknown error"
    case None => "Unknown error"
  }
}
