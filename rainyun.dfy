// Rainyun client (desktop/src-tauri/src/providers/rainyun.rs). The API's
// answers vary in shape, so the client looks for a list in several places
// and reads each field from the first of several candidate keys; a record
// the answer does not describe is echoed from the request.
module Rainyun {
  import opened Types
  import opened Numbers
  import opened Json
  import Errors

  // ---------------------------------------------------------------------
  // Lists

  /** The places `extract_array` looks, in order: the value itself,
      data, data.data, data.list, list, records, items. */
  function Locations(value: Json): (r: seq<Option<Json>>)
    ensures |r| == 7
  {
    [Some(value), Get(value, "data"), GetIn(Get(value, "data"), "data"),
     GetIn(Get(value, "data"), "list"), Get(value, "list"), Get(value, "records"),
     Get(value, "items")]
  }

  predicate IsArrayAt(loc: Option<Json>)
  {
    loc.Some? && loc.value.Arr?
  }

  /** The items of the first location that is an array, or none. */
  function FirstArray(locs: seq<Option<Json>>): (r: seq<Json>)
    decreases |locs|
  {
    if locs == [] then []
    else if IsArrayAt(locs[0]) then locs[0].value.items
    else FirstArray(locs[1..])
  }

  /** `extract_array`. */
  function ExtractArray(value: Json): seq<Json>
  {
    if value.Arr? then value.items
    else if IsArrayAt(Get(value, "data")) then Get(value, "data").value.items
    else if IsArrayAt(GetIn(Get(value, "data"), "data")) then GetIn(Get(value, "data"), "data").value.items
    else if IsArrayAt(GetIn(Get(value, "data"), "list")) then GetIn(Get(value, "data"), "list").value.items
    else if IsArrayAt(Get(value, "list")) then Get(value, "list").value.items
    else if IsArrayAt(Get(value, "records")) then Get(value, "records").value.items
    else if IsArrayAt(Get(value, "items")) then Get(value, "items").value.items
    else []
  }

  /** The first location holding an array decides, and with none the list
      is empty. */
  lemma {:induction false} FirstArrayIsFirst(locs: seq<Option<Json>>)
    ensures (forall i :: 0 <= i < |locs| ==> !IsArrayAt(locs[i])) ==> FirstArray(locs) == []
    ensures forall i :: 0 <= i < |locs| && IsArrayAt(locs[i])
                        && (forall j :: 0 <= j < i ==> !IsArrayAt(locs[j])) ==>
              FirstArray(locs) == locs[i].value.items
    decreases |locs|
  {
    if locs != [] {
      FirstArrayIsFirst(locs[1..]);
      forall i | 0 <= i < |locs| && IsArrayAt(locs[i]) && (forall j :: 0 <= j < i ==> !IsArrayAt(locs[j]))
        ensures FirstArray(locs) == locs[i].value.items
      {
        if i > 0 {
          assert !IsArrayAt(locs[0]);
          assert locs[1..][i - 1] == locs[i];
          forall j | 0 <= j < i - 1 ensures !IsArrayAt(locs[1..][j]) {
            assert locs[1..][j] == locs[j + 1];
          }
        }
      }
      if forall i :: 0 <= i < |locs| ==> !IsArrayAt(locs[i]) {
        forall i | 0 <= i < |locs[1..]| ensures !IsArrayAt(locs[1..][i]) {
          assert locs[1..][i] == locs[i + 1];
        }
      }
    }
  }

  /** `extract_array` is the first array among its locations. */
  lemma ExtractArrayFirstLocation(value: Json)
    ensures ExtractArray(value) == FirstArray(Locations(value))
  {
    var l := Locations(value);
    FirstArrayIsFirst(l);
    var k := if value.Arr? then 0
             else if IsArrayAt(l[1]) then 1
             else if IsArrayAt(l[2]) then 2
             else if IsArrayAt(l[3]) then 3
             else if IsArrayAt(l[4]) then 4
             else if IsArrayAt(l[5]) then 5
             else if IsArrayAt(l[6]) then 6
             else 7;
    assert forall j :: 0 <= j < k ==> !IsArrayAt(l[j]);
    if k < 7 {
      assert IsArrayAt(l[k]);
    }
  }

  // ---------------------------------------------------------------------
  // Fields

  /** `get(key)`, the one lookup the extractors make per key. */
  function Field(value: Json, key: string): Option<Json>
  {
    Get(value, key)
  }

  /** A field `extract_string` takes: a string or any integer. */
  predicate StringDecides(value: Json, key: string)
  {
    Field(value, key).Some? && (Field(value, key).value.Str? || Field(value, key).value.Int?)
  }

  /** `extract_string`: the first key holding a string or an integer (as
      `i64` when it fits, else as `u64`, in decimal) wins; keys holding
      anything else are passed over. */
  function ExtractString(value: Json, keys: seq<string>): (r: Option<string>)
    decreases |keys|
  {
    if keys == [] then None
    else match Field(value, keys[0])
      case Some(v) =>
        if AsStr(v).Some? then AsStr(v)
        else if AsI64(v).Some? then Some(ShowInt(AsI64(v).value))
        else if AsU64(v).Some? then Some(Show(AsU64(v).value))
        else ExtractString(value, keys[1..])
      case None => ExtractString(value, keys[1..])
  }

  /** The text of a field that decides. */
  function StringOfField(v: Json): string
    requires v.Str? || v.Int?
  {
    if v.Str? then v.s else ShowInt(v.i)
  }

  /** The result is the first deciding key's field, or absent when no key
      decides. */
  lemma {:induction false} ExtractStringFirst(value: Json, keys: seq<string>)
    ensures ExtractString(value, keys).None? <==> forall i :: 0 <= i < |keys| ==> !StringDecides(value, keys[i])
    ensures forall i :: 0 <= i < |keys| && StringDecides(value, keys[i])
                        && (forall j :: 0 <= j < i ==> !StringDecides(value, keys[j])) ==>
              ExtractString(value, keys) == Some(StringOfField(Field(value, keys[i]).value))
    decreases |keys|
  {
    if keys != [] {
      ExtractStringFirst(value, keys[1..]);
      assert forall i :: 1 <= i < |keys| ==> keys[1..][i - 1] == keys[i];
      if !StringDecides(value, keys[0]) {
        forall i | 0 <= i < |keys| && StringDecides(value, keys[i])
                   && (forall j :: 0 <= j < i ==> !StringDecides(value, keys[j]))
          ensures ExtractString(value, keys) == Some(StringOfField(Field(value, keys[i]).value))
        {
          assert keys[1..][i - 1] == keys[i];
          forall j | 0 <= j < i - 1 ensures !StringDecides(value, keys[1..][j]) {
            assert keys[1..][j] == keys[j + 1];
          }
        }
      }
    }
  }

  /** A field the numeric extractors take: a non-negative integer (in range
      or not), or a string that parses in range. */
  predicate NumberDecides(value: Json, key: string, max: nat)
  {
    Field(value, key).Some?
    && (AsU64(Field(value, key).value).Some?
        || (Field(value, key).value.Str? && ParseUnsigned(Field(value, key).value.s, max).Some?))
  }

  /** `extract_u32` and `extract_u16` for the largest value `max`: the first
      key holding a non-negative integer decides, and yields nothing when
      the integer is out of range; a string counts only when it parses. */
  function ExtractUnsigned(value: Json, keys: seq<string>, max: nat): (r: Option<nat>)
    ensures r.Some? ==> r.value <= max
    decreases |keys|
  {
    if keys == [] then None
    else match Field(value, keys[0])
      case Some(v) =>
        if AsU64(v).Some? then (if AsU64(v).value <= max then Some(AsU64(v).value) else None)
        else if v.Str? && ParseUnsigned(v.s, max).Some? then ParseUnsigned(v.s, max)
        else ExtractUnsigned(value, keys[1..], max)
      case None => ExtractUnsigned(value, keys[1..], max)
  }

  /** The number a deciding field yields. */
  function NumberOfField(v: Json, max: nat): Option<nat>
  {
    if AsU64(v).Some? then (if AsU64(v).value <= max then Some(AsU64(v).value) else None)
    else if v.Str? then ParseUnsigned(v.s, max)
    else None
  }

  lemma {:induction false} ExtractUnsignedFirst(value: Json, keys: seq<string>, max: nat)
    ensures (forall i :: 0 <= i < |keys| ==> !NumberDecides(value, keys[i], max)) ==>
              ExtractUnsigned(value, keys, max).None?
    ensures forall i :: 0 <= i < |keys| && NumberDecides(value, keys[i], max)
                        && (forall j :: 0 <= j < i ==> !NumberDecides(value, keys[j], max)) ==>
              ExtractUnsigned(value, keys, max) == NumberOfField(Field(value, keys[i]).value, max)
    decreases |keys|
  {
    if keys != [] {
      ExtractUnsignedFirst(value, keys[1..], max);
      if !NumberDecides(value, keys[0], max) {
        forall i | 0 <= i < |keys| && NumberDecides(value, keys[i], max)
                   && (forall j :: 0 <= j < i ==> !NumberDecides(value, keys[j], max))
          ensures ExtractUnsigned(value, keys, max) == NumberOfField(Field(value, keys[i]).value, max)
        {
          assert keys[1..][i - 1] == keys[i];
          forall j | 0 <= j < i - 1 ensures !NumberDecides(value, keys[1..][j], max) {
            assert keys[1..][j] == keys[j + 1];
          }
        }
        if forall i :: 0 <= i < |keys| ==> !NumberDecides(value, keys[i], max) {
          forall i | 0 <= i < |keys[1..]| ensures !NumberDecides(value, keys[1..][i], max) {
            assert keys[1..][i] == keys[i + 1];
          }
        }
      }
    }
  }

  /** An out-of-range number stops the search: a later key that would have
      given a value is never read. */
  lemma OutOfRangeStops(value: Json, first: string, second: string, n: u64, m: u64, max: nat)
    requires value.Obj? && first in value.fields && second in value.fields
    requires value.fields[first] == Int(n) && max < n
    requires value.fields[second] == Int(m) && m <= max
    ensures ExtractUnsigned(value, [first, second], max) == None
  {
  }

  /** A string that is not a number is passed over. */
  lemma NonNumericStringFallsThrough(value: Json, first: string, second: string, m: u64, max: nat)
    requires value.Obj? && first in value.fields && second in value.fields && first != second
    requires value.fields[first] == Str("n/a") && m <= max
    requires value.fields[second] == Int(m)
    ensures ExtractUnsigned(value, [first, second], max) == Some(m)
  {
    assert !AllDigits("n/a") by { assert "n/a"[0] == 'n' && !IsDigit('n'); }
  }

  function ExtractU32(value: Json, keys: seq<string>): (r: Option<u32>)
    ensures r.Some? <==> ExtractUnsigned(value, keys, U32Max).Some?
    ensures r.Some? ==> r.value == ExtractUnsigned(value, keys, U32Max).value
  {
    match ExtractUnsigned(value, keys, U32Max)
    case Some(n) => Some(n)
    case None => None
  }

  function ExtractU16(value: Json, keys: seq<string>): (r: Option<u16>)
    ensures r.Some? <==> ExtractUnsigned(value, keys, U16Max).Some?
    ensures r.Some? ==> r.value == ExtractUnsigned(value, keys, U16Max).value
  {
    match ExtractUnsigned(value, keys, U16Max)
    case Some(n) => Some(n)
    case None => None
  }

  // ---------------------------------------------------------------------
  // Domains and records

  const DomainNameKeys: seq<string> := ["domain", "name", "domain_name"]
  const DomainIdKeys: seq<string> := ["id", "domain_id", "domainId"]

  /** `parse_domain_item`: a domain needs a name and an id, and is always
      listed as reachable. */
  function ParseDomainItem(value: Json): (r: Option<DomainItem>)
    ensures r.Some? <==> ExtractString(value, DomainNameKeys).Some? && ExtractString(value, DomainIdKeys).Some?
    ensures r.Some? ==>
      r.value.name == ExtractString(value, DomainNameKeys).value
      && r.value.providerId == ExtractString(value, DomainIdKeys).value
      && r.value.status == DomainStatus.Ok && r.value.provider == Provider.Rainyun
  {
    match ExtractString(value, DomainNameKeys)
    case None => None
    case Some(name) =>
      match ExtractString(value, DomainIdKeys)
      case None => None
      case Some(id) =>
        Some(DomainItem(Provider.Rainyun, name, id, DomainStatus.Ok,
                        ExtractU32(value, ["record_count", "records_count", "recordCount"]),
                        ExtractString(value, ["updated_at", "update_time", "updatedAt"])))
  }

  const RecordIdKeys: seq<string> := ["record_id", "id"]
  const TypeKeys: seq<string> := ["type", "record_type", "recordType"]
  const HostKeys: seq<string> := ["host", "name", "rr"]
  const ContentKeys: seq<string> := ["value", "content"]
  const MxKeys: seq<string> := ["mx", "priority", "mx_priority"]
  const SrvPriorityKeys: seq<string> := ["srv_priority", "priority"]

  /** `parse_record_item`: a record needs an id, a type, a host and a
      content; the TTL defaults to 600 and CAA flags are never read. */
  function ParseRecordItem(value: Json, domainName: string): (r: Option<DnsRecord>)
    ensures r.Some? <==>
      ExtractString(value, RecordIdKeys).Some? && ExtractString(value, TypeKeys).Some?
      && ExtractString(value, HostKeys).Some? && ExtractString(value, ContentKeys).Some?
    ensures r.Some? ==>
      && r.value.id == ExtractString(value, RecordIdKeys).value
      && r.value.recordType == ExtractString(value, TypeKeys).value
      && r.value.name == ExtractString(value, HostKeys).value
      && r.value.content == ExtractString(value, ContentKeys).value
      && r.value.ttl == ExtractU32(value, ["ttl"]).UnwrapOr(600)
      && r.value.caaFlags.None? && r.value.provider == Provider.Rainyun && r.value.domain == domainName
  {
    var id := ExtractString(value, RecordIdKeys);
    var recordType := ExtractString(value, TypeKeys);
    var host := ExtractString(value, HostKeys);
    var content := ExtractString(value, ContentKeys);
    if id.None? || recordType.None? || host.None? || content.None? then None
    else
      Some(DnsRecord(id.value, Provider.Rainyun, domainName, recordType.value, host.value, content.value,
                     ExtractU32(value, ["ttl"]).UnwrapOr(600),
                     ExtractU16(value, MxKeys),
                     ExtractU16(value, SrvPriorityKeys),
                     ExtractU16(value, ["srv_weight", "weight"]),
                     ExtractU16(value, ["srv_port", "port"]),
                     None,
                     ExtractString(value, ["caa_tag", "tag"])))
  }

  /** A lone "priority" field is read as both the MX and the SRV priority. */
  lemma LonePriority(value: Json, p: u16)
    requires value.Obj? && "priority" in value.fields && value.fields["priority"] == Int(p)
    requires "mx" !in value.fields && "mx_priority" !in value.fields && "srv_priority" !in value.fields
    ensures ExtractU16(value, MxKeys) == Some(p)
    ensures ExtractU16(value, SrvPriorityKeys) == Some(p)
  {
    assert MxKeys[1..][1..] == ["mx_priority"];
    assert SrvPriorityKeys[1..] == ["priority"];
  }

  /** The record answered for a create or an update: the record the answer
      describes (under data.record, data, or at the top level), else the
      request echoed with the known id or "0". */
  function ParseRecordFromResponse(value: Json, domainName: string, recordId: Option<u64>,
                                   recordType: string, name: string, content: string, ttl: u32,
                                   mxPriority: Option<u16>, srvPriority: Option<u16>,
                                   srvWeight: Option<u16>, srvPort: Option<u16>,
                                   caaFlags: Option<u8>, caaTag: Option<string>): (r: DnsRecord)
    ensures var described := GetIn(Get(value, "data"), "record").Or(Get(value, "data")).UnwrapOr(value);
            ParseRecordItem(described, domainName).None? ==>
              r == DnsRecord(if recordId.Some? then Show(recordId.value) else "0", Provider.Rainyun,
                             domainName, recordType, name, content, ttl, mxPriority, srvPriority,
                             srvWeight, srvPort, caaFlags, caaTag)
    ensures var described := GetIn(Get(value, "data"), "record").Or(Get(value, "data")).UnwrapOr(value);
            ParseRecordItem(described, domainName).Some? ==> r == ParseRecordItem(described, domainName).value
  {
    var described := GetIn(Get(value, "data"), "record").Or(Get(value, "data")).UnwrapOr(value);
    match ParseRecordItem(described, domainName)
    case Some(record) => record
    case None =>
      var id := match recordId case Some(v) => Show(v) case None => "0";
      DnsRecord(id, Provider.Rainyun, domainName, recordType, name, content, ttl, mxPriority,
                srvPriority, srvWeight, srvPort, caaFlags, caaTag)
  }

  /** An answer without a record, such as an empty object, gives the
      request back with id "0" for a create. */
  lemma EmptyAnswerEchoesCreate(domainName: string, req: RecordCreateRequest)
    ensures var r := ParseRecordFromResponse(Obj(map[]), domainName, None, req.recordType, req.name,
                                             req.content, req.ttl, req.mxPriority, req.srvPriority,
                                             req.srvWeight, req.srvPort, req.caaFlags, req.caaTag);
            r.id == "0" && r.recordType == req.recordType && r.name == req.name && r.content == req.content
            && r.ttl == req.ttl && r.srvPort == req.srvPort && r.caaTag == req.caaTag
  {
    var v := Obj(map[]);
    assert ExtractString(v, RecordIdKeys[1..][1..]).None?;
  }

  // ---------------------------------------------------------------------
  // Responses and identifiers

  /** `parse_json_or_error` with the operation's error code `code`: 401 and
      403 are authentication failures, any other failed status takes the
      code; a successful body that is not JSON is a library decoding
      error. */
  function ParseJsonOrError(status: u16, text: string, code: string, body: Option<Json>,
                            decodeError: string): (r: Result<Json>)
    ensures !IsSuccessStatus(status) ==>
      r.Failure? && r.error.code == (if status == 401 || status == 403 then "auth_failed" else code)
    ensures IsSuccessStatus(status) && body.Some? ==> r == Success(body.value)
    ensures IsSuccessStatus(status) && body.None? ==> r.Failure? && r.error == Errors.DecodeFailure(decodeError)
  {
    if !IsSuccessStatus(status) then
      var mapped := if status == 401 || status == 403 then "auth_failed" else code;
      Failure(AppError(mapped, "HTTP " + Show(status) + ": " + text))
    else match body
      case Some(v) => Success(v)
      case None => Failure(Errors.DecodeFailure(decodeError))
  }

  /** `parse_u64`. */
  function ParseId(s: string): Option<u64>
  {
    ParseU64Trimmed(s)
  }

  /** The id check of `update_record` and `delete_record`. */
  function RequireRecordId(id: string): (r: Result<u64>)
    ensures r.Failure? <==> ParseId(id).None?
    ensures r.Failure? ==> r.error.code == "invalid_input"
    ensures r.Success? ==> r.value == ParseId(id).value
  {
    match ParseId(id)
    case Some(n) => Success(n)
    case None => Failure(AppError("invalid_input", "记录 ID 无效"))
  }

  /** Every id this client renders is accepted back. */
  lemma RecordIdRoundTrip(n: u64)
    ensures RequireRecordId(Show(n)) == Success(n)
  {
    ParseU64TrimmedShow(n);
  }

  /** A word that does not start with a digit or '+' is refused. */
  lemma NonNumericIdRefused(id: string)
    requires Text.IsToken(id) && !IsDigit(id[0]) && id[0] != '+'
    ensures RequireRecordId(id).Failure?
  {
    Text.TrimToken(id);
  }
}
