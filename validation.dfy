// The check every record request passes before it reaches a provider
// (`validate_record_request`, desktop/src-tauri/src/commands.rs): the type,
// blank name and content, the TTL range, and the rules of each type.
module Validation {
  import opened Types
  import opened Text
  import opened Numbers

  /** The record types the app manages. */
  predicate ValidType(t: string)
  {
    t == "A" || t == "AAAA" || t == "CNAME" || t == "TXT" || t == "MX" || t == "NS" || t == "SRV" || t == "CAA"
  }

  const MinTtl: nat := 60
  const MaxTtl: nat := 86400

  /** One part of a dotted-quad address as `Ipv4Addr` parses it: one to
      three digits, no leading zero, at most 255. */
  predicate Octet(t: string)
  {
    1 <= |t| <= 3 && AllDigits(t) && (|t| == 1 || t[0] != '0') && DigitsValue(t) <= 255
  }

  /** The text `Ipv4Addr::from_str` accepts: four octets separated by dots. */
  predicate IsIpv4(s: string)
  {
    var parts := Split(s, '.');
    |parts| == 4 && forall i :: 0 <= i < 4 ==> Octet(parts[i])
  }

  /** An SRV host of the form "_service._proto[...]". */
  predicate SrvNameOk(name: string)
  {
    var parts := Split(name, '.');
    |parts| >= 2 && StartsWith(parts[0], "_") && StartsWith(parts[1], "_")
  }

  /** The checks of each type, run once name, content and TTL have passed;
      `content` and `name` are trimmed, `isIpv6` is `Ipv6Addr::from_str`. */
  function CheckType(req: RecordCreateRequest, name: string, content: string, isIpv6: string -> bool): Result<()>
  {
    var t := req.recordType;
    if t == "A" then
      if !IsIpv4(content) then Failure(AppError("invalid_content", "A 记录必须是有效的 IPv4 地址")) else Success(())
    else if t == "AAAA" then
      if !isIpv6(content) then Failure(AppError("invalid_content", "AAAA 记录必须是有效的 IPv6 地址")) else Success(())
    else if t == "CNAME" || t == "NS" then
      if '.' !in content then Failure(AppError("invalid_content", "记录值必须是有效域名")) else Success(())
    else if t == "MX" then
      if req.mxPriority.None? then Failure(AppError("missing_field", "MX 记录必须设置优先级")) else Success(())
    else if t == "SRV" then
      if req.srvPriority.None? || req.srvWeight.None? || req.srvPort.None? then
        Failure(AppError("missing_field", "SRV 记录必须设置优先级、权重和端口"))
      else if !SrvNameOk(name) then Failure(AppError("invalid_name", "SRV 主机记录需为 _service._proto 形式"))
      else Success(())
    else if t == "CAA" then
      if req.caaTag.Some? && Trim(req.caaTag.value) == [] then Failure(AppError("invalid_caa_tag", "CAA Tag 不能为空"))
      else Success(())
    else Success(())
  }

  /** `validate_record_request`: the first failing check decides the error. */
  function ValidateRecordRequest(req: RecordCreateRequest, isIpv6: string -> bool): (r: Result<()>)
    ensures !ValidType(req.recordType) ==> r.Failure? && r.error.code == "invalid_type"
    ensures ValidType(req.recordType) && Trim(req.name) == [] ==> r == Failure(AppError("invalid_name", "主机记录不能为空"))
    ensures ValidType(req.recordType) && Trim(req.name) != [] && Trim(req.content) == [] ==>
              r == Failure(AppError("invalid_content", "记录值不能为空"))
    ensures (ValidType(req.recordType) && Trim(req.name) != [] && Trim(req.content) != []
             && !(MinTtl <= req.ttl <= MaxTtl)) ==> r == Failure(AppError("invalid_ttl", "TTL 必须在 60-86400 秒之间"))
  {
    if !ValidType(req.recordType) then Failure(AppError("invalid_type", "不支持的记录类型: " + req.recordType))
    else
      var name := Trim(req.name);
      if name == [] then Failure(AppError("invalid_name", "主机记录不能为空"))
      else
        var content := Trim(req.content);
        if content == [] then Failure(AppError("invalid_content", "记录值不能为空"))
        else if req.ttl < 60 || req.ttl > 86400 then Failure(AppError("invalid_ttl", "TTL 必须在 60-86400 秒之间"))
        else CheckType(req, name, content, isIpv6)
  }

  /** The rule of each type, stated on its own. */
  predicate TypeRuleHolds(req: RecordCreateRequest, name: string, content: string, isIpv6: string -> bool)
  {
    var t := req.recordType;
    (t == "A" ==> IsIpv4(content))
    && (t == "AAAA" ==> isIpv6(content))
    && (t == "CNAME" || t == "NS" ==> '.' in content)
    && (t == "MX" ==> req.mxPriority.Some?)
    && (t == "SRV" ==> req.srvPriority.Some? && req.srvWeight.Some? && req.srvPort.Some? && SrvNameOk(name))
    && (t == "CAA" && req.caaTag.Some? ==> Trim(req.caaTag.value) != [])
  }

  lemma CheckTypeIffRule(req: RecordCreateRequest, name: string, content: string, isIpv6: string -> bool)
    ensures CheckType(req, name, content, isIpv6).Success? <==> TypeRuleHolds(req, name, content, isIpv6)
  {
  }

  /** What an acceptable request is, stated rule by rule. */
  predicate Acceptable(req: RecordCreateRequest, isIpv6: string -> bool)
  {
    ValidType(req.recordType) && Trim(req.name) != [] && Trim(req.content) != [] && MinTtl <= req.ttl <= MaxTtl
    && TypeRuleHolds(req, Trim(req.name), Trim(req.content), isIpv6)
  }

  /** The check passes exactly the acceptable requests. */
  lemma ValidateIffAcceptable(req: RecordCreateRequest, isIpv6: string -> bool)
    ensures ValidateRecordRequest(req, isIpv6).Success? <==> Acceptable(req, isIpv6)
  {
    CheckTypeIffRule(req, Trim(req.name), Trim(req.content), isIpv6);
  }

  /** Once the common checks pass, each type-specific rule that fails gives
      its own error: bad addresses and names `invalid_content`, a missing
      number `missing_field`, an SRV host not of the form "_service._proto"
      `invalid_name`, and a blank CAA tag `invalid_caa_tag`. */
  lemma TypeRuleErrors(req: RecordCreateRequest, isIpv6: string -> bool)
    requires ValidType(req.recordType) && Trim(req.name) != [] && Trim(req.content) != []
    requires MinTtl <= req.ttl <= MaxTtl
    ensures var r := ValidateRecordRequest(req, isIpv6);
            var t := req.recordType;
            var content := Trim(req.content);
            (t == "A" && !IsIpv4(content) ==> r.Failure? && r.error.code == "invalid_content")
            && (t == "AAAA" && !isIpv6(content) ==> r.Failure? && r.error.code == "invalid_content")
            && ((t == "CNAME" || t == "NS") && '.' !in content ==> r.Failure? && r.error.code == "invalid_content")
            && (t == "MX" && req.mxPriority.None? ==> r.Failure? && r.error.code == "missing_field")
            && (t == "SRV" && (req.srvPriority.None? || req.srvWeight.None? || req.srvPort.None?) ==>
                  r.Failure? && r.error.code == "missing_field")
            && ((t == "SRV" && req.srvPriority.Some? && req.srvWeight.Some? && req.srvPort.Some?
                 && !SrvNameOk(Trim(req.name))) ==> r.Failure? && r.error.code == "invalid_name")
            && (t == "CAA" && req.caaTag.Some? && Trim(req.caaTag.value) == [] ==>
                  r.Failure? && r.error.code == "invalid_caa_tag")
            && (t == "CAA" && req.caaTag.None? ==> r.Success?)
            && (t == "TXT" ==> r.Success?)
  {
  }

  // ---------------------------------------------------------------------
  // Addresses

  lemma ShowShort(n: nat)
    requires n <= 255
    ensures 1 <= |Show(n)| <= 3
  {
    if n >= 10 {
      ShowShort(n / 10);
      if n < 100 {
        assert |Show(n / 10)| == 1;
      }
    }
  }

  /** The decimal rendering of a number up to 255 is an octet. */
  lemma ShowOctet(n: nat)
    requires n <= 255
    ensures Octet(Show(n))
  {
    ShowShort(n);
    ShowValue(n);
  }

  /** Four octets joined by dots form an address. */
  lemma JoinedOctetsIsIpv4(parts: seq<string>)
    requires |parts| == 4 && forall i :: 0 <= i < 4 ==> Octet(parts[i])
    ensures IsIpv4(Join(parts, "."))
  {
    forall i | 0 <= i < 4 ensures '.' !in parts[i] {
      assert AllDigits(parts[i]);
    }
    SplitJoin(parts, '.');
  }

  lemma JoinFour(a: string, b: string, c: string, d: string)
    ensures Join([a, b, c, d], ".") == a + "." + b + "." + c + "." + d
  {
    var parts := [a, b, c, d];
    assert parts[1..] == [b, c, d];
    assert parts[1..][1..] == [c, d];
    assert parts[1..][1..][1..] == [d];
    assert Join([c, d], ".") == c + "." + d;
    assert Join([b, c, d], ".") == b + "." + (c + "." + d);
  }

  /** Four octets written with dots between them form an address. */
  lemma OctetsIsIpv4(a: string, b: string, c: string, d: string)
    requires Octet(a) && Octet(b) && Octet(c) && Octet(d)
    ensures IsIpv4(a + "." + b + "." + c + "." + d)
  {
    JoinFour(a, b, c, d);
    JoinedOctetsIsIpv4([a, b, c, d]);
  }

  /** Every address written as four decimal octets is accepted. */
  lemma DottedQuadIsIpv4(a: u8, b: u8, c: u8, d: u8)
    ensures IsIpv4(Show(a) + "." + Show(b) + "." + Show(c) + "." + Show(d))
  {
    ShowOctet(a);
    ShowOctet(b);
    ShowOctet(c);
    ShowOctet(d);
    OctetsIsIpv4(Show(a), Show(b), Show(c), Show(d));
  }

  /** "999.1.1.1" is not an address: its first part is above 255. */
  lemma OutOfRangeOctetRejected(req: RecordCreateRequest, isIpv6: string -> bool)
    requires req.recordType == "A" && Trim(req.name) != [] && Trim(req.content) == "999.1.1.1"
    requires MinTtl <= req.ttl <= MaxTtl
    ensures ValidateRecordRequest(req, isIpv6) == Failure(AppError("invalid_content", "A 记录必须是有效的 IPv4 地址"))
  {
    FirstOctetTooLarge();
  }

  lemma FirstOctetTooLarge()
    ensures !IsIpv4("999.1.1.1")
  {
    NineHundredNinetyNine();
    var s := "999.1.1.1";
    assert s == "999" + ['.'] + "1.1.1";
    SplitCons("999", '.', "1.1.1");
    var parts := Split(s, '.');
    assert parts[0] == "999";
    assert !Octet(parts[0]);
  }

  lemma NineHundredNinetyNine()
    ensures !Octet("999")
  {
    assert DigitsValue("999") == 999 by {
      assert "999"[..2] == "99" && "99"[..1] == "9" && "9"[..0] == "";
    }
  }
}
