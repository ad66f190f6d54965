// The commands the UI calls (desktop/src-tauri/src/commands.rs): the
// merged domain list over all providers with its filter and search, the
// conflict decision of record creation over a provider's zone, and the
// vault commands that set the master password or change one provider's
// credentials.
module Commands {
  import opened Types
  import opened Text
  import Validation
  import Vault

  // ---------------------------------------------------------------------
  // The domain list

  /** The order in which `domains_list` asks the providers. */
  const ProviderOrder: seq<Provider> :=
    [Provider.Cloudflare, Provider.Dnspod, Provider.Aliyun, Provider.Huawei,
     Provider.Baidu, Provider.Dnscom, Provider.Rainyun, Provider.Tencentcloud]

  /** Every provider is asked exactly once. */
  lemma ProviderOrderComplete(p: Provider)
    ensures multiset(ProviderOrder)[p] == 1
  {
  }

  /** The name of the placeholder item of a provider with no credentials. */
  function PlaceholderName(p: Provider): string
  {
    match p
    case Cloudflare => "Cloudflare"
    case Dnspod => "DNSPod"
    case Aliyun => "阿里云DNS"
    case Huawei => "华为云DNS"
    case Baidu => "百度智能云DNS"
    case Dnscom => "DNS.COM"
    case Rainyun => "雨云DNS"
    case Tencentcloud => "腾讯云DNS"
  }

  /** The name an error item starts with (for Aliyun and Rainyun it differs
      from the placeholder's). */
  function ErrorName(p: Provider): string
  {
    match p
    case Cloudflare => "Cloudflare"
    case Dnspod => "DNSPod"
    case Aliyun => "Aliyun"
    case Huawei => "华为云DNS"
    case Baidu => "百度智能云DNS"
    case Dnscom => "DNS.COM"
    case Rainyun => "Rainyun"
    case Tencentcloud => "腾讯云DNS"
  }

  /** The status an error code is shown with. */
  function ErrorStatus(code: string): (s: DomainStatus)
    ensures s == DomainStatus.AuthFailed <==> code == "auth_failed"
    ensures s == DomainStatus.Unreachable <==> code == "unreachable" || code == "timeout"
    ensures s == DomainStatus.FetchFailed <==> code != "auth_failed" && code != "unreachable" && code != "timeout"
  {
    if code == "auth_failed" then DomainStatus.AuthFailed
    else if code == "unreachable" || code == "timeout" then DomainStatus.Unreachable
    else DomainStatus.FetchFailed
  }

  /** `make_error_item`: one item standing for a provider whose listing
      failed, with the error's message in its name. */
  function MakeErrorItem(p: Provider, displayName: string, e: AppError): (d: DomainItem)
    ensures d.provider == p && d.status == ErrorStatus(e.code)
    ensures d.providerId == "" && d.recordsCount.None? && d.lastChangedAt.None?
    ensures StartsWith(d.name, displayName) && EndsWith(d.name, e.message + ")")
  {
    var name := displayName + " (错误: " + e.message + ")";
    assert name == displayName + (" (错误: " + e.message + ")");
    assert name[|name| - |e.message + ")"|..] == e.message + ")";
    DomainItem(p, name, "", ErrorStatus(e.code), None, None)
  }

  function NotConfiguredItem(p: Provider): DomainItem
  {
    DomainItem(p, PlaceholderName(p), "", DomainStatus.NotConfigured, None, None)
  }

  /** What a configured provider's client does: fail to be built (which
      ends the whole command), fail to list, or list its domains. */
  datatype Fetch = ClientFailed(error: AppError) | ListFailed(error: AppError) | Listed(items: seq<DomainItem>)

  predicate Wants(filter: Option<Provider>, p: Provider)
  {
    filter.None? || filter == Some(p)
  }

  /** What one provider adds to the list. */
  function Contribution(plain: Vault.PlainVault, p: Provider, fetch: Provider -> Fetch): (r: Result<seq<DomainItem>>)
    ensures Vault.CredentialsOf(plain, p).None? ==> r == Success([NotConfiguredItem(p)])
    ensures Vault.CredentialsOf(plain, p).Some? && fetch(p).ClientFailed? ==> r == Failure(fetch(p).error)
    ensures Vault.CredentialsOf(plain, p).Some? && fetch(p).ListFailed? ==>
              r == Success([MakeErrorItem(p, ErrorName(p), fetch(p).error)])
    ensures Vault.CredentialsOf(plain, p).Some? && fetch(p).Listed? ==> r == Success(fetch(p).items)
  {
    if Vault.CredentialsOf(plain, p).None? then Success([NotConfiguredItem(p)])
    else
      match fetch(p)
      case ClientFailed(e) => Failure(e)
      case ListFailed(e) => Success([MakeErrorItem(p, ErrorName(p), e)])
      case Listed(items) => Success(items)
  }

  /** The contributions of the wanted providers among `ps`, in order; the
      first client that cannot be built fails the whole list. */
  function Collect(ps: seq<Provider>, plain: Vault.PlainVault, filter: Option<Provider>,
                   fetch: Provider -> Fetch): Result<seq<DomainItem>>
  {
    if ps == [] then Success([])
    else if !Wants(filter, ps[0]) then Collect(ps[1..], plain, filter, fetch)
    else
      match Contribution(plain, ps[0], fetch)
      case Failure(e) => Failure(e)
      case Success(v) =>
        match Collect(ps[1..], plain, filter, fetch)
        case Failure(e) => Failure(e)
        case Success(w) => Success(v + w)
  }

  /** Collecting over two runs of providers is collecting over each. */
  lemma {:induction false} CollectConcat(xs: seq<Provider>, ys: seq<Provider>, plain: Vault.PlainVault,
                                         filter: Option<Provider>, fetch: Provider -> Fetch)
    ensures Collect(xs + ys, plain, filter, fetch) ==
              match Collect(xs, plain, filter, fetch)
              case Failure(e) => Failure(e)
              case Success(v) =>
                match Collect(ys, plain, filter, fetch)
                case Failure(e) => Failure(e)
                case Success(w) => Success(v + w)
  {
    if xs == [] {
      assert xs + ys == ys;
      match Collect(ys, plain, filter, fetch)
      case Failure(e) =>
      case Success(w) => assert [] + w == w;
    } else {
      assert (xs + ys)[0] == xs[0];
      assert (xs + ys)[1..] == xs[1..] + ys;
      CollectConcat(xs[1..], ys, plain, filter, fetch);
      if Wants(filter, xs[0]) {
        var c := Contribution(plain, xs[0], fetch);
        match Collect(xs[1..], plain, filter, fetch)
        case Failure(e) =>
        case Success(v) =>
          match Collect(ys, plain, filter, fetch)
          case Failure(e) =>
          case Success(w) =>
            if c.Success? {
              assert c.value + (v + w) == (c.value + v) + w;
            }
      }
    }
  }

  /** A filter leaves only the named provider's contribution. */
  lemma {:induction false} CollectOnly(ps: seq<Provider>, plain: Vault.PlainVault, p: Provider, fetch: Provider -> Fetch)
    requires multiset(ps)[p] <= 1
    ensures p !in ps ==> Collect(ps, plain, Some(p), fetch) == Success([])
    ensures p in ps ==> Collect(ps, plain, Some(p), fetch) == Contribution(plain, p, fetch)
  {
    if ps != [] {
      assert ps == [ps[0]] + ps[1..];
      assert multiset(ps) == multiset{ps[0]} + multiset(ps[1..]);
      CollectOnly(ps[1..], plain, p, fetch);
      if ps[0] == p {
        assert p !in ps[1..];
        match Contribution(plain, p, fetch)
        case Failure(e) =>
        case Success(v) => assert v + [] == v;
      }
    }
  }

  /** No provider's client fails to be built among `ps`. */
  predicate ClientsBuild(ps: seq<Provider>, plain: Vault.PlainVault, filter: Option<Provider>, fetch: Provider -> Fetch)
  {
    forall i :: 0 <= i < |ps| && Wants(filter, ps[i]) && Vault.CredentialsOf(plain, ps[i]).Some? ==>
      !fetch(ps[i]).ClientFailed?
  }

  lemma {:induction false} CollectSucceeds(ps: seq<Provider>, plain: Vault.PlainVault, filter: Option<Provider>,
                                           fetch: Provider -> Fetch)
    requires ClientsBuild(ps, plain, filter, fetch)
    ensures Collect(ps, plain, filter, fetch).Success?
  {
    if ps != [] {
      assert ClientsBuild(ps[1..], plain, filter, fetch) by {
        forall i | 0 <= i < |ps[1..]| && Wants(filter, ps[1..][i]) && Vault.CredentialsOf(plain, ps[1..][i]).Some?
          ensures !fetch(ps[1..][i]).ClientFailed?
        {
          assert ps[1..][i] == ps[i + 1];
        }
      }
      CollectSucceeds(ps[1..], plain, filter, fetch);
    }
  }

  /** Collecting only asks `fetch` about the providers in `ps`. */
  lemma {:induction false} CollectLocal(ps: seq<Provider>, plain: Vault.PlainVault, filter: Option<Provider>,
                                        fetch: Provider -> Fetch, fetch2: Provider -> Fetch)
    requires forall i :: 0 <= i < |ps| ==> fetch(ps[i]) == fetch2(ps[i])
    ensures Collect(ps, plain, filter, fetch) == Collect(ps, plain, filter, fetch2)
  {
    if ps != [] {
      assert Contribution(plain, ps[0], fetch) == Contribution(plain, ps[0], fetch2);
      CollectLocal(ps[1..], plain, filter, fetch, fetch2);
    }
  }

  /** How one provider answers changes only its own contribution: whatever
      `q` returns (short of a client that cannot be built), the providers
      before and after it contribute what they did. */
  lemma ProviderIsolated(xs: seq<Provider>, q: Provider, ys: seq<Provider>, plain: Vault.PlainVault,
                         filter: Option<Provider>, fetch: Provider -> Fetch, fetch2: Provider -> Fetch)
    requires q !in xs && q !in ys
    requires forall p :: p != q ==> fetch(p) == fetch2(p)
    requires ClientsBuild(xs + [q] + ys, plain, filter, fetch2)
    ensures var before := Collect(xs, plain, filter, fetch);
            var after := Collect(ys, plain, filter, fetch);
            var own := Collect([q], plain, filter, fetch2);
            before.Success? && after.Success? && own.Success?
            && Collect(xs + [q] + ys, plain, filter, fetch2) == Success(before.value + own.value + after.value)
  {
    var ps := xs + [q] + ys;
    assert ClientsBuild(xs, plain, filter, fetch2) by {
      forall i | 0 <= i < |xs| ensures ps[i] == xs[i] { }
    }
    assert ClientsBuild([q], plain, filter, fetch2) by {
      assert ps[|xs|] == q;
    }
    assert ClientsBuild(ys, plain, filter, fetch2) by {
      forall i | 0 <= i < |ys| ensures ps[|xs| + 1 + i] == ys[i] { }
    }
    CollectSucceeds(xs, plain, filter, fetch2);
    CollectSucceeds([q], plain, filter, fetch2);
    CollectSucceeds(ys, plain, filter, fetch2);
    CollectLocal(xs, plain, filter, fetch, fetch2);
    CollectLocal(ys, plain, filter, fetch, fetch2);
    CollectConcat(xs, [q], plain, filter, fetch2);
    CollectConcat(xs + [q], ys, plain, filter, fetch2);
  }

  /** The search as `domains_list` applies it: the items whose lower-cased
      name contains the lower-cased text, in their order. */
  function SearchFilter(items: seq<DomainItem>, needle: string): (r: seq<DomainItem>)
    ensures |r| <= |items|
    ensures forall d :: d in r ==> d in items && Contains(ToLower(d.name), needle)
    ensures forall d :: d in items && Contains(ToLower(d.name), needle) ==> d in r
  {
    if items == [] then []
    else
      var rest := SearchFilter(items[1..], needle);
      if Contains(ToLower(items[0].name), needle) then [items[0]] + rest else rest
  }

  /** The filter keeps order: it distributes over concatenation. */
  lemma {:induction false} SearchFilterConcat(a: seq<DomainItem>, b: seq<DomainItem>, needle: string)
    ensures SearchFilter(a + b, needle) == SearchFilter(a, needle) + SearchFilter(b, needle)
  {
    if a == [] {
      assert a + b == b;
    } else {
      assert (a + b)[0] == a[0];
      assert (a + b)[1..] == a[1..] + b;
      SearchFilterConcat(a[1..], b, needle);
    }
  }

  /** The whole search step: no search, or an empty one, keeps every item. */
  function Search(items: seq<DomainItem>, search: Option<string>): seq<DomainItem>
  {
    var needle := ToLower(search.UnwrapOr(""));
    if needle == [] then items else SearchFilter(items, needle)
  }

  lemma EmptySearchKeepsAll(items: seq<DomainItem>)
    ensures Search(items, None) == items && Search(items, Some("")) == items
  {
  }

  /** A non-empty search keeps exactly the items whose lower-cased name
      contains the lower-cased text; the empty one keeps every item. */
  lemma SearchMembers(items: seq<DomainItem>, search: string, d: DomainItem)
    ensures d in Search(items, Some(search)) <==>
              d in items && (ToLower(search) == [] || Contains(ToLower(d.name), ToLower(search)))
  {
  }

  /** Searching for a provider's own name keeps its placeholder. */
  lemma SearchKeepsPlaceholder(items: seq<DomainItem>, p: Provider)
    requires NotConfiguredItem(p) in items
    ensures NotConfiguredItem(p) in Search(items, Some(PlaceholderName(p)))
  {
    var needle := ToLower(PlaceholderName(p));
    assert StartsWith(needle, needle);
  }

  /** The result `domains_list` gives for opened vault contents. */
  function DomainsListResult(plain: Vault.PlainVault, filter: Option<Provider>, search: Option<string>,
                             fetch: Provider -> Fetch): Result<seq<DomainItem>>
  {
    match Collect(ProviderOrder, plain, filter, fetch)
    case Failure(e) => Failure(e)
    case Success(items) => Success(Search(items, search))
  }

  /** `domains_list` after the vault is current: asks each wanted provider
      in the fixed order, appends what it contributes, then applies the
      search; `fetch` stands for each provider's client. */
  method DomainsList(plain: Vault.PlainVault, filter: Option<Provider>, search: Option<string>,
                     fetch: Provider -> Fetch) returns (r: Result<seq<DomainItem>>)
    ensures r == DomainsListResult(plain, filter, search, fetch)
  {
    var items: seq<DomainItem> := [];
    var i := 0;
    while i < |ProviderOrder|
      invariant 0 <= i <= |ProviderOrder|
      invariant Collect(ProviderOrder[..i], plain, filter, fetch) == Success(items)
    {
      var p := ProviderOrder[i];
      assert ProviderOrder[..i + 1] == ProviderOrder[..i] + [p];
      CollectConcat(ProviderOrder[..i], [p], plain, filter, fetch);
      if Wants(filter, p) {
        var c := Contribution(plain, p, fetch);
        if c.Failure? {
          assert ProviderOrder == ProviderOrder[..i + 1] + ProviderOrder[i + 1..];
          CollectConcat(ProviderOrder[..i + 1], ProviderOrder[i + 1..], plain, filter, fetch);
          return Failure(c.error);
        }
        assert c.value + [] == c.value;
        assert Collect([p], plain, filter, fetch) == Success(c.value);
        items := items + c.value;
      } else {
        assert Collect([p], plain, filter, fetch) == Success([]);
        assert items + [] == items;
      }
      i := i + 1;
    }
    assert ProviderOrder[..i] == ProviderOrder;
    var needle := ToLower(search.UnwrapOr(""));
    if needle == [] {
      return Success(items);
    }
    r := Success(SearchFilter(items, needle));
  }

  /** With a filter the list is that one provider's contribution before the
      search; with none, every provider is asked. */
  lemma FilteredList(plain: Vault.PlainVault, p: Provider, search: Option<string>, fetch: Provider -> Fetch)
    ensures DomainsListResult(plain, Some(p), search, fetch) ==
              match Contribution(plain, p, fetch)
              case Failure(e) => Failure(e)
              case Success(v) => Success(Search(v, search))
  {
    ProviderOrderComplete(p);
    CollectOnly(ProviderOrder, plain, p, fetch);
  }

  // ---------------------------------------------------------------------
  // Record creation

  /** The indices of the records with the request's type and name, in
      ascending order. */
  function ConflictIndices(records: seq<DnsRecord>, recordType: string, name: string): (r: seq<nat>)
    ensures forall k :: 0 <= k < |r| ==> r[k] < |records|
    ensures forall j :: 0 <= j < |records| ==>
              (j in r <==> records[j].recordType == recordType && records[j].name == name)
    ensures forall k, l :: 0 <= k < l < |r| ==> r[k] < r[l]
    decreases |records|
  {
    if records == [] then []
    else
      var n := |records| - 1;
      var front := ConflictIndices(records[..n], recordType, name);
      assert forall j :: 0 <= j < n ==> records[..n][j] == records[j];
      if records[n].recordType == recordType && records[n].name == name then front + [n] else front
  }

  /** What `record_create` does once the request is valid and the zone's
      records are listed. */
  datatype Decision = Reject(error: AppError) | UpdateAt(index: nat) | Append

  function Decide(records: seq<DnsRecord>, req: RecordCreateRequest): (d: Decision)
    ensures d.Append? <==> |ConflictIndices(records, req.recordType, req.name)| == 0
    ensures d.UpdateAt? <==> req.conflictStrategy == ConflictStrategy.Overwrite
                             && |ConflictIndices(records, req.recordType, req.name)| == 1
    ensures d.UpdateAt? ==> d.index < |records| && records[d.index].recordType == req.recordType
                            && records[d.index].name == req.name
    ensures d.Reject? ==> d.error.code == "conflict"
  {
    var conflicts := ConflictIndices(records, req.recordType, req.name);
    if |conflicts| == 0 then Append
    else
      match req.conflictStrategy
      case DoNotCreate => Reject(AppError("conflict", "Record already exists"))
      case Overwrite =>
        if |conflicts| != 1 then Reject(AppError("conflict", "Multiple conflicting records found"))
        else UpdateAt(conflicts[0])
  }

  /** The record a create or update request describes, under a given id. */
  function RecordOf(id: string, provider: Provider, domain: string, req: RecordCreateRequest): (r: DnsRecord)
    ensures r.id == id && r.recordType == req.recordType && r.name == req.name && r.content == req.content
  {
    DnsRecord(id, provider, domain, req.recordType, req.name, req.content, req.ttl, req.mxPriority,
              req.srvPriority, req.srvWeight, req.srvPort, req.caaFlags, req.caaTag)
  }

  /** The update `record_create` sends when it overwrites record `id`. */
  function OverwriteRequest(id: string, req: RecordCreateRequest): (u: RecordUpdateRequest)
    ensures u.id == id && u.recordType == req.recordType && u.name == req.name && u.content == req.content
  {
    RecordUpdateRequest(id, req.recordType, req.name, req.content, req.ttl, req.mxPriority,
                        req.srvPriority, req.srvWeight, req.srvPort, req.caaFlags, req.caaTag)
  }

  /** The record an update request leaves in the zone. */
  function UpdatedRecord(provider: Provider, domain: string, u: RecordUpdateRequest): (r: DnsRecord)
    ensures r.id == u.id && r.recordType == u.recordType && r.name == u.name && r.content == u.content
  {
    DnsRecord(u.id, provider, domain, u.recordType, u.name, u.content, u.ttl, u.mxPriority,
              u.srvPriority, u.srvWeight, u.srvPort, u.caaFlags, u.caaTag)
  }

  /** Overwriting is an update of the matched record that keeps its id and
      takes every other field from the request. */
  lemma OverwriteIsUpdate(id: string, provider: Provider, domain: string, req: RecordCreateRequest)
    ensures UpdatedRecord(provider, domain, OverwriteRequest(id, req)) == RecordOf(id, provider, domain, req)
  {
  }

  /** The position of the first record with a given id. */
  function FindId(records: seq<DnsRecord>, id: string): (r: Option<nat>)
    ensures r.None? <==> forall j :: 0 <= j < |records| ==> records[j].id != id
    ensures r.Some? ==> r.value < |records| && records[r.value].id == id
                        && forall j :: 0 <= j < r.value ==> records[j].id != id
  {
    if records == [] then None
    else if records[0].id == id then Some(0)
    else
      match FindId(records[1..], id)
      case None => None
      case Some(k) => Some(k + 1)
  }

  /** Only the matched record changes: an overwrite keeps the zone's size
      and every other record, and the matched record keeps its id. */
  lemma OverwriteChangesOnlyMatch(records: seq<DnsRecord>, req: RecordCreateRequest, provider: Provider, domain: string)
    requires Decide(records, req).UpdateAt?
    ensures var i := Decide(records, req).index;
            var after := records[i := RecordOf(records[i].id, provider, domain, req)];
            |after| == |records| && after[i].id == records[i].id
            && after[i] == UpdatedRecord(provider, domain, OverwriteRequest(records[i].id, req))
            && after[i].recordType == req.recordType && after[i].name == req.name && after[i].content == req.content
            && (forall j :: 0 <= j < |records| && j != i ==> after[j] == records[j])
            && (forall j :: 0 <= j < |records| && j != i ==>
                  !(records[j].recordType == req.recordType && records[j].name == req.name))
  {
    var i := Decide(records, req).index;
    OverwriteIsUpdate(records[i].id, provider, domain, req);
    var conflicts := ConflictIndices(records, req.recordType, req.name);
    assert |conflicts| == 1 && conflicts[0] == i;
    forall j | 0 <= j < |records| && j != i
      ensures !(records[j].recordType == req.recordType && records[j].name == req.name)
    {
      assert j !in conflicts;
    }
  }

  /** At most one record per type and name. */
  predicate SingleByName(records: seq<DnsRecord>)
  {
    forall i, j :: 0 <= i < j < |records| ==>
      !(records[i].recordType == records[j].recordType && records[i].name == records[j].name)
  }

  /** Whatever `record_create` decides keeps a zone with at most one record
      per type and name in that state. */
  lemma DecidePreservesSingle(records: seq<DnsRecord>, req: RecordCreateRequest, rec: DnsRecord)
    requires SingleByName(records)
    requires rec.recordType == req.recordType && rec.name == req.name
    ensures Decide(records, req).UpdateAt? ==> SingleByName(records[Decide(records, req).index := rec])
    ensures Decide(records, req).Append? ==> SingleByName(records + [rec])
  {
    var conflicts := ConflictIndices(records, req.recordType, req.name);
    if Decide(records, req).Append? {
      forall i | 0 <= i < |records|
        ensures !(records[i].recordType == rec.recordType && records[i].name == rec.name)
      {
        assert i !in conflicts;
      }
    }
  }

  /** The error a record command gives for a provider with no credentials. */
  function NotConfiguredError(p: Provider): (e: AppError)
    ensures e.code == "not_configured" && EndsWith(e.message, " is not configured")
  {
    var name :=
      match p
      case Cloudflare => "Cloudflare"
      case Dnspod => "DNSPod"
      case Aliyun => "Aliyun"
      case Huawei => "Huawei Cloud"
      case Baidu => "Baidu Cloud"
      case Dnscom => "DNS.COM"
      case Rainyun => "Rainyun"
      case Tencentcloud => "Tencent Cloud";
    var message := name + " is not configured";
    assert message[|message| - |" is not configured"|..] == " is not configured";
    AppError("not_configured", message)
  }

  /** A provider's zone: the records `list_records` would return. */
  class Zone {
    const provider: Provider
    const domain: string
    var records: seq<DnsRecord>

    constructor(provider: Provider, domain: string, records: seq<DnsRecord>)
      ensures this.provider == provider && this.domain == domain && this.records == records
    {
      this.provider := provider;
      this.domain := domain;
      this.records := records;
    }

    /** `list_records`. */
    method List() returns (r: seq<DnsRecord>)
      ensures r == records
    {
      r := records;
    }

    /** `record_update` against this zone: opens the vault, requires the
        provider's credentials, and replaces the record with the request's
        id; `missing` is the provider's answer for an id it does not hold. */
    method RecordUpdate(store: Vault.VaultStore, c: Vault.Crypto, masterPassword: string, req: RecordUpdateRequest,
                        missing: AppError) returns (r: Result<DnsRecord>)
      modifies this
      ensures var current := Vault.DecryptVault(c, store.disk, masterPassword);
              if current.Failure? then r == Failure(current.error) && records == old(records)
              else if Vault.CredentialsOf(current.value.1, provider).None? then
                r == Failure(NotConfiguredError(provider)) && records == old(records)
              else
                match FindId(old(records), req.id)
                case None => r == Failure(missing) && records == old(records)
                case Some(i) =>
                  var rec := UpdatedRecord(provider, domain, req);
                  r == Success(rec) && records == old(records)[i := rec]
    {
      var current := store.Decrypt(c, masterPassword);
      if current.Failure? {
        return Failure(current.error);
      }
      if Vault.CredentialsOf(current.value.1, provider).None? {
        return Failure(NotConfiguredError(provider));
      }
      match FindId(records, req.id)
      case None =>
        r := Failure(missing);
      case Some(i) =>
        var rec := UpdatedRecord(provider, domain, req);
        records := records[i := rec];
        r := Success(rec);
    }

    /** `record_create` against this zone: opens the vault, validates the
        request, requires the provider's credentials, then refuses,
        overwrites the one conflicting record in place, or adds a record
        under `newId`, the id the provider assigns. */
    method RecordCreate(store: Vault.VaultStore, c: Vault.Crypto, masterPassword: string, req: RecordCreateRequest,
                        newId: string, isIpv6: string -> bool) returns (r: Result<DnsRecord>)
      modifies this
      ensures var current := Vault.DecryptVault(c, store.disk, masterPassword);
              var valid := Validation.ValidateRecordRequest(req, isIpv6);
              if current.Failure? then r == Failure(current.error) && records == old(records)
              else if valid.Failure? then r == Failure(valid.error) && records == old(records)
              else if Vault.CredentialsOf(current.value.1, provider).None? then
                r == Failure(NotConfiguredError(provider)) && records == old(records)
              else
                match Decide(old(records), req)
                case Reject(e) => r == Failure(e) && records == old(records)
                case UpdateAt(i) =>
                  var rec := RecordOf(old(records)[i].id, provider, domain, req);
                  r == Success(rec) && records == old(records)[i := rec]
                case Append =>
                  var rec := RecordOf(newId, provider, domain, req);
                  r == Success(rec) && records == old(records) + [rec]
    {
      var current := store.Decrypt(c, masterPassword);
      if current.Failure? {
        return Failure(current.error);
      }
      var valid := Validation.ValidateRecordRequest(req, isIpv6);
      if valid.Failure? {
        return Failure(valid.error);
      }
      if Vault.CredentialsOf(current.value.1, provider).None? {
        return Failure(NotConfiguredError(provider));
      }
      var decision := Decide(records, req);
      match decision
      case Reject(e) =>
        r := Failure(e);
      case UpdateAt(i) =>
        var rec := RecordOf(records[i].id, provider, domain, req);
        records := records[i := rec];
        r := Success(rec);
      case Append =>
        var rec := RecordOf(newId, provider, domain, req);
        records := records + [rec];
        r := Success(rec);
    }
  }

  // ---------------------------------------------------------------------
  // Vault commands

  /** `vault_initialize`: a master password of fewer than eight bytes of
      UTF-8 is refused before the vault is touched. */
  method VaultInitialize(store: Vault.VaultStore, c: Vault.Crypto, masterPassword: string, salt: Bytes, nonce: Bytes)
    returns (r: Result<()>)
    requires |salt| == 16 && |nonce| == 12
    modifies store
    ensures Utf8Len(masterPassword) < 8 ==>
              r == Failure(AppError("invalid_input", "Master password must be at least 8 characters"))
              && store.disk == old(store.disk)
    ensures Utf8Len(masterPassword) >= 8 && old(store.disk).Some? ==>
              r.Failure? && r.error.code == "already_initialized" && store.disk == old(store.disk)
    ensures Utf8Len(masterPassword) >= 8 && old(store.disk).None? ==>
              var created := Vault.NewVaultFile(c, masterPassword, salt, nonce);
              (created.Success? ==> r == Success(()) && store.disk == Some(created.value))
              && (created.Failure? ==> r == Failure(created.error) && store.disk == old(store.disk))
  {
    if Utf8Len(masterPassword) < 8 {
      return Failure(AppError("invalid_input", "Master password must be at least 8 characters"));
    }
    r := store.Initialize(c, masterPassword, salt, nonce);
  }

  /** What the `<provider>_save` and `<provider>_clear` commands share:
      open the vault, replace one provider's entry, seal and write it. */
  method WriteEntry(store: Vault.VaultStore, c: Vault.Crypto, masterPassword: string, p: Provider,
                    entry: Option<Vault.Credentials>, nonce: Bytes) returns (r: Result<()>)
    requires |nonce| == 12
    modifies store
    ensures Written(c, old(store.disk), store.disk, r, masterPassword, p, entry, nonce)
  {
    var current := store.Decrypt(c, masterPassword);
    if current.Failure? {
      return Failure(current.error);
    }
    var (file, plain) := current.value;
    r := store.EncryptAndSave(c, file, Vault.WithCredentials(plain, p, entry), masterPassword, nonce);
  }

  /** The outcome of writing `entry` for `p`: the error of opening the
      vault, else the error of sealing it, each with the disk as it was;
      otherwise success with the sealed file on disk. */
  ghost predicate Written(c: Vault.Crypto, before: Option<Vault.VaultFile>, after: Option<Vault.VaultFile>,
                          r: Result<()>, masterPassword: string, p: Provider,
                          entry: Option<Vault.Credentials>, nonce: Bytes)
  {
    var current := Vault.DecryptVault(c, before, masterPassword);
    if current.Failure? then r == Failure(current.error) && after == before
    else
      var sealed := Vault.SealedFile(c, current.value.0, Vault.WithCredentials(current.value.1, p, entry),
                                     masterPassword, nonce);
      if sealed.Failure? then r == Failure(sealed.error) && after == before
      else r == Success(()) && after == Some(sealed.value)
  }

  /** `<provider>_save`: `test` is the outcome of the provider's credential
      test, which runs first and whose failure leaves the vault alone; the
      entry is stored with `now` as its verification time. */
  method SaveCredentials(store: Vault.VaultStore, c: Vault.Crypto, masterPassword: string, p: Provider,
                         secrets: seq<string>, test: Result<()>, now: string, nonce: Bytes)
    returns (r: Result<()>)
    requires |nonce| == 12
    modifies store
    ensures test.Failure? ==> r == Failure(test.error) && store.disk == old(store.disk)
    ensures test.Success? ==> Written(c, old(store.disk), store.disk, r, masterPassword, p,
                                      Some(Vault.Credentials(secrets, Some(now))), nonce)
    ensures r.Failure? ==> store.disk == old(store.disk)
    ensures r.Success? ==> test.Success? && Saved(c, old(store.disk), store.disk, masterPassword, p,
                                                   Some(Vault.Credentials(secrets, Some(now))), nonce)
  {
    if test.Failure? {
      return Failure(test.error);
    }
    r := WriteEntry(store, c, masterPassword, p, Some(Vault.Credentials(secrets, Some(now))), nonce);
  }

  /** `<provider>_clear`: removes the provider's entry. */
  method ClearCredentials(store: Vault.VaultStore, c: Vault.Crypto, masterPassword: string, p: Provider, nonce: Bytes)
    returns (r: Result<()>)
    requires |nonce| == 12
    modifies store
    ensures Written(c, old(store.disk), store.disk, r, masterPassword, p, None, nonce)
    ensures r.Failure? ==> store.disk == old(store.disk)
    ensures r.Success? ==> Saved(c, old(store.disk), store.disk, masterPassword, p, None, nonce)
  {
    r := WriteEntry(store, c, masterPassword, p, None, nonce);
  }

  /** `after` is `before` opened with the password, with `p`'s entry
      replaced by `entry`, sealed under `nonce`. */
  ghost predicate Saved(c: Vault.Crypto, before: Option<Vault.VaultFile>, after: Option<Vault.VaultFile>,
                        masterPassword: string, p: Provider, entry: Option<Vault.Credentials>, nonce: Bytes)
  {
    var current := Vault.DecryptVault(c, before, masterPassword);
    current.Success?
    && var sealed := Vault.SealedFile(c, current.value.0, Vault.WithCredentials(current.value.1, p, entry),
                                      masterPassword, nonce);
       sealed.Success? && after == Some(sealed.value)
  }

  /** After a save or a clear, the vault opens with the same password to
      the old contents with that one entry replaced. */
  lemma SavedReopens(c: Vault.Crypto, before: Option<Vault.VaultFile>, after: Option<Vault.VaultFile>,
                     masterPassword: string, p: Provider, entry: Option<Vault.Credentials>, nonce: Bytes)
    requires Vault.Lawful(c) && |nonce| == 12
    requires Saved(c, before, after, masterPassword, p, entry, nonce)
    ensures var plain := Vault.DecryptVault(c, before, masterPassword).value.1;
            var reopened := Vault.DecryptVault(c, after, masterPassword);
            reopened.Success?
            && Vault.CredentialsOf(reopened.value.1, p) == entry
            && (forall q :: q != p ==> Vault.CredentialsOf(reopened.value.1, q) == Vault.CredentialsOf(plain, q))
            && (forall q :: Vault.Configured(reopened.value.0, q) == Vault.CredentialsOf(reopened.value.1, q).Some?)
  {
    var current := Vault.DecryptVault(c, before, masterPassword).value;
    Vault.SealThenDecrypt(c, current.0, Vault.WithCredentials(current.1, p, entry), masterPassword, nonce);
  }

  // ---------------------------------------------------------------------
  // Status

  /** What the UI shows for one provider. */
  datatype IntegrationInfo = IntegrationInfo(configured: bool, lastVerifiedAt: Option<string>)

  /** `vault_status`: whether a vault exists and, in provider order, each
      provider's flag as written in the file (none without a vault). */
  function VaultStatus(disk: Option<Vault.VaultFile>): (r: (bool, seq<bool>))
    ensures r.0 == disk.Some? && |r.1| == |ProviderOrder|
    ensures forall i :: 0 <= i < |ProviderOrder| ==> r.1[i] == (disk.Some? && Vault.Configured(disk.value, ProviderOrder[i]))
  {
    if disk.None? then (false, seq(|ProviderOrder|, _ => false))
    else (true, seq(|ProviderOrder|, i requires 0 <= i < |ProviderOrder| => Vault.Configured(disk.value, ProviderOrder[i])))
  }

  function InfoOf(file: Vault.VaultFile, plain: Vault.PlainVault, p: Provider): IntegrationInfo
  {
    var entry := Vault.CredentialsOf(plain, p);
    IntegrationInfo(Vault.Configured(file, p), if entry.Some? then entry.value.lastVerifiedAt else None)
  }

  /** `integrations_get`: opens the vault and reports, in provider order,
      each flag and the verification time of each stored entry. */
  function IntegrationsGet(c: Vault.Crypto, disk: Option<Vault.VaultFile>, masterPassword: string): (r: Result<seq<IntegrationInfo>>)
    ensures Vault.DecryptVault(c, disk, masterPassword).Failure? ==> r == Failure(Vault.DecryptVault(c, disk, masterPassword).error)
    ensures r.Success? ==> |r.value| == |ProviderOrder|
    ensures r.Success? ==> var current := Vault.DecryptVault(c, disk, masterPassword).value;
                           forall i :: 0 <= i < |ProviderOrder| ==>
                             r.value[i] == InfoOf(current.0, current.1, ProviderOrder[i])
  {
    match Vault.DecryptVault(c, disk, masterPassword)
    case Failure(e) => Failure(e)
    case Success(current) =>
      Success(seq(|ProviderOrder|, i requires 0 <= i < |ProviderOrder| => InfoOf(current.0, current.1, ProviderOrder[i])))
  }

  /** A successful save shows the provider as configured and verified at
      `now`; a clear shows it as not configured; the other providers show
      what they showed before. */
  lemma StatusAfterWrite(c: Vault.Crypto, before: Option<Vault.VaultFile>, after: Option<Vault.VaultFile>,
                         masterPassword: string, i: nat, entry: Option<Vault.Credentials>, nonce: Bytes)
    requires Vault.Lawful(c) && |nonce| == 12 && i < |ProviderOrder|
    requires Saved(c, before, after, masterPassword, ProviderOrder[i], entry, nonce)
    ensures VaultStatus(after).0 && VaultStatus(after).1[i] == entry.Some?
    ensures var info := IntegrationsGet(c, after, masterPassword);
            var was := IntegrationsGet(c, before, masterPassword);
            info.Success? && was.Success?
            && info.value[i] == IntegrationInfo(entry.Some?, if entry.Some? then entry.value.lastVerifiedAt else None)
            && forall j :: 0 <= j < |ProviderOrder| && j != i ==> info.value[j].lastVerifiedAt == was.value[j].lastVerifiedAt
  {
    var p := ProviderOrder[i];
    SavedReopens(c, before, after, masterPassword, p, entry, nonce);
    forall j | 0 <= j < |ProviderOrder| && j != i ensures ProviderOrder[j] != p { }
  }
}
