// Shared value types of the desktop core: the wrappers every operation
// returns, fixed-width integers, the provider enumeration and the entities
// exchanged between the UI, the vault and the provider clients.
module Types {

  datatype Option<T> = None | Some(value: T)
  {
    function UnwrapOr(default: T): T
    {
      if Some? then value else default
    }

    function Or(other: Option<T>): Option<T>
    {
      if Some? then this else other
    }
  }

  /** The error payload every command returns: a machine code and a text. */
  datatype AppError = AppError(code: string, message: string)

  datatype Result<T> = Success(value: T) | Failure(error: AppError)

  /** Unsigned machine integers, as the source's `u8` … `u64`. */
  type u8 = x: int | 0 <= x < 0x100
  type u16 = x: int | 0 <= x < 0x1_0000
  type u32 = x: int | 0 <= x < 0x1_0000_0000
  type u64 = x: int | 0 <= x < 0x1_0000_0000_0000_0000

  const U8Max: nat := 0xFF
  const U16Max: nat := 0xFFFF
  const U32Max: nat := 0xFFFF_FFFF
  const U64Max: nat := 0xFFFF_FFFF_FFFF_FFFF

  type Bytes = seq<u8>

  datatype Provider =
    | Cloudflare | Dnspod | Aliyun | Huawei | Baidu | Dnscom | Rainyun | Tencentcloud

  datatype DomainStatus = Ok | AuthFailed | Unreachable | FetchFailed | NotConfigured

  datatype DomainItem = DomainItem(
    provider: Provider,
    name: string,
    providerId: string,
    status: DomainStatus,
    recordsCount: Option<u32>,
    lastChangedAt: Option<string>)

  datatype DnsRecord = DnsRecord(
    id: string,
    provider: Provider,
    domain: string,
    recordType: string,
    name: string,
    content: string,
    ttl: u32,
    mxPriority: Option<u16>,
    srvPriority: Option<u16>,
    srvWeight: Option<u16>,
    srvPort: Option<u16>,
    caaFlags: Option<u8>,
    caaTag: Option<string>)

  datatype ConflictStrategy = DoNotCreate | Overwrite

  datatype RecordCreateRequest = RecordCreateRequest(
    recordType: string,
    name: string,
    content: string,
    ttl: u32,
    conflictStrategy: ConflictStrategy,
    mxPriority: Option<u16>,
    srvPriority: Option<u16>,
    srvWeight: Option<u16>,
    srvPort: Option<u16>,
    caaFlags: Option<u8>,
    caaTag: Option<string>)

  datatype RecordUpdateRequest = RecordUpdateRequest(
    id: string,
    recordType: string,
    name: string,
    content: string,
    ttl: u32,
    mxPriority: Option<u16>,
    srvPriority: Option<u16>,
    srvWeight: Option<u16>,
    srvPort: Option<u16>,
    caaFlags: Option<u8>,
    caaTag: Option<string>)

  /** An HTTP response as the clients see it: status, body text and the
      body decoded into the expected shape (None when decoding fails). */
  datatype Response<T> = Response(status: u16, text: string, decoded: Option<T>)

  predicate IsSuccessStatus(status: int)
  {
    200 <= status <= 299
  }
}
