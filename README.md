# LaoChenDNS core, modelled in Dafny

LaoChenDNS is a desktop DNS manager. One encrypted vault holds the
credentials of eight DNS providers: Cloudflare, DNSPod, Aliyun, Huawei Cloud,
Baidu Cloud, DNS.COM, Rainyun and Tencent Cloud. The UI issues Tauri
commands that list a provider's domains and records and create, update or
delete records. This project models the deterministic logic under those
commands and proves properties of the model. The logic modelled:

- the command layer (`commands.rs`):
  - validation of record requests;
  - the merged domain list with its provider filter and search;
  - the conflict policy of record creation over a provider's zone;
  - the vault commands;
- the vault lifecycle (`vault.rs`);
- the per-provider record mapping, value presentation, request signing and
  response classification (`providers/*.rs`);
- the error conversions (`error.rs`).

Module layout:

- Shared: `Types` (the records of `types.rs` and `error.rs`), `Text`,
  `Numbers`, `Json` (the part of `serde_json::Value` the clients read),
  `Errors`, `RecordValue` (the SRV/CAA presentation several clients share),
  `PercentEncoding`, `OrderedParams` (`BTreeMap<String, String>`) and
  `CanonicalQuery`.
- One module per provider: `Cloudflare`, `Dnspod`, `Aliyun`, `Huawei`,
  `Baidu`, `Dnscom`, `Rainyun`, `Tencent`.
- `Vault` and `Commands`. `Validation` holds `validate_record_request`.

Two argument kinds stand in for code the model does not contain:

- A `Crypto` value supplies Argon2id, SHA-256, AES-256-GCM, Base64 and the
  JSON (de)serialisation of the vault's contents. The laws assumed of it
  (decryption undoes encryption, decoding undoes encoding, deserialisation
  undoes serialisation) form the `Vault.Lawful` predicate. Only the lemmas
  that need those laws require it.
- Network answers, the clock, random salts and nonces, HMAC, and the IPv6
  address parser are all parameters.

The vault file and the `Provider` enum shown in `vault.rs` and `types.rs`
name only Cloudflare and DNSPod, while `commands.rs` uses all eight
providers. The model generalises the vault (fields, flags, and the flag
recomputation of `encrypt_and_save_vault`) to eight providers. That
generalisation, made to match `commands.rs`, is an assumption.

Where the descriptive documentation and the code disagree, the model follows
the code:

- An overwrite updates the matching record in place.
- An SRV host without underscores is sent with the placeholder labels
  `_service`/`_tcp`.

## Model

| member | source | states |
|---|---|---|
| Commands.ProviderOrderComplete | desktop/src-tauri/src/commands.rs:453-460 | each of the eight providers occurs exactly once in the fixed visiting order |
| Commands.ErrorStatus | desktop/src-tauri/src/commands.rs:463-467 | `auth_failed` maps to AuthFailed, `unreachable` and `timeout` to Unreachable, every other code to FetchFailed (each an if-and-only-if) |
| Commands.MakeErrorItem | desktop/src-tauri/src/commands.rs:462-476 | the error item keeps the provider, takes the classified status, has empty provider id and no count or time, and its name starts with the display name and ends with the error message and ")" |
| Commands.Contribution | desktop/src-tauri/src/commands.rs:487-505 | an unconfigured provider adds exactly its NotConfigured placeholder, a client that cannot be built fails the command, a failed listing adds exactly the one error item `make_error_item` builds from the provider's display name and the error, a successful one adds its items unchanged |
| Commands.CollectConcat | desktop/src-tauri/src/commands.rs:487-637 | collecting over two runs of providers is collecting each run and appending, with the first failure winning |
| Commands.CollectOnly | desktop/src-tauri/src/commands.rs:453-460 | with a provider filter, only that provider's contribution remains (nothing when the provider is absent) |
| Commands.CollectSucceeds | desktop/src-tauri/src/commands.rs:487-637 | when every wanted, configured client can be built the list succeeds |
| Commands.CollectLocal | desktop/src-tauri/src/commands.rs:487-637 | the list depends only on the answers of the providers it visits |
| Commands.ProviderIsolated | desktop/src-tauri/src/commands.rs:487-637 | changing one provider's answer (say from success to failure) changes only its own slice of the list; the providers before and after contribute what they did |
| Commands.SearchFilter | desktop/src-tauri/src/commands.rs:643-646 | the result is a sublist of the items, and an item is in it exactly when its lower-cased name contains the search text |
| Commands.SearchFilterConcat | desktop/src-tauri/src/commands.rs:643-646 | the filter distributes over concatenation, so it keeps order |
| Commands.SearchMembers | desktop/src-tauri/src/commands.rs:452-646 | whatever the search, an item is kept exactly when it is listed and either the lower-cased search is empty or the item's lower-cased name contains it |
| Commands.EmptySearchKeepsAll | desktop/src-tauri/src/commands.rs:452-641 | no search and the empty search return every item |
| Commands.SearchKeepsPlaceholder | desktop/src-tauri/src/commands.rs:639-646 | searching for a provider's placeholder name keeps that placeholder |
| Commands.DomainsList | desktop/src-tauri/src/commands.rs:443-647 | the loop over the fixed order returns the collected contributions of the wanted providers, then the search, or the first client-construction failure |
| Commands.FilteredList | desktop/src-tauri/src/commands.rs:453-647 | with a provider filter the result is that provider's contribution, searched |
| Commands.ConflictIndices | desktop/src-tauri/src/commands.rs:773-776 | ascending indices, and an index is present exactly when that record has the request's type and name |
| Commands.Decide | desktop/src-tauri/src/commands.rs:777-803 | Append exactly when there is no conflict, UpdateAt exactly for Overwrite with one conflict (and the index is that conflicting record), otherwise Reject with code `conflict` |
| Commands.OverwriteIsUpdate | desktop/src-tauri/src/commands.rs:782-799 | the update the overwrite sends leaves, field for field, the record the request describes under the conflicting record's id |
| Commands.FindId | desktop/src-tauri/src/commands.rs:1100-1167 | the first record with the id, or none exactly when no record has it |
| Commands.OverwriteChangesOnlyMatch | desktop/src-tauri/src/commands.rs:782-799 | an overwrite keeps the zone's length and every other record; the matched record becomes exactly what the update sent under its id leaves (the matched id with the request's type, name and content); no other record had the request's type and name |
| Commands.DecidePreservesSingle | desktop/src-tauri/src/commands.rs:772-803 | a zone with at most one record per type and name keeps that property after an overwrite or an append |
| Commands.NotConfiguredError | desktop/src-tauri/src/commands.rs:768-770 | code `not_configured`, message "… is not configured" |
| Commands.Zone.List | desktop/src-tauri/src/commands.rs:650-716 | listing returns the zone's records |
| Commands.Zone.RecordUpdate | desktop/src-tauri/src/commands.rs:1100-1167 | vault failure, missing credentials and unknown id leave the zone unchanged with their error; otherwise exactly the record with that id is replaced |
| Commands.Zone.RecordCreate | desktop/src-tauri/src/commands.rs:719-803 | vault failure, then validation failure, then missing credentials, then a rejected conflict each return their error and leave the zone unchanged; Overwrite replaces only the one conflicting record under its id; no conflict appends the new record |
| Commands.VaultInitialize | desktop/src-tauri/src/commands.rs:49-54 | a password of fewer than 8 UTF-8 bytes gives `invalid_input` and leaves the disk; an existing vault gives `already_initialized`; otherwise the new vault file is written or the creation error returned |
| Commands.WriteEntry | desktop/src-tauri/src/commands.rs:147-151 | a vault that does not open gives its error, and a seal that fails gives its error, each with the disk unchanged; otherwise it succeeds and the disk holds the opened vault with that one entry replaced, sealed |
| Commands.SaveCredentials | desktop/src-tauri/src/commands.rs:126-144 | a failed credential test gives its error and leaves the disk; after a passing test the outcome is WriteEntry's with the entry verified at `now`: the open or seal error with the disk unchanged, or success with the updated vault sealed on disk |
| Commands.ClearCredentials | desktop/src-tauri/src/commands.rs:147-151 | the outcome is WriteEntry's with the entry removed: the open or seal error with the disk unchanged, or success with the vault, without that entry, sealed on disk |
| Commands.SavedReopens | desktop/src-tauri/src/commands.rs:126-151 | after a save or clear the vault reopens with the same password, that provider's entry is the new one, every other entry is as before, and each flag says whether its provider has an entry |
| Commands.VaultStatus | desktop/src-tauri/src/commands.rs:19-46 | initialised exactly when a vault file exists; each provider's flag is the file's flag, all false without a file |
| Commands.IntegrationsGet | desktop/src-tauri/src/commands.rs:63-107 | a vault failure is returned as is; otherwise one entry per provider with the file's flag and the stored verification time |
| Commands.StatusAfterWrite | desktop/src-tauri/src/commands.rs:19-107 | after a save the provider shows configured with its new verification time, after a clear not configured, and the others keep their verification times |
| Validation.ValidateRecordRequest | desktop/src-tauri/src/commands.rs:1036-1053 | an unknown type gives `invalid_type` before anything else; then a blank trimmed name `invalid_name`, a blank trimmed content `invalid_content`, a TTL outside [60, 86400] `invalid_ttl`, in that order |
| Validation.CheckTypeIffRule | desktop/src-tauri/src/commands.rs:1055-1094 | the type-specific check passes exactly when the rule of its type holds |
| Validation.ValidateIffAcceptable | desktop/src-tauri/src/commands.rs:1036-1097 | a request passes exactly when it meets every rule, stated rule by rule |
| Validation.TypeRuleErrors | desktop/src-tauri/src/commands.rs:1055-1094 | each failing type rule gives its own code: bad A, AAAA, CNAME or NS content `invalid_content`, missing MX or SRV numbers `missing_field`, an SRV host not "_service._proto" `invalid_name`, a present blank CAA tag `invalid_caa_tag`; an absent CAA tag and any TXT pass |
| Validation.DottedQuadIsIpv4 | desktop/src-tauri/src/commands.rs:1057-1059 | every address written as four decimal octets is accepted as IPv4 |
| Validation.OctetsIsIpv4 | desktop/src-tauri/src/commands.rs:1057-1059 | four octets joined with dots form an accepted address |
| Validation.ShowOctet | desktop/src-tauri/src/commands.rs:1057-1059 | the decimal text of a number up to 255 is an octet |
| Validation.OutOfRangeOctetRejected | desktop/src-tauri/src/commands.rs:1057-1059 | an A record with content "999.1.1.1" is rejected with `invalid_content` |
| Validation.FirstOctetTooLarge | desktop/src-tauri/src/commands.rs:1057-1059 | "999.1.1.1" is not an IPv4 address |
| Vault.WithCredentials | desktop/src-tauri/src/commands.rs:135-139 | the provider's entry becomes the given one and every other entry is unchanged |
| Vault.SetThenClear | desktop/src-tauri/src/commands.rs:126-151 | setting and then clearing one entry is the same as clearing it |
| Vault.DecodeB64Exact | desktop/src-tauri/src/vault.rs:211-229 | succeeds exactly when the decoded bytes have the required length (16 for the salt, 12 for the nonce), otherwise `parse_error` |
| Vault.DecodeEncoded | desktop/src-tauri/src/vault.rs:211-229 | encoding bytes of the required length decodes back to them |
| Vault.DecryptVault | desktop/src-tauri/src/vault.rs:119-151 | no file gives `io_error`; a version other than 1 gives `unsupported_version` before a key is derived; a bad salt gives `parse_error`; a key-check mismatch gives `invalid_master_password`; success returns the file and means the password matched |
| Vault.UndecryptableIsInvalidPassword | desktop/src-tauri/src/vault.rs:136-142 | an AEAD failure after a matching key check also gives `invalid_master_password` |
| Vault.NewVaultFile | desktop/src-tauri/src/vault.rs:77-117 | a new vault has version 1, no configured flag, and the encoded salt and nonce; failures are `crypto_error` |
| Vault.NewVaultOpens | desktop/src-tauri/src/vault.rs:90-115 | a fresh vault opens with its password to the empty credential set |
| Vault.SealedFile | desktop/src-tauri/src/vault.rs:153-190 | a wrong password fails (with `invalid_master_password` once the key is derived); on success each flag equals presence of that provider's entry, and version, salt and key check are kept while the nonce is the new one |
| Vault.SealThenDecrypt | desktop/src-tauri/src/vault.rs:119-190 | sealing contents on a version-1 file and decrypting with the same password returns the sealed file and exactly those contents |
| Vault.VaultStore.Initialize | desktop/src-tauri/src/vault.rs:77-117 | an existing vault gives `already_initialized` and is left untouched; otherwise the new file is written, or nothing on failure |
| Vault.VaultStore.Decrypt | desktop/src-tauri/src/vault.rs:119-151 | reads the disk and returns `DecryptVault` of it |
| Vault.VaultStore.EncryptAndSave | desktop/src-tauri/src/vault.rs:153-190 | writes the sealed file on success; on any failure, a wrong password included, writes nothing |
| Errors.FromInternal | desktop/src-tauri/src/error.rs:19-21 | code `internal_error` with the error's text |
| Errors.FromRequestError | desktop/src-tauri/src/error.rs:25-33 | `timeout` exactly for timeouts, `unreachable` exactly for non-timeout connection failures, `network_error` otherwise, message kept |
| Errors.DecodeFailure | desktop/src-tauri/src/error.rs:25-33 | an undecodable body is a `network_error` with the library's text |
| Cloudflare.NormalizeFullName | desktop/src-tauri/src/providers/cloudflare.rs:211-219 | the zone for "@" or the zone, the host itself when it ends with "."+zone, else host+"."+zone; the result is always the zone or under it |
| Cloudflare.RelativeName | desktop/src-tauri/src/providers/cloudflare.rs:274-280 | "@" for the zone, the name without "."+zone when under it, the name itself otherwise |
| Cloudflare.HostRoundTrip | desktop/src-tauri/src/providers/cloudflare.rs:211-280 | a relative host (or "@") sent and listed back is the same host |
| Cloudflare.QualifiedHostRoundTrip | desktop/src-tauri/src/providers/cloudflare.rs:211-280 | a host already under the zone is sent unchanged and listed back relative |
| Cloudflare.DataU16 | desktop/src-tauri/src/providers/cloudflare.rs:304-306 | a data field is read exactly when it is a non-negative integer, and is read as that integer modulo 65536 (`as u16`) |
| Cloudflare.DataU8 | desktop/src-tauri/src/providers/cloudflare.rs:314-314 | a data field is read exactly when it is a non-negative integer, and is read as that integer modulo 256 (`as u8`) |
| Cloudflare.DataStr | desktop/src-tauri/src/providers/cloudflare.rs:307-316 | a data field is read exactly when it is a string |
| Cloudflare.ToDnsRecord | desktop/src-tauri/src/providers/cloudflare.rs:273-325 | relative name; MX priority only for MX; SRV fields only for SRV and CAA fields only for CAA; content from the data object's target for SRV with data, else the content or "" |
| Cloudflare.PortTruncates | desktop/src-tauri/src/providers/cloudflare.rs:306-306 | a port of 65589 in the data object is read as 53 (`as u16` keeps the low bits) |
| Cloudflare.ParseSrvServiceProto | desktop/src-tauri/src/providers/cloudflare.rs:412-419 | both labels start with "_" and contain no dot |
| Cloudflare.ServiceProtoOfLabels | desktop/src-tauri/src/providers/cloudflare.rs:412-419 | a host "_service._proto[.rest]" gives its two labels |
| Cloudflare.PlaceholderForPlainHost | desktop/src-tauri/src/providers/cloudflare.rs:416-418 | a host not starting with "_" gets ("_service", "_tcp") |
| Cloudflare.BuildCfPayloadCommon | desktop/src-tauri/src/providers/cloudflare.rs:347-410 | the name is the full name; SRV and CAA carry a data object and no content; others carry the content; priority only for MX |
| Cloudflare.PayloadReadsBack | desktop/src-tauri/src/providers/cloudflare.rs:273-410 | the payload listed back gives the request's host, content, type, TTL and fields, with 0 and "issue" for missing ones |
| Cloudflare.SrvDataReadsBack | desktop/src-tauri/src/providers/cloudflare.rs:302-378 | the SRV data object reads back priority, weight, port (0 when missing) and target |
| Cloudflare.CaaDataReadsBack | desktop/src-tauri/src/providers/cloudflare.rs:312-391 | the CAA data object reads back flags (0), tag ("issue") and value |
| Cloudflare.FirstErrorMessage | desktop/src-tauri/src/providers/cloudflare.rs:234-240 | the first error's message, or "Unknown error" when there are none |
| Tencent.ValueRoundTrip | desktop/src-tauri/src/providers/tencentcloud.rs:388-445 | parsing a formatted SRV/CAA value gives back content and fields (0 and "issue" for missing ones) |
| Tencent.OtherTypesVerbatim | desktop/src-tauri/src/providers/tencentcloud.rs:416-443 | other types are sent as the content and read back raw with no fields |
| Tencent.ShortValuesRaw | desktop/src-tauri/src/providers/tencentcloud.rs:395-414 | an SRV value of under four words or a CAA value of under three is kept raw |
| Tencent.ExtractString | desktop/src-tauri/src/providers/tencentcloud.rs:280-290 | a string field as is, a non-negative integer as its decimal text, nothing otherwise |
| Tencent.ExtractU32 | desktop/src-tauri/src/providers/tencentcloud.rs:292-302 | present exactly when the unsigned reading with the 32-bit bound is, with its value |
| Tencent.ExtractU16 | desktop/src-tauri/src/providers/tencentcloud.rs:304-314 | present exactly when the unsigned reading with the 16-bit bound is, with its value |
| Tencent.ExtractBothForms | desktop/src-tauri/src/providers/tencentcloud.rs:280-314 | a number is read alike as an integer or as digit text |
| Tencent.ExtractTooLarge | desktop/src-tauri/src/providers/tencentcloud.rs:292-314 | a number beyond the width is absent in either form |
| Tencent.ParseRecordItem | desktop/src-tauri/src/providers/tencentcloud.rs:326-350 | no RecordId means no record; otherwise type defaults to "A", name to "@", TTL to 600 |
| Tencent.BareItemDefaults | desktop/src-tauri/src/providers/tencentcloud.rs:326-350 | an item with only an id is an A record at "@" with empty content and TTL 600 |
| Tencent.ListedSrvRoundTrip | desktop/src-tauri/src/providers/tencentcloud.rs:326-445 | an SRV item holding a formatted value lists back the content and the three numbers |
| Tencent.ParseRecordFromResponse | desktop/src-tauri/src/providers/tencentcloud.rs:352-386 | the answer's RecordId, else the known id, else 0; provider Tencent and the given domain; type, name, TTL and MX from the caller; content and the five SRV and CAA fields are those of the value parser applied to the content the caller passes |
| Tencent.CreatedRecordDropsFields | desktop/src-tauri/src/providers/tencentcloud.rs:95-138 | a created SRV or CAA record whose request content is one word comes back with that content and no SRV or CAA field, although the formatted value holding them was sent |
| Tencent.DomainSelector | desktop/src-tauri/src/providers/tencentcloud.rs:451-471 | fails with `invalid_input` exactly when no domain name is selected; DomainId is sent exactly when the id parses to a number above 0 |
| Tencent.NumericIdAloneRefused | desktop/src-tauri/src/providers/tencentcloud.rs:451-462 | a blank name falls back to the id only when the id contains '.' |
| Tencent.Classify | desktop/src-tauri/src/providers/tencentcloud.rs:247-270 | a failed status gives `fetch_failed`; an error object gives `auth_failed` exactly for AuthFailure/UnauthorizedOperation codes and `fetch_failed` otherwise; an undecodable body gives `json_decode_failed` |
| Tencent.MissingCodeIsFetchFailed | desktop/src-tauri/src/providers/tencentcloud.rs:254-268 | an error object without a Code is `fetch_failed` |
| Baidu.ValueRoundTrip | desktop/src-tauri/src/providers/baidu.rs:366-423 | parsing a formatted value gives back content and SRV/CAA fields |
| Baidu.OtherTypesVerbatim | desktop/src-tauri/src/providers/baidu.rs:389-421 | other types are sent as content and read back raw |
| Baidu.ListedRecordRoundTrip | desktop/src-tauri/src/providers/baidu.rs:335-353 | a stored record lists back its content and fields, with the MX priority from priority |
| Baidu.CanonicalQueryString | desktop/src-tauri/src/providers/baidu.rs:264-270 | the encoded "k=v" pairs in key order joined by '&', "" for no parameters, and splitting at '&' gives the pairs back |
| Baidu.SortByNameCorrect | desktop/src-tauri/src/providers/baidu.rs:272-286 | the header sort orders by name and only rearranges |
| Baidu.CanonicalHeadersLines | desktop/src-tauri/src/providers/baidu.rs:272-286 | the headers, with lower-cased names and trimmed values, are sorted by name and are a rearrangement of the given ones; the text splits at newlines into one percent-encoded "name:value" line per header |
| Aliyun.AliyunValueShape | desktop/src-tauri/src/providers/aliyun.rs:268-293 | the value reads back as the request's SRV/CAA fields; other types send the content |
| Aliyun.ToDnsRecord | desktop/src-tauri/src/providers/aliyun.rs:356-372 | the raw Value becomes the content, no SRV or CAA field is filled, MX priority from Priority |
| Aliyun.ListedSrvKeepsFormattedValue | desktop/src-tauri/src/providers/aliyun.rs:356-372 | an SRV record created with target "sip.example.com" is listed with content "10 5 443 sip.example.com" and no port |
| Aliyun.ListedRecordRoundTrip | desktop/src-tauri/src/providers/aliyun.rs:268-372 | with the value read back, a created record lists back its content and fields |
| Aliyun.CommonParams | desktop/src-tauri/src/providers/aliyun.rs:185-196 | exactly the eight common parameters, keys in order |
| Aliyun.Insert | desktop/src-tauri/src/providers/aliyun.rs:185-196 | one insert keeps the keys ordered and updates the map |
| Aliyun.CreateParams | desktop/src-tauri/src/providers/aliyun.rs:80-109 | the parameters are the common ones updated with the record's |
| Aliyun.CreateMapFields | desktop/src-tauri/src/providers/aliyun.rs:80-109 | DomainName, RR, Type, Value and TTL from the request; Priority exactly for MX/SRV with a priority (MX first); Weight and Port exactly for SRV with them; common parameters kept |
| Aliyun.CreatedRecordMatchesRequest | desktop/src-tauri/src/providers/aliyun.rs:80-126 | the parameters AddDomainRecord sends and the record it returns agree: DomainName, RR, Type and TTL are the record's domain, name, type and TTL; Value is the value formatted from the record's content and fields; an MX Priority and an SRV Port are the decimal text of the record's; the id is the answer's or "" |
| Aliyun.SignInput | desktop/src-tauri/src/providers/aliyun.rs:240-252 | the string to sign is "GET&%2F&" and the encoded canonical query; the key is the secret with "&" |
| Aliyun.StringToSignRecoversQuery | desktop/src-tauri/src/providers/aliyun.rs:240-252 | the part after the prefix decodes back to the canonical query, which splits into the encoded pairs |
| Aliyun.Classify | desktop/src-tauri/src/providers/aliyun.rs:208-238 | a failed status gives `fetch_failed` before the body; a Code gives `auth_failed` exactly when it names AccessKey or Signature, else `fetch_failed`, with the message defaulting to the Code |
| Aliyun.StatusBeforeBody | desktop/src-tauri/src/providers/aliyun.rs:210-220 | under a failed status the body does not affect the result |
| Dnspod.ToDnsRecord | desktop/src-tauri/src/providers/dnspod.rs:320-383 | type, TTL and MX from the record, else the caller's defaults, else "A" and 600 |
| Dnspod.ToDnsRecordReadsValue | desktop/src-tauri/src/providers/dnspod.rs:332-362 | content and SRV/CAA fields are the shared presentation parse of the value |
| Dnspod.CreatedRecordRoundTrip | desktop/src-tauri/src/providers/dnspod.rs:92-124 | the record built from a create answer carries the request's type, content, TTL, MX and fields |
| Dnspod.TtlFallback | desktop/src-tauri/src/providers/dnspod.rs:320-383 | a numeric TTL wins, a non-numeric one falls back to the default, none and no default gives 600 |
| Dnspod.EnsureOk | desktop/src-tauri/src/providers/dnspod.rs:203-209 | success exactly for code "1", otherwise `auth_failed` with the status message |
| Dnspod.LoginTokenSplits | desktop/src-tauri/src/providers/dnspod.rs:44-46 | the login token splits at ',' back into id and token |
| Dnspod.CommonParams | desktop/src-tauri/src/providers/dnspod.rs:196-201 | exactly `login_token` and `format=json` |
| Dnspod.CreateParams | desktop/src-tauri/src/providers/dnspod.rs:94-106 | the form's exact keys and values, with `mx` exactly for MX with a priority |
| Dnspod.ParseResponse | desktop/src-tauri/src/providers/dnspod.rs:211-231 | a failed status is `http_error`, an undecodable body `json_decode_failed`, else the decoded value |
| Dnscom.ValueRoundTrip | desktop/src-tauri/src/providers/dnscom.rs:216-273 | parsing a formatted value gives back content and fields |
| Dnscom.ShortValuesRaw | desktop/src-tauri/src/providers/dnscom.rs:243-273 | too-short SRV/CAA values and other types are kept raw |
| Dnscom.SignParams | desktop/src-tauri/src/providers/dnscom.rs:195-207 | the caller's map becomes the old map with api_key and timestamp put and then signature put to the HMAC of the string to sign over that map; its contents are that map's canonical string |
| Dnscom.SignedMapKeepsOthers | desktop/src-tauri/src/providers/dnscom.rs:195-207 | signing keeps the map sorted by key; its keys are the old keys plus api_key, timestamp and signature; as a dictionary it is the old one with api_key set to the key, timestamp to the time and signature to the HMAC of the string to sign over the map holding the first two |
| Dnscom.CanonicalSplits | desktop/src-tauri/src/providers/dnscom.rs:199-203 | the canonical part splits at '&' into one "k=v" item per entry |
| Dnscom.EnsureOk | desktop/src-tauri/src/providers/dnscom.rs:283-292 | success exactly for code 0; otherwise `auth_failed` with the message or "DNS.COM API failed" |
| Dnscom.ToDnsRecord | desktop/src-tauri/src/providers/dnscom.rs:325-343 | id as decimal text, name from record, type, TTL and MX kept |
| Dnscom.ListedRecordRoundTrip | desktop/src-tauri/src/providers/dnscom.rs:216-343 | a stored record lists back its content and fields, and the id parses back |
| Huawei.FullName | desktop/src-tauri/src/providers/huawei.rs:218-230 | the name ends with '.'; "@" gives the zone; a host not ending with the zone is qualified |
| Huawei.Rr | desktop/src-tauri/src/providers/huawei.rs:232-242 | "@" when the names agree; otherwise a prefix of the full name never ending with "."+zone |
| Huawei.NameRoundTrip | desktop/src-tauri/src/providers/huawei.rs:218-242 | a relative host (or "@") sent and listed back is unchanged |
| Huawei.QualifiedHostRoundTrip | desktop/src-tauri/src/providers/huawei.rs:218-242 | a host under the zone without the trailing dot is sent with one and listed back relative |
| Huawei.QualifiedDottedHostDoubled | desktop/src-tauri/src/providers/huawei.rs:218-230 | a host under the zone written with its trailing dot is sent with the zone appended a second time |
| Huawei.UnboundedSuffixLeavesZone | desktop/src-tauri/src/providers/huawei.rs:218-230 | "myexample.com" in zone "example.com" is sent as "myexample.com.", outside the zone |
| Huawei.FullNameInZoneInZone | desktop/src-tauri/src/providers/huawei.rs:218-230 | the corrected full name is always the zone or under it |
| Huawei.FullNameInZoneRoundTrip | desktop/src-tauri/src/providers/huawei.rs:218-242 | relative, qualified and dot-qualified hosts all list back as the relative host |
| Huawei.ValueRoundTrip | desktop/src-tauri/src/providers/huawei.rs:282-339 | parsing a formatted value gives back content and fields |
| Huawei.ShortValuesRaw | desktop/src-tauri/src/providers/huawei.rs:309-339 | too-short SRV/CAA values and other types are kept raw |
| Huawei.ZoneItem | desktop/src-tauri/src/providers/huawei.rs:50-58 | the domain name is the zone name without trailing dots, with id, count and status Ok |
| Huawei.FirstValue | desktop/src-tauri/src/providers/huawei.rs:75-75 | the first value of a recordset, or "" |
| Huawei.ListedRecord | desktop/src-tauri/src/providers/huawei.rs:74-92 | id, type, TTL and priority kept; name relative |
| Huawei.ListedRecordRoundTrip | desktop/src-tauri/src/providers/huawei.rs:74-113 | a created recordset lists back the request's name, content and fields; a recordset without values has empty content |
| Huawei.BuildCreatePayload | desktop/src-tauri/src/providers/huawei.rs:99-113 | the name `huawei_full_name` gives, ending in '.', the request's type and TTL, and the one value formatted from its content and fields |
| Huawei.PayloadListsBack | desktop/src-tauri/src/providers/huawei.rs:74-113 | the recordset the payload creates lists back with the request's host, type, TTL, content and SRV or CAA fields |
| Huawei.PayloadLeavesZone | desktop/src-tauri/src/providers/huawei.rs:108-109 | a host "myexample.com" in zone "example.com" is sent in the payload as "myexample.com.", a name outside the zone |
| Huawei.BuildCreatePayloadInZone | desktop/src-tauri/src/providers/huawei.rs:99-113 | the corrected payload has the request's type and TTL and the same formatted value as the payload sent |
| Huawei.PayloadInZone | desktop/src-tauri/src/providers/huawei.rs:108-113 | the corrected payload's name is always the zone or a name under it |
| Huawei.CreatedRecord | desktop/src-tauri/src/providers/huawei.rs:122-139 | id, type, TTL and priority from the answer, relative name |
| Huawei.CreatedRecordKeepsContent | desktop/src-tauri/src/providers/huawei.rs:123-124 | the returned content is the request's content, parsed as a value, with no SRV or CAA field |
| Rainyun.ExtractArrayFirstLocation | desktop/src-tauri/src/providers/rainyun.rs:211-234 | the list is the items of the first of the seven places holding an array, empty if none |
| Rainyun.FirstArrayIsFirst | desktop/src-tauri/src/providers/rainyun.rs:211-234 | the first array found decides, none gives an empty list |
| Rainyun.ExtractStringFirst | desktop/src-tauri/src/providers/rainyun.rs:315-330 | the first key holding a string or integer decides; none gives absent |
| Rainyun.ExtractUnsigned | desktop/src-tauri/src/providers/rainyun.rs:332-362 | the number is within the width |
| Rainyun.ExtractUnsignedFirst | desktop/src-tauri/src/providers/rainyun.rs:332-362 | the first key holding a number or numeric string decides |
| Rainyun.OutOfRangeStops | desktop/src-tauri/src/providers/rainyun.rs:332-346 | an out-of-range number ends the search with nothing |
| Rainyun.NonNumericStringFallsThrough | desktop/src-tauri/src/providers/rainyun.rs:332-346 | a non-numeric string is passed over |
| Rainyun.ExtractU32 | desktop/src-tauri/src/providers/rainyun.rs:332-346 | the 32-bit reading of the first deciding key |
| Rainyun.ExtractU16 | desktop/src-tauri/src/providers/rainyun.rs:348-362 | the 16-bit reading of the first deciding key |
| Rainyun.ParseDomainItem | desktop/src-tauri/src/providers/rainyun.rs:236-249 | a domain exactly when name and id are present, status Ok |
| Rainyun.ParseRecordItem | desktop/src-tauri/src/providers/rainyun.rs:251-272 | a record exactly when id, type, host and value are present; TTL defaults to 600 |
| Rainyun.LonePriority | desktop/src-tauri/src/providers/rainyun.rs:251-272 | a lone "priority" field gives both the MX and the SRV priority |
| Rainyun.ParseRecordFromResponse | desktop/src-tauri/src/providers/rainyun.rs:274-313 | the described record if the answer has one, else the request echoed with the id or "0" |
| Rainyun.EmptyAnswerEchoesCreate | desktop/src-tauri/src/providers/rainyun.rs:274-313 | an empty answer echoes the request with id "0" |
| Rainyun.ParseJsonOrError | desktop/src-tauri/src/providers/rainyun.rs:197-209 | 401 and 403 are `auth_failed`, other failed statuses the operation's code, an undecodable body a `network_error` |
| Rainyun.RequireRecordId | desktop/src-tauri/src/providers/rainyun.rs:110-110 | fails with `invalid_input` exactly when the id does not parse as u64 |
| Rainyun.RecordIdRoundTrip | desktop/src-tauri/src/providers/rainyun.rs:364-366 | every rendered id parses back |
| Rainyun.NonNumericIdRefused | desktop/src-tauri/src/providers/rainyun.rs:364-366 | a word not starting with a digit or '+' is refused |
| RecordValue.RoundTrip | desktop/src-tauri/src/providers/tencentcloud.rs:388-445 | for single-spaced SRV/CAA content and a one-word CAA tag, reading back a formatted value recovers the content and the fields, with 0 and "issue" for missing ones; values of other types read back as their content |
| RecordValue.JoinedWordsSingleSpaced | desktop/src-tauri/src/providers/tencentcloud.rs:399-410 | words joined by single spaces are content the split and join keep intact |
| RecordValue.TwoWordCaaRoundTrip | desktop/src-tauri/src/providers/tencentcloud.rs:405-442 | a CAA value whose content is two words, such as "ca.example.net; account=230123", reads back with that whole content, its flags and its tag |
| RecordValue.SrvRoundTrip | desktop/src-tauri/src/providers/tencentcloud.rs:393-436 | an SRV value reads back content, priority, weight and port |
| RecordValue.CaaRoundTrip | desktop/src-tauri/src/providers/tencentcloud.rs:405-442 | a CAA value reads back content, flags and tag |
| RecordValue.ShortSrvIsRaw | desktop/src-tauri/src/providers/tencentcloud.rs:395-404 | an SRV value of fewer than four words is kept raw |
| PercentEncoding.PercentEncodeIsUrlEncode | desktop/src-tauri/src/providers/baidu.rs:256-262 | the three replacements never change the encoder's output |
| PercentEncoding.WellFormedAlphabet | desktop/src-tauri/src/providers/baidu.rs:256-262 | the output has only unreserved characters, '%' and upper-case hex digits, never '+' or '*' |
| PercentEncoding.PercentEncodeDecodes | desktop/src-tauri/src/providers/aliyun.rs:255-261 | the output is well formed and decodes back to the input's UTF-8 bytes |
| PercentEncoding.UnreservedUnchanged | desktop/src-tauri/src/providers/baidu.rs:256-262 | unreserved text is unchanged |
| OrderedParams.PutOrdered | desktop/src-tauri/src/providers/dnscom.rs:195-207 | insertion keeps the keys ascending |
| OrderedParams.PutToMap | desktop/src-tauri/src/providers/dnscom.rs:195-207 | insertion is map update |
| OrderedParams.PutKeys | desktop/src-tauri/src/providers/dnscom.rs:195-207 | insertion adds its key and no other |
| CanonicalQuery.CanonicalQueryString | desktop/src-tauri/src/providers/baidu.rs:264-270 | the loop builds the encoded pairs joined by '&' |
| CanonicalQuery.QuerySplitsIntoPairs | desktop/src-tauri/src/providers/aliyun.rs:241-247 | the canonical query splits at '&' back into one item per parameter |
| CanonicalQuery.EmptyQuery | desktop/src-tauri/src/providers/baidu.rs:264-270 | no parameters give "" |
| Numbers.ParseShow | desktop/src-tauri/src/providers/tencentcloud.rs:447-449 | the decimal text of a number parses back to it |
| Numbers.ParseU64TrimmedShow | desktop/src-tauri/src/providers/rainyun.rs:364-366 | trimmed decimal text parses back |
| Text.Utf8Len | desktop/src-tauri/src/commands.rs:50-50 | the byte length is between the character count and four times it, and equal to it for ASCII |
| Text.ToLower | desktop/src-tauri/src/commands.rs:452-452 | lower-casing keeps the length and maps each character |
| Text.ToLowerIdempotent | desktop/src-tauri/src/commands.rs:645-645 | lower-casing twice is lower-casing once |
| Text.TrimEmptyIff | desktop/src-tauri/src/commands.rs:1042-1048 | the trimmed text is empty exactly when every character is white space |
| Text.Split | desktop/src-tauri/src/commands.rs:1081-1081 | at least one piece, no piece holds the separator, and joining the pieces gives the text back |
| Text.SplitJoin | desktop/src-tauri/src/commands.rs:1081-1081 | splitting pieces joined by a separator they do not contain gives them back |
| Huawei.ZoneNameBare | desktop/src-tauri/src/providers/huawei.rs:53-53 | a listed zone's name never ends with '.' |
| Huawei.TrimEndMatchesOnce | desktop/src-tauri/src/providers/huawei.rs:238-238 | trimming the zone suffix from a name that has it once gives the host |
| Tencent.DefaultCodeNotAuth | desktop/src-tauri/src/providers/tencentcloud.rs:255-267 | the default code "FailedOperation" is not an authentication failure |
| Tencent.ExtractUnsigned | desktop/src-tauri/src/providers/tencentcloud.rs:292-314 | an absent key gives none; a JSON integer gives itself exactly when it is between 0 and the bound; a string gives its decimal parse within the bound; anything else gives none; every result is within the bound |
| Baidu.InsertByNameSorted | desktop/src-tauri/src/providers/baidu.rs:280-280 | inserting a header into a name-sorted list keeps it sorted |
| Baidu.InsertByNameMultiset | desktop/src-tauri/src/providers/baidu.rs:280-280 | inserting a header adds exactly that header |
| CanonicalQuery.EncodedPairs | desktop/src-tauri/src/providers/baidu.rs:266-268 | one "enc(k)=enc(v)" item per parameter, in key order |
| CanonicalQuery.EncodedPairsAppend | desktop/src-tauri/src/providers/baidu.rs:266-268 | one more parameter adds one more item at the end |
| Dnscom.Pairs | desktop/src-tauri/src/providers/dnscom.rs:199-202 | one raw "k=v" item per parameter, in key order |
| Rainyun.Locations | desktop/src-tauri/src/providers/rainyun.rs:211-232 | the seven places searched for an array, in order |
| Json.Get | desktop/src-tauri/src/providers/rainyun.rs:317-317 | a field is found exactly when the value is an object holding the key |
| Json.AsU64 | desktop/src-tauri/src/providers/rainyun.rs:324-324 | an integer is read as u64 exactly when it is non-negative |
| Json.AsI64 | desktop/src-tauri/src/providers/rainyun.rs:321-321 | an integer is read as i64 exactly when it is below 2^63 |
| Numbers.Show | desktop/src-tauri/src/providers/tencentcloud.rs:447-449 | decimal text is non-empty, all digits, and starts with '0' only for zero |
| Numbers.ParseUnsigned | desktop/src-tauri/src/providers/tencentcloud.rs:396-398 | `str::parse` of an unsigned width succeeds exactly for an optional '+' and digits whose value fits, and the value fits |
| Numbers.ParseShowTooLarge | desktop/src-tauri/src/providers/rainyun.rs:336-340 | the decimal text of a number beyond the width does not parse |
| Numbers.ParseU16 | desktop/src-tauri/src/providers/tencentcloud.rs:396-398 | u16 parsing is unsigned parsing up to 65535 |
| Numbers.ParseU64Trimmed | desktop/src-tauri/src/providers/tencentcloud.rs:447-449 | `parse_u64` is u64 parsing of the trimmed text |
| OrderedParams.ParamMap.Insert | desktop/src-tauri/src/providers/aliyun.rs:185-196 | `BTreeMap::insert` keeps the keys ascending and updates the map at that key |
| PercentEncoding.EncodeBytesWellFormed | desktop/src-tauri/src/providers/aliyun.rs:255-261 | the encoder's output is well-formed percent-encoding |
| PercentEncoding.DecodeEncode | desktop/src-tauri/src/providers/aliyun.rs:255-261 | decoding the encoder's output gives back the bytes |
| PercentEncoding.WellFormedNoEncodedTilde | desktop/src-tauri/src/providers/aliyun.rs:260-260 | well-formed output never contains "%7E", so the last replacement changes nothing |
| Text.Words | desktop/src-tauri/src/providers/tencentcloud.rs:394-394 | every piece of `split_whitespace` is a non-empty word without white space |
| Text.WordsJoin | desktop/src-tauri/src/providers/tencentcloud.rs:394-442 | words joined by single spaces split back into the same words |
| Text.TrimEndMatches | desktop/src-tauri/src/providers/huawei.rs:233-238 | the result is a prefix of the text that no longer ends with the (non-empty) suffix |
| Text.TrimEndDots | desktop/src-tauri/src/providers/huawei.rs:220-220 | the removed tail is all dots and the result does not end with '.' |
| Text.StripSuffix | desktop/src-tauri/src/providers/cloudflare.rs:276-276 | succeeds exactly when the text ends with the suffix, and the result followed by the suffix is the text |
| Text.ToUpper | desktop/src-tauri/src/providers/dnscom.rs:204-204 | upper-casing keeps the length and maps each character |
| Text.Utf8LenIsLength | desktop/src-tauri/src/commands.rs:50-50 | the byte length counted is the length of the UTF-8 encoding |

## Left out

- Networking, HTTP clients, TLS, headers and timeouts are left out. The
  providers' answers are parameters: `Commands.Fetch`, the `missing` error of
  `Commands.Zone.RecordUpdate`, and each client module's response values.
- Cloudflare's `find_conflict_ids` asks the server for the conflicts. The
  zone model uses the same type-and-name filter the other seven providers
  apply to their listed records.
- `record_delete` and `records_list` are reduced to the zone's records
  (`Commands.Zone.List`), because their provider branches are glue around the
  wire calls.
- Argon2id, SHA-256, AES-256-GCM, HMAC, Base64 and serde are functions of an
  unspecified `Crypto` value, not implementations.
- The random salt and nonce and `Utc::now()` are parameters.
- `Ipv6Addr::from_str` is a parameter of `Validation.ValidateRecordRequest`.
  The IPv6 grammar is not modelled.
- `to_lowercase` and `to_uppercase` are ASCII-only case mappings in `Text`,
  because Unicode case mapping is not modelled.
- Time parsing (`parse_rfc3339`, `parse_ymd_hms`, `parse_aliyun_time`,
  `parse_baidu_time`, `parse_huawei_time`, `normalize_datetime`) is a
  parameter.
- Without a disk file, `read_vault_file` gives the `io_error` of a missing
  file. A malformed JSON vault file and a failed write are left out, because
  the disk is an `Option<VaultFile>`.
- The `serialize` field of `Vault.Crypto` is total, so the `serialize_error` returns of vault.rs:91-92
  and vault.rs:170-171 (and of writing the file at vault.rs:72) have no
  counterpart. `serde_json` serialisation of a struct of `Option`s and
  `String`s is taken to succeed.
- `vault_path` and `ensure_parent_dir` (file-system paths) are left out.
- `vault_unlock` is `Vault.VaultStore.Decrypt` with its result dropped.
- Commands.DomainsList: starts from vault contents that are already open.
  Opening them is `Vault.DecryptVault`.
- Commands.DomainsList: runs the providers one after another, as the source
  awaits them.
- Commands.SaveCredentials: each provider's credential test is a parameter.
  Its secret fields are a sequence in the provider's own field order.
- Aliyun.AliyunValueShape: stated only for SRV/CAA content that is single-spaced (one or more words with one space between them and none at either end) and a CAA tag that is one word, because `split_whitespace` followed by the join with single spaces loses any other spacing, and the tag is read as a single word.
- Aliyun.ListedRecordRoundTrip: stated only for SRV/CAA content that is single-spaced (one or more words with one space between them and none at either end) and a CAA tag that is one word, because `split_whitespace` followed by the join with single spaces loses any other spacing, and the tag is read as a single word.
- Baidu.ValueRoundTrip: stated only for SRV/CAA content that is single-spaced (one or more words with one space between them and none at either end) and a CAA tag that is one word, because `split_whitespace` followed by the join with single spaces loses any other spacing, and the tag is read as a single word.
- Baidu.ListedRecordRoundTrip: stated only for SRV/CAA content that is single-spaced (one or more words with one space between them and none at either end) and a CAA tag that is one word, because `split_whitespace` followed by the join with single spaces loses any other spacing, and the tag is read as a single word.
- Dnscom.ValueRoundTrip: stated only for SRV/CAA content that is single-spaced (one or more words with one space between them and none at either end) and a CAA tag that is one word, because `split_whitespace` followed by the join with single spaces loses any other spacing, and the tag is read as a single word.
- Dnscom.ListedRecordRoundTrip: stated only for SRV/CAA content that is single-spaced (one or more words with one space between them and none at either end) and a CAA tag that is one word, because `split_whitespace` followed by the join with single spaces loses any other spacing, and the tag is read as a single word.
- Dnspod.CreatedRecordRoundTrip: stated only for SRV/CAA content that is single-spaced (one or more words with one space between them and none at either end) and a CAA tag that is one word, because `split_whitespace` followed by the join with single spaces loses any other spacing, and the tag is read as a single word.
- Huawei.ValueRoundTrip: stated only for SRV/CAA content that is single-spaced (one or more words with one space between them and none at either end) and a CAA tag that is one word, because `split_whitespace` followed by the join with single spaces loses any other spacing, and the tag is read as a single word.
- Huawei.ListedRecordRoundTrip: stated only for SRV/CAA content that is single-spaced (one or more words with one space between them and none at either end) and a CAA tag that is one word, because `split_whitespace` followed by the join with single spaces loses any other spacing, and the tag is read as a single word.
- Huawei.PayloadListsBack: stated only for SRV/CAA content that is single-spaced (one or more words with one space between them and none at either end) and a CAA tag that is one word, because `split_whitespace` followed by the join with single spaces loses any other spacing, and the tag is read as a single word.
- Huawei.CreatedRecordKeepsContent: stated only for content that is one word without white space, because only then does reading the request's own content back give no SRV or CAA field; content of several words would have its words read as fields instead.
- RecordValue.RoundTrip: stated only for SRV/CAA content that is single-spaced (one or more words with one space between them and none at either end) and a CAA tag that is one word, because `split_whitespace` followed by the join with single spaces loses any other spacing, and the tag is read as a single word.
- Tencent.ValueRoundTrip: stated only for SRV/CAA content that is single-spaced (one or more words with one space between them and none at either end) and a CAA tag that is one word, because `split_whitespace` followed by the join with single spaces loses any other spacing, and the tag is read as a single word.
- Tencent.CreatedRecordDropsFields: stated only for SRV/CAA content that is one word without white space; content of several words would have its words read as SRV or CAA fields instead.
- Tencent.ListedSrvRoundTrip: stated only for target content that is single-spaced (one or more words with one space between them and none at either end), because `split_whitespace` followed by the join with single spaces loses any other spacing.
- Cloudflare, Huawei, Baidu and the other clients' `list_domains`,
  `update_record` and `delete_record` request plumbing is left out beyond the
  mappings listed above, because it is wire-format glue.

## Findings

| source | as written | input that shows it | evidently intended | confidence | as-written member | corrected member |
|---|---|---|---|---|---|---|
| desktop/src-tauri/src/providers/aliyun.rs:356-372 | `to_dns_record` keeps the stored SRV/CAA value as the content and fills no SRV or CAA field, unlike every other client | an SRV record created with target "sip.example.com", priority 10, weight 5, port 443 is listed with content "10 5 443 sip.example.com" and no port | parse the value back as the other clients do | medium, not executed | Aliyun.ListedSrvKeepsFormattedValue | Aliyun.ListedRecordRoundTrip |
| desktop/src-tauri/src/providers/huawei.rs:218-230 | a host that already ends with the zone and a trailing dot is qualified a second time | host "www.example.com." in zone "example.com" is sent as "www.example.com..example.com." | recognise the dotted fully-qualified form and send it as is | medium, not executed | Huawei.QualifiedDottedHostDoubled | Huawei.FullNameInZoneRoundTrip |
| desktop/src-tauri/src/providers/huawei.rs:218-230 | the zone suffix test has no label boundary (Cloudflare tests "."+zone at cloudflare.rs:214) | host "myexample.com" in zone "example.com" is sent as "myexample.com.", a name outside the zone | qualify every host that is not the zone or under it | low, not executed | Huawei.PayloadLeavesZone | Huawei.PayloadInZone |
