// The credential vault (desktop/src-tauri/src/vault.rs): one file holding a
// key-derivation salt, a check value of the derived key, a "configured" flag
// per provider and the credentials encrypted under the derived key.
//
// Argon2id, SHA-256, AES-256-GCM, Base64 and the JSON serialisation of the
// credentials are not defined here: a `Crypto` value supplies them, and the
// only laws assumed of them (decryption undoes encryption, decoding undoes
// encoding) are the `Lawful` predicate, which the lemmas that need it
// require.  The disk is a single optional file; the random salt and nonce
// are parameters.
module Vault {
  import opened Types

  const VaultVersion: u32 := 1

  // ---------------------------------------------------------------------
  // Contents

  /** The credentials stored for one provider: its secret fields in the
      provider's own order and the time they were last verified. */
  datatype Credentials = Credentials(secrets: seq<string>, lastVerifiedAt: Option<string>)

  /** `PlainVault`: the decrypted contents, one optional entry per provider. */
  datatype PlainVault = PlainVault(
    cloudflare: Option<Credentials>,
    dnspod: Option<Credentials>,
    aliyun: Option<Credentials>,
    huawei: Option<Credentials>,
    baidu: Option<Credentials>,
    dnscom: Option<Credentials>,
    rainyun: Option<Credentials>,
    tencentcloud: Option<Credentials>)

  /** `PlainVault::default()`. */
  const EmptyVault := PlainVault(None, None, None, None, None, None, None, None)

  function CredentialsOf(v: PlainVault, p: Provider): Option<Credentials>
  {
    match p
    case Cloudflare => v.cloudflare
    case Dnspod => v.dnspod
    case Aliyun => v.aliyun
    case Huawei => v.huawei
    case Baidu => v.baidu
    case Dnscom => v.dnscom
    case Rainyun => v.rainyun
    case Tencentcloud => v.tencentcloud
  }

  /** The contents with one provider's entry set (Some) or cleared (None). */
  function WithCredentials(v: PlainVault, p: Provider, c: Option<Credentials>): (r: PlainVault)
    ensures CredentialsOf(r, p) == c
    ensures forall q :: q != p ==> CredentialsOf(r, q) == CredentialsOf(v, q)
  {
    match p
    case Cloudflare => v.(cloudflare := c)
    case Dnspod => v.(dnspod := c)
    case Aliyun => v.(aliyun := c)
    case Huawei => v.(huawei := c)
    case Baidu => v.(baidu := c)
    case Dnscom => v.(dnscom := c)
    case Rainyun => v.(rainyun := c)
    case Tencentcloud => v.(tencentcloud := c)
  }

  /** Setting an entry and clearing it again gives back contents without
      that provider and with every other provider as it was. */
  lemma SetThenClear(v: PlainVault, p: Provider, c: Credentials)
    ensures WithCredentials(WithCredentials(v, p, Some(c)), p, None) == WithCredentials(v, p, None)
    ensures CredentialsOf(v, p).None? ==> WithCredentials(WithCredentials(v, p, Some(c)), p, None) == v
  {
  }

  // ---------------------------------------------------------------------
  // The file

  /** `VaultFile`: what is written to disk. */
  datatype VaultFile = VaultFile(
    version: u32,
    kdfSaltB64: string,
    keyCheckB64: string,
    cloudflareConfigured: bool,
    dnspodConfigured: bool,
    aliyunConfigured: bool,
    huaweiConfigured: bool,
    baiduConfigured: bool,
    dnscomConfigured: bool,
    rainyunConfigured: bool,
    tencentcloudConfigured: bool,
    nonceB64: string,
    ciphertextB64: string)

  function Configured(f: VaultFile, p: Provider): bool
  {
    match p
    case Cloudflare => f.cloudflareConfigured
    case Dnspod => f.dnspodConfigured
    case Aliyun => f.aliyunConfigured
    case Huawei => f.huaweiConfigured
    case Baidu => f.baiduConfigured
    case Dnscom => f.dnscomConfigured
    case Rainyun => f.rainyunConfigured
    case Tencentcloud => f.tencentcloudConfigured
  }

  /** The primitives: `deriveKey` is Argon2id (19456 KiB, 2 passes, one lane,
      32-byte output), `sha256` the digest, `b64Encode`/`b64Decode` the
      standard Base64 alphabet, `encrypt`/`decrypt` AES-256-GCM under a key
      and a nonce, and `serialize`/`deserialize` the JSON form of the
      contents. A failure carries the library's message. */
  datatype Crypto = Crypto(
    deriveKey: (string, Bytes) -> Result<Bytes>,
    sha256: Bytes -> Bytes,
    b64Encode: Bytes -> string,
    b64Decode: string -> Result<Bytes>,
    encrypt: (Bytes, Bytes, Bytes) -> Result<Bytes>,
    decrypt: (Bytes, Bytes, Bytes) -> Option<Bytes>,
    serialize: PlainVault -> Bytes,
    deserialize: Bytes -> Result<PlainVault>)

  /** The laws of the primitives the round trips rest on. */
  ghost predicate Lawful(c: Crypto)
  {
    (forall key, nonce, plain :: c.encrypt(key, nonce, plain).Success? ==>
       c.decrypt(key, nonce, c.encrypt(key, nonce, plain).value) == Some(plain))
    && (forall v :: c.deserialize(c.serialize(v)) == Success(v))
    && (forall b :: c.b64Decode(c.b64Encode(b)) == Success(b))
  }

  const InvalidPassword := AppError("invalid_master_password", "Invalid master password")

  /** `decode_b64_16` and `decode_b64_12`: Base64 that must decode to exactly
      `n` bytes. */
  function DecodeB64Exact(c: Crypto, value: string, n: nat, lengthError: string): (r: Result<Bytes>)
    ensures r.Success? <==> c.b64Decode(value).Success? && |c.b64Decode(value).value| == n
    ensures r.Success? ==> r.value == c.b64Decode(value).value && |r.value| == n
    ensures r.Failure? ==> r.error.code == "parse_error"
  {
    match c.b64Decode(value)
    case Failure(e) => Failure(AppError("parse_error", e.message))
    case Success(bytes) =>
      if |bytes| == n then Success(bytes) else Failure(AppError("parse_error", lengthError))
  }

  function DecodeSalt(c: Crypto, value: string): Result<Bytes>
  {
    DecodeB64Exact(c, value, 16, "Invalid salt length")
  }

  function DecodeNonce(c: Crypto, value: string): Result<Bytes>
  {
    DecodeB64Exact(c, value, 12, "Invalid nonce length")
  }

  /** Encoded bytes of the right length decode back; of any other length
      they are refused. */
  lemma DecodeEncoded(c: Crypto, b: Bytes, n: nat, lengthError: string)
    requires Lawful(c)
    ensures |b| == n ==> DecodeB64Exact(c, c.b64Encode(b), n, lengthError) == Success(b)
    ensures |b| != n ==> DecodeB64Exact(c, c.b64Encode(b), n, lengthError) == Failure(AppError("parse_error", lengthError))
  {
  }

  /** `decode_b64_any`. */
  function DecodeB64Any(c: Crypto, value: string): Result<Bytes>
  {
    match c.b64Decode(value)
    case Failure(e) => Failure(AppError("parse_error", e.message))
    case Success(bytes) => Success(bytes)
  }

  /** `derive_key`. */
  function DeriveKey(c: Crypto, masterPassword: string, salt: Bytes): Result<Bytes>
  {
    match c.deriveKey(masterPassword, salt)
    case Failure(e) => Failure(AppError("crypto_error", e.message))
    case Success(key) => Success(key)
  }

  /** The check value stored beside the salt: the Base64 of the key's
      digest. */
  function KeyCheck(c: Crypto, key: Bytes): string
  {
    c.b64Encode(c.sha256(key))
  }

  /** Whether a password derives, under the file's salt, the key the file's
      check value was made from. */
  predicate PasswordMatches(c: Crypto, file: VaultFile, masterPassword: string)
  {
    var salt := DecodeSalt(c, file.kdfSaltB64);
    salt.Success? && DeriveKey(c, masterPassword, salt.value).Success?
    && KeyCheck(c, DeriveKey(c, masterPassword, salt.value).value) == file.keyCheckB64
  }

  // ---------------------------------------------------------------------
  // The operations on values

  /** `decrypt_vault` on the file read from disk (None: no file). */
  function DecryptVault(c: Crypto, disk: Option<VaultFile>, masterPassword: string): (r: Result<(VaultFile, PlainVault)>)
    ensures disk.None? ==> r.Failure? && r.error.code == "io_error"
    ensures disk.Some? && disk.value.version != VaultVersion ==>
              r == Failure(AppError("unsupported_version", "Unsupported vault version"))
    ensures disk.Some? && disk.value.version == VaultVersion && DecodeSalt(c, disk.value.kdfSaltB64).Failure? ==>
              r.Failure? && r.error.code == "parse_error"
    ensures (disk.Some? && disk.value.version == VaultVersion && DecodeSalt(c, disk.value.kdfSaltB64).Success?
             && DeriveKey(c, masterPassword, DecodeSalt(c, disk.value.kdfSaltB64).value).Success?
             && !PasswordMatches(c, disk.value, masterPassword)) ==> r == Failure(InvalidPassword)
    ensures r.Success? ==> disk.Some? && r.value.0 == disk.value && disk.value.version == VaultVersion
                           && PasswordMatches(c, disk.value, masterPassword)
  {
    if disk.None? then Failure(AppError("io_error", "No such file or directory (os error 2)"))
    else
      var file := disk.value;
      if file.version != VaultVersion then Failure(AppError("unsupported_version", "Unsupported vault version"))
      else
        var salt := DecodeSalt(c, file.kdfSaltB64);
        if salt.Failure? then Failure(salt.error)
        else
          var key := DeriveKey(c, masterPassword, salt.value);
          if key.Failure? then Failure(key.error)
          else if KeyCheck(c, key.value) != file.keyCheckB64 then Failure(InvalidPassword)
          else
            var nonce := DecodeNonce(c, file.nonceB64);
            if nonce.Failure? then Failure(nonce.error)
            else
              var ciphertext := DecodeB64Any(c, file.ciphertextB64);
              if ciphertext.Failure? then Failure(ciphertext.error)
              else
                match c.decrypt(key.value, nonce.value, ciphertext.value)
                case None => Failure(InvalidPassword)
                case Some(plaintext) =>
                  match c.deserialize(plaintext)
                  case Failure(e) => Failure(AppError("parse_error", e.message))
                  case Success(plain) => Success((file, plain))
  }

  /** A ciphertext the key does not open is reported as a wrong password
      even though the key check passed. */
  lemma UndecryptableIsInvalidPassword(c: Crypto, file: VaultFile, masterPassword: string)
    requires file.version == VaultVersion && PasswordMatches(c, file, masterPassword)
    requires DecodeNonce(c, file.nonceB64).Success? && DecodeB64Any(c, file.ciphertextB64).Success?
    requires c.decrypt(DeriveKey(c, masterPassword, DecodeSalt(c, file.kdfSaltB64).value).value,
                       DecodeNonce(c, file.nonceB64).value, DecodeB64Any(c, file.ciphertextB64).value).None?
    ensures DecryptVault(c, Some(file), masterPassword) == Failure(InvalidPassword)
  {
  }

  /** `initialize_vault` short of writing: a new salt and nonce, the key
      check, and the empty contents encrypted. */
  function NewVaultFile(c: Crypto, masterPassword: string, salt: Bytes, nonce: Bytes): (r: Result<VaultFile>)
    ensures r.Success? ==> r.value.version == VaultVersion
    ensures r.Success? ==> forall p :: !Configured(r.value, p)
    ensures r.Success? ==> r.value.kdfSaltB64 == c.b64Encode(salt) && r.value.nonceB64 == c.b64Encode(nonce)
    ensures r.Failure? ==> r.error.code == "crypto_error"
  {
    var key := DeriveKey(c, masterPassword, salt);
    if key.Failure? then Failure(key.error)
    else
      var plaintext := c.serialize(EmptyVault);
      match c.encrypt(key.value, nonce, plaintext)
      case Failure(e) => Failure(AppError("crypto_error", e.message))
      case Success(ciphertext) =>
        Success(VaultFile(VaultVersion, c.b64Encode(salt), KeyCheck(c, key.value),
                          false, false, false, false, false, false, false, false,
                          c.b64Encode(nonce), c.b64Encode(ciphertext)))
  }

  /** A fresh vault opens with its own password to the empty contents. */
  lemma NewVaultOpens(c: Crypto, masterPassword: string, salt: Bytes, nonce: Bytes)
    requires Lawful(c) && |salt| == 16 && |nonce| == 12
    requires NewVaultFile(c, masterPassword, salt, nonce).Success?
    ensures var f := NewVaultFile(c, masterPassword, salt, nonce).value;
            DecryptVault(c, Some(f), masterPassword) == Success((f, EmptyVault))
  {
    var f := NewVaultFile(c, masterPassword, salt, nonce).value;
    DecodeEncoded(c, salt, 16, "Invalid salt length");
    DecodeEncoded(c, nonce, 12, "Invalid nonce length");
    var key := DeriveKey(c, masterPassword, salt).value;
    var ciphertext := c.encrypt(key, nonce, c.serialize(EmptyVault)).value;
    assert f.ciphertextB64 == c.b64Encode(ciphertext);
    assert DecodeB64Any(c, f.ciphertextB64) == Success(ciphertext);
  }

  /** `encrypt_and_save_vault` short of writing: the contents encrypted
      again under a new nonce, the flags recomputed, the rest kept. */
  function SealedFile(c: Crypto, file: VaultFile, plain: PlainVault, masterPassword: string, nonce: Bytes): (r: Result<VaultFile>)
    ensures !PasswordMatches(c, file, masterPassword) ==> r.Failure?
    ensures (DecodeSalt(c, file.kdfSaltB64).Success?
             && DeriveKey(c, masterPassword, DecodeSalt(c, file.kdfSaltB64).value).Success?
             && !PasswordMatches(c, file, masterPassword)) ==> r == Failure(InvalidPassword)
    ensures r.Success? ==> forall p :: Configured(r.value, p) == CredentialsOf(plain, p).Some?
    ensures r.Success? ==> r.value.version == file.version && r.value.kdfSaltB64 == file.kdfSaltB64
                           && r.value.keyCheckB64 == file.keyCheckB64 && r.value.nonceB64 == c.b64Encode(nonce)
  {
    var salt := DecodeSalt(c, file.kdfSaltB64);
    if salt.Failure? then Failure(salt.error)
    else
      var key := DeriveKey(c, masterPassword, salt.value);
      if key.Failure? then Failure(key.error)
      else if KeyCheck(c, key.value) != file.keyCheckB64 then Failure(InvalidPassword)
      else
        match c.encrypt(key.value, nonce, c.serialize(plain))
        case Failure(e) => Failure(AppError("crypto_error", e.message))
        case Success(ciphertext) =>
          Success(file.(cloudflareConfigured := plain.cloudflare.Some?,
                        dnspodConfigured := plain.dnspod.Some?,
                        aliyunConfigured := plain.aliyun.Some?,
                        huaweiConfigured := plain.huawei.Some?,
                        baiduConfigured := plain.baidu.Some?,
                        dnscomConfigured := plain.dnscom.Some?,
                        rainyunConfigured := plain.rainyun.Some?,
                        tencentcloudConfigured := plain.tencentcloud.Some?,
                        nonceB64 := c.b64Encode(nonce),
                        ciphertextB64 := c.b64Encode(ciphertext)))
  }

  /** Saving the contents and opening the file again with the same password
      gives back exactly those contents. */
  lemma SealThenDecrypt(c: Crypto, file: VaultFile, plain: PlainVault, masterPassword: string, nonce: Bytes)
    requires Lawful(c) && |nonce| == 12 && file.version == VaultVersion
    requires SealedFile(c, file, plain, masterPassword, nonce).Success?
    ensures var f := SealedFile(c, file, plain, masterPassword, nonce).value;
            DecryptVault(c, Some(f), masterPassword) == Success((f, plain))
  {
    var f := SealedFile(c, file, plain, masterPassword, nonce).value;
    var key := DeriveKey(c, masterPassword, DecodeSalt(c, file.kdfSaltB64).value).value;
    var ciphertext := c.encrypt(key, nonce, c.serialize(plain)).value;
    assert f.ciphertextB64 == c.b64Encode(ciphertext);
    DecodeEncoded(c, nonce, 12, "Invalid nonce length");
    assert DecodeB64Any(c, f.ciphertextB64) == Success(ciphertext);
  }

  // ---------------------------------------------------------------------
  // The store

  /** The vault file on disk; None while no vault exists. */
  class VaultStore {
    var disk: Option<VaultFile>

    constructor(disk: Option<VaultFile>)
      ensures this.disk == disk
    {
      this.disk := disk;
    }

    /** `initialize_vault`: refuses when a vault exists and leaves it as it
        is; otherwise writes a fresh file. */
    method Initialize(c: Crypto, masterPassword: string, salt: Bytes, nonce: Bytes) returns (r: Result<()>)
      requires |salt| == 16 && |nonce| == 12
      modifies this
      ensures old(disk).Some? ==> r == Failure(AppError("already_initialized", "Vault already exists")) && disk == old(disk)
      ensures old(disk).None? && NewVaultFile(c, masterPassword, salt, nonce).Success? ==>
                r == Success(()) && disk == Some(NewVaultFile(c, masterPassword, salt, nonce).value)
      ensures old(disk).None? && NewVaultFile(c, masterPassword, salt, nonce).Failure? ==>
                r == Failure(NewVaultFile(c, masterPassword, salt, nonce).error) && disk == old(disk)
    {
      if disk.Some? {
        return Failure(AppError("already_initialized", "Vault already exists"));
      }
      var file := NewVaultFile(c, masterPassword, salt, nonce);
      if file.Failure? {
        return Failure(file.error);
      }
      disk := Some(file.value);
      r := Success(());
    }

    /** `decrypt_vault`: reads the file and opens it; nothing changes. */
    method Decrypt(c: Crypto, masterPassword: string) returns (r: Result<(VaultFile, PlainVault)>)
      ensures r == DecryptVault(c, disk, masterPassword)
    {
      r := DecryptVault(c, disk, masterPassword);
    }

    /** `encrypt_and_save_vault`: checks the password against the file it
        is given, encrypts the contents under a new nonce, updates that
        file's flags, nonce and ciphertext, and writes it. On any failure
        nothing is written. */
    method EncryptAndSave(c: Crypto, file: VaultFile, plain: PlainVault, masterPassword: string, nonce: Bytes)
      returns (r: Result<()>)
      requires |nonce| == 12
      modifies this
      ensures SealedFile(c, file, plain, masterPassword, nonce).Success? ==>
                r == Success(()) && disk == Some(SealedFile(c, file, plain, masterPassword, nonce).value)
      ensures SealedFile(c, file, plain, masterPassword, nonce).Failure? ==>
                r == Failure(SealedFile(c, file, plain, masterPassword, nonce).error) && disk == old(disk)
    {
      var salt := DecodeSalt(c, file.kdfSaltB64);
      if salt.Failure? {
        return Failure(salt.error);
      }
      var key := DeriveKey(c, masterPassword, salt.value);
      if key.Failure? {
        return Failure(key.error);
      }
      if KeyCheck(c, key.value) != file.keyCheckB64 {
        return Failure(InvalidPassword);
      }
      var plaintext := c.serialize(plain);
      var ciphertext := c.encrypt(key.value, nonce, plaintext);
      if ciphertext.Failure? {
        return Failure(AppError("crypto_error", ciphertext.error.message));
      }
      var updated := file;
      updated := updated.(cloudflareConfigured := plain.cloudflare.Some?);
      updated := updated.(dnspodConfigured := plain.dnspod.Some?);
      updated := updated.(aliyunConfigured := plain.aliyun.Some?);
      updated := updated.(huaweiConfigured := plain.huawei.Some?);
      updated := updated.(baiduConfigured := plain.baidu.Some?);
      updated := updated.(dnscomConfigured := plain.dnscom.Some?);
      updated := updated.(rainyunConfigured := plain.rainyun.Some?);
      updated := updated.(tencentcloudConfigured := plain.tencentcloud.Some?);
      updated := updated.(nonceB64 := c.b64Encode(nonce));
      updated := updated.(ciphertextB64 := c.b64Encode(ciphertext.value));
      disk := Some(updated);
      r := Success(());
    }
  }
}
