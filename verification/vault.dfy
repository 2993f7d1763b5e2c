/** packages/daemon/src/fs/vault.js: the vault file, a JSON payload sealed
    with a key derived from the user's password, and the metadata that
    records how to derive it again.

    Key derivation (Argon2id), the secret box, base64 and JSON are symbolic:
    a derived key records everything it was derived from, a sealed box
    records its key and plaintext, so a box opens with the key that sealed
    it and with no other. */
module Vault {
  import opened Js

  type byte = bv8

  /** libsodium's `crypto_pwhash` constants. */
  const ALG_ARGON2ID13 := 2
  const MEMLIMIT_SENSITIVE := 1073741824
  const OPSLIMIT_SENSITIVE := 4

  const VAULT_FORMAT_VERSION := 1

  /** A base64 string, known by the bytes it encodes. */
  datatype Base64 = Base64(decoded: seq<byte>)

  function EncodeBase64(bytes: seq<byte>): (r: Base64)
    ensures DecodeBase64(r) == bytes
  {
    Base64(bytes)
  }

  function DecodeBase64(s: Base64): seq<byte> {
    s.decoded
  }

  /** `createSecretBoxKeyFromPassword(password, salt, opslimit, memlimit, algorithm)`. */
  datatype Key = DerivedKey(password: seq<byte>, salt: seq<byte>, opslimit: int, memlimit: int, algorithm: int)

  /** A secret box: the payload, sealed with `key`. */
  datatype SealedBox = SealedBox(key: Key, plaintext: JsValue)

  function Seal(key: Key, plaintext: JsValue): SealedBox {
    SealedBox(key, plaintext)
  }

  function OpenBox(key: Key, box: SealedBox): (r: Option<JsValue>)
    ensures r.Some? <==> key == box.key
    ensures r.Some? ==> r.value == box.plaintext
  {
    if key == box.key then Some(box.plaintext) else None
  }

  datatype VaultKDF = VaultKDF(algorithm: int, memlimit: int, opslimit: int, salt: Base64)

  /** The key the recorded parameters give for `password`. */
  function KeyFromKdf(password: seq<byte>, kdf: VaultKDF): Key {
    DerivedKey(password, DecodeBase64(kdf.salt), kdf.opslimit, kdf.memlimit, kdf.algorithm)
  }

  datatype VaultKeyParams = VaultKeyParams(key: Key, kdf: VaultKDF)

  /** The KDF fields a caller may override; an absent field keeps its default. */
  datatype KdfOptions = KdfOptions(algorithm: Option<int>, memlimit: Option<int>, opslimit: Option<int>)

  const NoOptions := KdfOptions(None, None, None)

  function OptionOr(o: Option<int>, default: int): int {
    if o.Some? then o.value else default
  }

  /** `createVaultKeyParams(password, options)`; `salt` is the freshly
      generated salt. */
  function CreateVaultKeyParams(password: seq<byte>, options: KdfOptions, salt: seq<byte>): (r: VaultKeyParams)
    ensures r.kdf.algorithm == OptionOr(options.algorithm, ALG_ARGON2ID13)
    ensures r.kdf.memlimit == OptionOr(options.memlimit, MEMLIMIT_SENSITIVE)
    ensures r.kdf.opslimit == OptionOr(options.opslimit, OPSLIMIT_SENSITIVE)
    ensures DecodeBase64(r.kdf.salt) == salt
    ensures r.key == KeyFromKdf(password, r.kdf)
  {
    var kdf := VaultKDF(
      OptionOr(options.algorithm, ALG_ARGON2ID13),
      OptionOr(options.memlimit, MEMLIMIT_SENSITIVE),
      OptionOr(options.opslimit, OPSLIMIT_SENSITIVE),
      EncodeBase64(salt));
    VaultKeyParams(DerivedKey(password, salt, kdf.opslimit, kdf.memlimit, kdf.algorithm), kdf)
  }

  /** Without options, the sensitive Argon2id13 presets. */
  lemma DefaultKdf(password: seq<byte>, salt: seq<byte>)
    ensures var kdf := CreateVaultKeyParams(password, NoOptions, salt).kdf;
      kdf == VaultKDF(ALG_ARGON2ID13, MEMLIMIT_SENSITIVE, OPSLIMIT_SENSITIVE, EncodeBase64(salt))
  {
  }

  /** The metadata as read back from a file: any `version`, maybe no `kdf`. */
  datatype Metadata = Metadata(version: JsValue, kdf: Option<VaultKDF>)

  /** A file as `writeEncryptedFile` leaves it: plain metadata, sealed body. */
  datatype EncryptedFile = EncryptedFile(meta: Option<Metadata>, box: SealedBox)

  /** The file `write(data)` produces. */
  function WrittenFile(keyParams: VaultKeyParams, data: JsValue): (r: EncryptedFile)
    ensures r.meta == Some(Metadata(Num(VAULT_FORMAT_VERSION), Some(keyParams.kdf)))
    ensures OpenBox(keyParams.key, r.box) == Some(data)
  {
    EncryptedFile(Some(Metadata(Num(VAULT_FORMAT_VERSION), Some(keyParams.kdf))), Seal(keyParams.key, data))
  }

  /** The file system, by path. */
  class FileSystem {
    var files: map<string, EncryptedFile>

    constructor()
      ensures files == map[]
    {
      files := map[];
    }
  }

  class VaultFile {
    const path: string
    const keyParams: VaultKeyParams

    constructor(path: string, keyParams: VaultKeyParams)
      ensures this.path == path && this.keyParams == keyParams
    {
      this.path := path;
      this.keyParams := keyParams;
    }

    /** `write(data)`: replaces the file at `path`. `data` is a default
        parameter: omitted or `undefined`, it is `{}`. */
    method Write(fs: FileSystem, data: JsValue)
      modifies fs
      ensures fs.files == old(fs.files)[path := WrittenFile(keyParams, if data == Undefined then Obj(map[]) else data)]
    {
      var payload := FieldOr(data, Obj(map[]));
      fs.files := fs.files[path := WrittenFile(keyParams, payload)];
    }
  }

  /** `createVaultFile(path, password, options)`: a new vault holding `{}`. */
  method CreateVaultFile(fs: FileSystem, path: string, password: seq<byte>, options: KdfOptions, salt: seq<byte>)
    returns (vault: VaultFile)
    modifies fs
    ensures fresh(vault)
    ensures vault.path == path && vault.keyParams == CreateVaultKeyParams(password, options, salt)
    ensures fs.files == old(fs.files)[path := WrittenFile(vault.keyParams, Obj(map[]))]
  {
    var keyParams := CreateVaultKeyParams(password, options, salt);
    vault := new VaultFile(path, keyParams);
    vault.Write(fs, Undefined);
  }

  datatype VaultError =
    | FileNotFound
    | MissingMetadata
    | InvalidVersion
    | MissingKdf
    | InvalidPassword
    | InvalidFile

  function ErrorMessage(e: VaultError): string {
    match e
    case FileNotFound => "ENOENT"
    case MissingMetadata => "Missing metadata"
    case InvalidVersion => "Invalid vault format version"
    case MissingKdf => "Missing KDF parameters in metadata"
    case InvalidPassword => "Invalid password"
    case InvalidFile => "Invalid file"
  }

  /** What a successful open yields: the payload, and the key parameters
      the returned vault handle writes with. */
  datatype Opened = Opened(data: JsValue, keyParams: VaultKeyParams)

  /** `openVaultFile` on the contents of a file: the metadata checks, in
      order, then the key derived from the recorded KDF parameters. */
  function OpenVaultFile(file: EncryptedFile, password: seq<byte>): (r: Result<Opened, VaultError>)
    ensures file.meta.None? ==> r == Failure(MissingMetadata)
    ensures file.meta.Some? && file.meta.value.version != Num(VAULT_FORMAT_VERSION) ==> r == Failure(InvalidVersion)
    ensures file.meta.Some? && file.meta.value.version == Num(VAULT_FORMAT_VERSION) && file.meta.value.kdf.None? ==>
      r == Failure(MissingKdf)
    ensures file.meta.Some? && file.meta.value.version == Num(VAULT_FORMAT_VERSION) && file.meta.value.kdf.Some? ==>
      var kdf := file.meta.value.kdf.value;
      && (r.Failure? <==> OpenBox(KeyFromKdf(password, kdf), file.box).None?)
      && (r.Failure? ==> r.error == InvalidPassword)
      && (r.Success? ==> r.value == Opened(file.box.plaintext, VaultKeyParams(KeyFromKdf(password, kdf), kdf)))
  {
    if file.meta.None? then Failure(MissingMetadata)
    else if file.meta.value.version != Num(VAULT_FORMAT_VERSION) then Failure(InvalidVersion)
    else if file.meta.value.kdf.None? then Failure(MissingKdf)
    else
      var kdf := file.meta.value.kdf.value;
      var key := KeyFromKdf(password, kdf);
      match OpenBox(key, file.box)
      case None => Failure(InvalidPassword)
      case Some(data) => Success(Opened(data, VaultKeyParams(key, kdf)))
  }

  /** `openVaultFile(path, password)`. */
  method Open(fs: FileSystem, path: string, password: seq<byte>) returns (r: Result<(JsValue, VaultFile), VaultError>)
    ensures path !in fs.files ==> r == Failure(FileNotFound)
    ensures path in fs.files ==>
      && (r.Success? <==> OpenVaultFile(fs.files[path], password).Success?)
      && (r.Failure? ==> r.error == OpenVaultFile(fs.files[path], password).error)
      && (r.Success? ==>
            && fresh(r.value.1) && r.value.1.path == path
            && Opened(r.value.0, r.value.1.keyParams) == OpenVaultFile(fs.files[path], password).value)
  {
    if path !in fs.files {
      return Failure(FileNotFound);
    }
    var contents :- OpenVaultFile(fs.files[path], password);
    var vault := new VaultFile(path, contents.keyParams);
    r := Success((contents.data, vault));
  }

  /** The key `createVaultKeyParams` returns is the one an open derives
      again from the recorded parameters. */
  lemma KeyRederived(password: seq<byte>, options: KdfOptions, salt: seq<byte>)
    ensures var kp := CreateVaultKeyParams(password, options, salt);
      KeyFromKdf(password, kp.kdf) == kp.key
  {
  }

  /** Round trip: a file written with key parameters created from a
      password opens with that password to the written payload and the
      same parameters. */
  lemma WriteOpenRoundTrip(password: seq<byte>, options: KdfOptions, salt: seq<byte>, data: JsValue)
    ensures var kp := CreateVaultKeyParams(password, options, salt);
      OpenVaultFile(WrittenFile(kp, data), password) == Success(Opened(data, kp))
  {
  }

  /** Any other password is refused. */
  lemma WrongPasswordRefused(password: seq<byte>, other: seq<byte>, options: KdfOptions, salt: seq<byte>, data: JsValue)
    requires other != password
    ensures var kp := CreateVaultKeyParams(password, options, salt);
      OpenVaultFile(WrittenFile(kp, data), other) == Failure(InvalidPassword)
  {
  }

  /** A reopened vault writes with the parameters it was opened with: the
      metadata of the file stays as it was. */
  lemma ReopenKeepsKdf(file: EncryptedFile, password: seq<byte>, data: JsValue)
    requires OpenVaultFile(file, password).Success?
    ensures WrittenFile(OpenVaultFile(file, password).value.keyParams, data).meta == file.meta
  {
  }

  /** "Invalid file" cannot happen: the key parameters are always set
      before the body is opened. */
  lemma NeverInvalidFile(file: EncryptedFile, password: seq<byte>)
    ensures OpenVaultFile(file, password) != Failure(InvalidFile)
  {
  }
}
