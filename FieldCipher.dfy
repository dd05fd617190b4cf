/**
 * Control logic of the server's field cipher (server/encryption.ts): key
 * selection, the 32-byte XOR-fold context key, the version/salt dispatch on
 * decryption, and null handling in the field helpers.
 *
 * AES-256-CBC (section 6.2 of NIST SP 800-38A) is modelled symbolically: a
 * ciphertext records the key, IV and plaintext it was made from, and
 * deciphering succeeds exactly under the same key and IV, which makes the
 * decrypt-after-encrypt round trip a theorem. PBKDF2 (section 5.2 of
 * RFC 8018) and SHA-256 (applied to a context string) are parameters
 * returning 32-byte strings. Text is
 * held as its UTF-8 bytes and hex encoding is the identity.
 */
module FieldCipher {
  import opened Common

  const Algorithm: string := "aes-256-cbc"
  const KeyLength: nat := 32
  const IvLength: nat := 16
  const EncryptionVersion: string := "2.0"
  const Pbkdf2Iterations: nat := 10000

  type Key32 = s: seq<byte> | |s| == 32 witness seq(32, _ => 0)
  type Block16 = s: seq<byte> | |s| == 16 witness seq(16, _ => 0)

  /** The process environment and the foreign primitives. `envKey` is the
      hex-decoded ENCRYPTION_KEY, None when unset or empty. */
  datatype Primitives = Primitives(
    envKey: Option<seq<byte>>,
    pbkdf2: (seq<byte>, seq<byte>, nat) -> Key32,
    sha256: string -> Key32)

  /** A symbolic AES-256-CBC ciphertext. */
  datatype Ciphertext = Sealed(key: seq<byte>, iv: seq<byte>, plain: seq<byte>)

  datatype CipherError =
    | KeyNotSet               // "ENCRYPTION_KEY environment variable not set"
    | InvalidKeyLength        // createCipheriv/createDecipheriv refuse the key
    | InvalidIvLength
    | SaltMissing             // Buffer.from(undefined, 'hex') throws
    | BadDecrypt              // wrong key or IV: the padding check fails

  function AesEncrypt(key: seq<byte>, iv: seq<byte>, plain: seq<byte>): Result<Ciphertext, CipherError>
  {
    if |key| != KeyLength then Err(InvalidKeyLength)
    else if |iv| != IvLength then Err(InvalidIvLength)
    else Ok(Sealed(key, iv, plain))
  }

  function AesDecrypt(key: seq<byte>, iv: seq<byte>, c: Ciphertext): Result<seq<byte>, CipherError>
  {
    if |key| != KeyLength then Err(InvalidKeyLength)
    else if |iv| != IvLength then Err(InvalidIvLength)
    else if c.key != key || c.iv != iv then Err(BadDecrypt)
    else Ok(c.plain)
  }

  /** The AES round trip the rest of the model relies on. */
  lemma AesRoundTrip(key: seq<byte>, iv: seq<byte>, plain: seq<byte>)
    requires AesEncrypt(key, iv, plain).Ok?
    ensures AesDecrypt(key, iv, AesEncrypt(key, iv, plain).value) == Ok(plain)
  {
  }

  datatype EncryptedData = EncryptedData(
    encryptedData: Ciphertext, iv: seq<byte>, tag: string,
    salt: Option<seq<byte>>, algorithm: string, version: string)

  datatype Metadata = Metadata(context: string, dataType: string)

  // ---------------------------------------------------------------------
  // Keys (server/encryption.ts:25-57).

  /** Any Buffer passed as salt is truthy, even an empty one. */
  function GetEncryptionKey(p: Primitives, salt: Option<seq<byte>>): (r: Result<seq<byte>, CipherError>)
  {
    if p.envKey.None? then Err(KeyNotSet)
    else if salt.Some? then Ok(p.pbkdf2(p.envKey.value, salt.value, Pbkdf2Iterations))
    else Ok(Take(p.envKey.value, KeyLength))
  }

  /** Unset key fails; with a salt the key is PBKDF2(base, salt, 10000, 32);
      without one it is the first 32 bytes of the base key (fewer when the
      base key is shorter). */
  lemma GetEncryptionKeySpec(p: Primitives, salt: Option<seq<byte>>)
    ensures GetEncryptionKey(p, salt).Err? <==> p.envKey.None?
    ensures p.envKey.Some? && salt.Some? ==>
              GetEncryptionKey(p, salt).value == p.pbkdf2(p.envKey.value, salt.value, 10000)
              && |GetEncryptionKey(p, salt).value| == 32
    ensures p.envKey.Some? && salt.None? ==>
              var k := GetEncryptionKey(p, salt).value;
              IsBytePrefix(k, p.envKey.value) && (|k| == 32 || k == p.envKey.value)
  {
  }

  predicate IsBytePrefix(p: seq<byte>, s: seq<byte>) { |p| <= |s| && s[..|p|] == p }

  /** Byte i of the context key: `baseKey[i] ^ hash[i % 32]`, where a
      missing base byte reads as undefined and XORs as 0; i < 32 here, so
      `i % 32` is i. */
  function FoldByte(base: seq<byte>, hash: Key32, i: nat): byte
    requires i < KeyLength
  {
    if i < |base| then base[i] ^ hash[i] else hash[i]
  }

  function XorFold(base: seq<byte>, hash: Key32): (k: Key32)
  {
    seq(KeyLength, i requires 0 <= i < KeyLength => FoldByte(base, hash, i))
  }

  /** The loop of deriveKeyForContext over a zeroed 32-byte buffer. */
  method FillContextKey(base: seq<byte>, hash: Key32) returns (finalKey: array<byte>)
    ensures finalKey.Length == KeyLength
    ensures finalKey[..] == XorFold(base, hash)
  {
    finalKey := new byte[KeyLength](_ => 0);
    var i := 0;
    while i < KeyLength
      invariant 0 <= i <= KeyLength
      invariant forall j :: 0 <= j < i ==> finalKey[j] == FoldByte(base, hash, j)
    {
      finalKey[i] := if i < |base| then base[i] ^ hash[i] else hash[i];
      i := i + 1;
    }
  }

  /** XOR-ing twice with the same hash gives back the base key's first 32
      bytes, zero-padded when the base key is shorter: the fold loses
      nothing of the key it starts from. */
  lemma XorFoldInvolution(base: seq<byte>, hash: Key32)
    ensures forall i :: 0 <= i < 32 ==>
              XorFold(XorFold(base, hash), hash)[i] == (if i < |base| then base[i] else 0)
  {
    forall i | 0 <= i < 32
      ensures XorFold(XorFold(base, hash), hash)[i] == (if i < |base| then base[i] else 0)
    {
      FoldTwice(base, hash, i);
    }
  }

  lemma FoldTwice(base: seq<byte>, hash: Key32, i: nat)
    requires i < 32
    ensures XorFold(XorFold(base, hash), hash)[i] == (if i < |base| then base[i] else 0)
  {
    var once := XorFold(base, hash);
    var twice := XorFold(once, hash);
    var h := hash[i];
    FoldAt(once, hash, i);
    FoldAt(base, hash, i);
    if i < |base| {
      XorCancels(base[i], h);
    } else {
      XorSelfZero(h);
    }
  }

  lemma FoldAt(base: seq<byte>, hash: Key32, i: nat)
    requires i < 32
    ensures XorFold(base, hash)[i] == FoldByte(base, hash, i)
  {
  }

  lemma XorCancels(a: byte, b: byte) ensures (a ^ b) ^ b == a {}
  lemma XorSelfZero(a: byte) ensures a ^ a == 0 {}

  /** deriveKeyForContext: the salt argument is accepted and ignored. */
  function DeriveKeyForContext(p: Primitives, context: string, salt: Option<seq<byte>>): Result<Key32, CipherError>
  {
    var base := GetEncryptionKey(p, None);
    if base.Err? then Err(base.error)
    else Ok(XorFold(base.value, p.sha256(context)))
  }

  /** Text as its bytes: one byte per character below U+0080, which covers
      the constant test string of the self-test. */
  function Utf8(s: string): seq<byte>
    requires forall i :: 0 <= i < |s| ==> s[i] as int < 128
  {
    seq(|s|, i requires 0 <= i < |s| => s[i] as int as bv8)
  }

  /** The context key is 32 bytes with byte i = base[i] XOR SHA256(context)[i mod 32],
      and the salt plays no part. */
  lemma DeriveKeySpec(p: Primitives, context: string, s1: Option<seq<byte>>, s2: Option<seq<byte>>)
    ensures DeriveKeyForContext(p, context, s1) == DeriveKeyForContext(p, context, s2)
    ensures DeriveKeyForContext(p, context, s1).Ok? <==> p.envKey.Some?
    ensures p.envKey.Some? ==>
              var k := DeriveKeyForContext(p, context, s1).value;
              var base := p.envKey.value;
              var h := p.sha256(context);
              forall i :: 0 <= i < 32 ==> k[i] == (if i < |base| then base[i] ^ h[i] else h[i])
  {
  }

  // ---------------------------------------------------------------------
  // Encryption and decryption (server/encryption.ts:60-160).

  /** encryptSensitiveData: metadata is ignored, the base key is used as is,
      and no salt is recorded. `iv` is the fresh randomBytes(16). */
  function EncryptSensitiveData(p: Primitives, data: seq<byte>, metadata: Option<Metadata>,
                                iv: Block16): Result<EncryptedData, CipherError>
  {
    var key := GetEncryptionKey(p, None);
    if key.Err? then Err(key.error)
    else
      var c := AesEncrypt(key.value, iv, data);
      if c.Err? then Err(c.error)
      else Ok(EncryptedData(c.value, iv, "", None, Algorithm, EncryptionVersion))
  }

  /** encryptLegacyData: a fresh salt, the PBKDF2 key, and the salt recorded. */
  function EncryptLegacyData(p: Primitives, data: seq<byte>, salt: Block16, iv: Block16)
    : Result<EncryptedData, CipherError>
  {
    var key := GetEncryptionKey(p, Some(salt));
    if key.Err? then Err(key.error)
    else
      var c := AesEncrypt(key.value, iv, data);
      if c.Err? then Err(c.error)
      else Ok(EncryptedData(c.value, iv, "", Some(salt), Algorithm, EncryptionVersion))
  }

  function DecryptLegacyData(p: Primitives, e: EncryptedData): Result<seq<byte>, CipherError>
  {
    if e.salt.None? then Err(SaltMissing)
    else
      var key := GetEncryptionKey(p, Some(e.salt.value));
      if key.Err? then Err(key.error) else AesDecrypt(key.value, e.iv, e.encryptedData)
  }

  /** Legacy path iff the version is empty; otherwise the salt is decoded
      first, then the context key (with metadata) or the PBKDF2 key. */
  function DecryptSensitiveData(p: Primitives, e: EncryptedData, metadata: Option<Metadata>)
    : Result<seq<byte>, CipherError>
  {
    if e.version == "" then DecryptLegacyData(p, e)
    else if e.salt.None? then Err(SaltMissing)
    else
      var key := if metadata.Some?
                 then DeriveKeyForContext(p, metadata.value.context, e.salt)
                 else GetEncryptionKey(p, e.salt);
      if key.Err? then Err(key.error) else AesDecrypt(key.value, e.iv, e.encryptedData)
  }

  function EncryptDocument(p: Primitives, document: seq<byte>, salt: Block16, iv: Block16)
    : Result<EncryptedData, CipherError>
  {
    EncryptLegacyData(p, document, salt, iv)
  }

  function DecryptDocument(p: Primitives, e: EncryptedData): Result<seq<byte>, CipherError>
  {
    DecryptLegacyData(p, e)
  }

  /** Without metadata, decryptSensitiveData inverts encryptLegacyData: both
      sides use PBKDF2 over the stored salt. */
  lemma LegacyRoundTrip(p: Primitives, data: seq<byte>, salt: Block16, iv: Block16)
    requires p.envKey.Some?
    ensures EncryptLegacyData(p, data, salt, iv).Ok?
    ensures DecryptSensitiveData(p, EncryptLegacyData(p, data, salt, iv).value, None) == Ok(data)
  {
  }

  /** decryptDocument(encryptDocument(b)) == b for every byte string. */
  lemma DocumentRoundTrip(p: Primitives, document: seq<byte>, salt: Block16, iv: Block16)
    requires p.envKey.Some?
    ensures EncryptDocument(p, document, salt, iv).Ok?
    ensures DecryptDocument(p, EncryptDocument(p, document, salt, iv).value) == Ok(document)
  {
  }

  /** What encryptSensitiveData emits: version "2.0", algorithm
      "aes-256-cbc", empty tag, no salt, the fresh IV, and a ciphertext under
      the base key; metadata makes no difference. */
  lemma SensitivePayloadShape(p: Primitives, data: seq<byte>, m1: Option<Metadata>, m2: Option<Metadata>,
                              iv: Block16)
    ensures EncryptSensitiveData(p, data, m1, iv) == EncryptSensitiveData(p, data, m2, iv)
    ensures var r := EncryptSensitiveData(p, data, m1, iv);
            r.Ok? ==> r.value.version == "2.0" && r.value.algorithm == "aes-256-cbc"
                      && r.value.tag == "" && r.value.salt.None? && r.value.iv == iv
                      && r.value.encryptedData == Sealed(Take(p.envKey.value, 32), iv, data)
    ensures EncryptSensitiveData(p, data, m1, iv).Ok? <==> p.envKey.Some? && |p.envKey.value| >= 32
  {
  }

  // ---------------------------------------------------------------------
  // Field helpers and the self-test (server/encryption.ts:172-212).

  const FieldMetadata: Metadata := Metadata("field-encryption", "settings")

  /** A stored field: the JSON text of a payload, or text that is not one. */
  datatype FieldText = Serialized(payload: EncryptedData) | NotAPayload(text: string)

  /** encryptField; None is null or the empty string. Errors propagate. */
  function EncryptField(p: Primitives, value: Option<seq<byte>>, iv: Block16)
    : Result<Option<FieldText>, CipherError>
  {
    if value.None? || value.value == [] then Ok(None)
    else
      var e := EncryptSensitiveData(p, value.value, Some(FieldMetadata), iv);
      if e.Err? then Err(e.error) else Ok(Some(Serialized(e.value)))
  }

  /** decryptField: null or empty gives null, and so does every failure. */
  function DecryptField(p: Primitives, value: Option<FieldText>): Option<seq<byte>>
  {
    if value.None? then None
    else match value.value
      case NotAPayload(_) => None
      case Serialized(e) =>
        var d := DecryptSensitiveData(p, e, Some(FieldMetadata));
        if d.Ok? then Some(d.value) else None
  }

  lemma FieldNullHandling(p: Primitives, iv: Block16, text: string)
    ensures EncryptField(p, None, iv) == Ok(None) && EncryptField(p, Some([]), iv) == Ok(None)
    ensures DecryptField(p, None) == None && DecryptField(p, Some(NotAPayload(text))) == None
  {
  }

  const TestData: string := "test-encryption-validation"

  function ValidateEncryptionSetup(p: Primitives, iv: Block16): bool
  {
    var e := EncryptSensitiveData(p, Utf8(TestData), None, iv);
    if e.Err? then false
    else
      var d := DecryptSensitiveData(p, e.value, None);
      d.Ok? && d.value == Utf8(TestData)
  }

  /** The defect as written: every payload of encryptSensitiveData lacks a
      salt, so its versioned decryption fails on `salt!` with or without
      metadata. Hence the self-test is false for every environment and IV,
      and a non-empty field never decrypts back. */
  lemma SensitivePayloadNeverDecrypts(p: Primitives, data: seq<byte>, m: Option<Metadata>,
                                      dm: Option<Metadata>, iv: Block16)
    requires EncryptSensitiveData(p, data, m, iv).Ok?
    ensures DecryptSensitiveData(p, EncryptSensitiveData(p, data, m, iv).value, dm) == Err(SaltMissing)
  {
  }

  lemma ValidateEncryptionSetupAlwaysFails(p: Primitives, iv: Block16)
    ensures !ValidateEncryptionSetup(p, iv)
  {
    var e := EncryptSensitiveData(p, Utf8(TestData), None, iv);
    if e.Ok? {
      SensitivePayloadNeverDecrypts(p, Utf8(TestData), None, None, iv);
    }
  }

  lemma FieldRoundTripFails(p: Primitives, value: seq<byte>, iv: Block16)
    requires value != [] && EncryptField(p, Some(value), iv).Ok?
    ensures EncryptField(p, Some(value), iv).value.Some?
    ensures DecryptField(p, EncryptField(p, Some(value), iv).value) == None
  {
    SensitivePayloadNeverDecrypts(p, value, Some(FieldMetadata), Some(FieldMetadata), iv);
  }

  // ---------------------------------------------------------------------
  // The evidently intended behaviour: encryptSensitiveData records a fresh
  // salt and enciphers under the key its decryption will choose.

  function EncryptSensitiveDataSalted(p: Primitives, data: seq<byte>, metadata: Option<Metadata>,
                                      salt: Block16, iv: Block16): Result<EncryptedData, CipherError>
  {
    var key := if metadata.Some?
               then DeriveKeyForContext(p, metadata.value.context, Some(salt))
               else GetEncryptionKey(p, Some(salt));
    if key.Err? then Err(key.error)
    else
      var c := AesEncrypt(key.value, iv, data);
      if c.Err? then Err(c.error)
      else Ok(EncryptedData(c.value, iv, "", Some(salt), Algorithm, EncryptionVersion))
  }

  /** With the salt recorded, decryption with the same metadata (or none)
      inverts encryption whenever the key is set. */
  lemma SaltedRoundTrip(p: Primitives, data: seq<byte>, metadata: Option<Metadata>, salt: Block16, iv: Block16)
    requires p.envKey.Some?
    ensures EncryptSensitiveDataSalted(p, data, metadata, salt, iv).Ok?
    ensures DecryptSensitiveData(p, EncryptSensitiveDataSalted(p, data, metadata, salt, iv).value, metadata)
            == Ok(data)
  {
  }

  function EncryptFieldSalted(p: Primitives, value: Option<seq<byte>>, salt: Block16, iv: Block16)
    : Result<Option<FieldText>, CipherError>
  {
    if value.None? || value.value == [] then Ok(None)
    else
      var e := EncryptSensitiveDataSalted(p, value.value, Some(FieldMetadata), salt, iv);
      if e.Err? then Err(e.error) else Ok(Some(Serialized(e.value)))
  }

  function ValidateEncryptionSetupSalted(p: Primitives, salt: Block16, iv: Block16): bool
  {
    var e := EncryptSensitiveDataSalted(p, Utf8(TestData), None, salt, iv);
    if e.Err? then false
    else
      var d := DecryptSensitiveData(p, e.value, None);
      d.Ok? && d.value == Utf8(TestData)
  }

  /** With the salt recorded, the self-test passes exactly when the key is
      set, and every non-empty field decrypts back to itself. */
  lemma SaltedFieldRoundTrip(p: Primitives, value: seq<byte>, salt: Block16, iv: Block16)
    requires p.envKey.Some? && value != []
    ensures EncryptFieldSalted(p, Some(value), salt, iv).Ok?
    ensures DecryptField(p, EncryptFieldSalted(p, Some(value), salt, iv).value) == Some(value)
  {
    SaltedRoundTrip(p, value, Some(FieldMetadata), salt, iv);
  }

  lemma SaltedSelfTest(p: Primitives, salt: Block16, iv: Block16)
    ensures ValidateEncryptionSetupSalted(p, salt, iv) <==> p.envKey.Some?
  {
    if p.envKey.Some? {
      SaltedRoundTrip(p, Utf8(TestData), None, salt, iv);
    }
  }
}
