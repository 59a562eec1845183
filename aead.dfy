/**
 * The ChaCha20-Poly1305 record protection of the example crypto provider:
 * the algorithm descriptors, and the two record ciphers, `Tls13Cipher`
 * (TLSInnerPlaintext framing, section 5.2 of RFC 8446) and `Tls12Cipher`
 * (explicit-header framing, section 6.2.3.3 of RFC 5246 and RFC 7905).
 *
 * Each cipher operation is a method that builds and transforms the record
 * buffer step by step, specified by a function of the same name below; the
 * lemmas at the end relate encryption and decryption.
 */
module Aead {
  import opened Bytes
  import opened Wrappers
  import opened Messages
  import opened ChaChaAead
  import Nonce
  import opened Aad
  import opened Unpadding

  /** `CHACHAPOLY1305_OVERHEAD`: the Poly1305 tag, and no explicit nonce. */
  const ChaChaPoly1305Overhead: nat := 16

  // ---------------------------------------------------------------------
  // Algorithm descriptors
  // ---------------------------------------------------------------------

  /** How a TLS 1.2 key block is cut into per-direction key material. */
  datatype KeyBlockShape = KeyBlockShape(encKeyLen: nat, fixedIvLen: nat, explicitNonceLen: nat)

  /** Raw traffic secrets exported for key logging or kernel offload. */
  datatype ConnectionTrafficSecrets =
    | Aes128Gcm(key: seq<byte>, iv: seq<byte>)
    | Aes256Gcm(key: seq<byte>, iv: seq<byte>)
    | Chacha20Poly1305(key: seq<byte>, iv: seq<byte>)

  datatype UnsupportedOperationError = UnsupportedOperationError

  /** `key_len`: the key size the cipher constructors accept. */
  function KeyLen(): (r: nat)
    ensures r == KeySize
  {
    32
  }

  /** `key_block_shape`: a 32-byte key, a 12-byte fixed IV, no explicit nonce. */
  function Tls12KeyBlockShape(): (r: KeyBlockShape)
    ensures r.encKeyLen == KeyLen() && r.fixedIvLen == Nonce.NonceLen
    ensures r.explicitNonceLen == 0
  {
    KeyBlockShape(32, 12, 0)
  }

  /** TLS 1.3 `extract_keys`: always succeeds, carrying exactly the given bytes. */
  function Tls13ExtractKeys(key: seq<byte>, iv: seq<byte>): (r: Result<ConnectionTrafficSecrets, UnsupportedOperationError>)
    requires |key| == KeySize && |iv| == Nonce.NonceLen
    ensures r.Ok? && r.value.Chacha20Poly1305?
    ensures r.value.key == key && r.value.iv == iv
  {
    Ok(Chacha20Poly1305(key, iv))
  }

  /** TLS 1.2 `extract_keys`: the explicit-nonce bytes play no part. */
  function Tls12ExtractKeys(key: seq<byte>, iv: seq<byte>, explicit: seq<byte>): (r: Result<ConnectionTrafficSecrets, UnsupportedOperationError>)
    requires |key| == KeySize && |iv| == Nonce.NonceLen
    ensures r == Tls13ExtractKeys(key, iv)
  {
    Ok(Chacha20Poly1305(key, iv))
  }

  // ---------------------------------------------------------------------
  // TLS 1.3 record protection
  // ---------------------------------------------------------------------

  /**
   * TLS 1.3 encryption: the TLSInnerPlaintext (content, then the content
   * type byte, no padding) is sealed under the header of the final wire
   * length, and the outer header always says application data, TLS 1.2.
   */
  function Tls13Encrypt(key: seq<byte>, iv: seq<byte>, m: PlainMessage, seqNum: u64): (r: Result<OpaqueMessage, Error>)
    requires |key| == KeySize && |iv| == Nonce.NonceLen
    ensures r.Err? <==> |m.payload| + 1 > PMax
    ensures r.Err? ==> r.error == EncryptError
    ensures r.Ok? ==> r.value.typ == ApplicationData && r.value.version == TLSv1_2
    ensures r.Ok? ==> |r.value.payload| == |m.payload| + 1 + ChaChaPoly1305Overhead
    ensures r.Ok? ==>
      Open(key, Nonce.New(iv, seqNum), MakeTls13Aad(|r.value.payload|), r.value.payload)
        == Some(m.payload + [m.typ.Byte()])
  {
    var totalLen := |m.payload| + 1 + ChaChaPoly1305Overhead;
    var inner := m.payload + [m.typ.Byte()];
    var nonce, aad := Nonce.New(iv, seqNum), MakeTls13Aad(totalLen);
    match Seal(key, nonce, aad, inner)
    case None => Err(EncryptError)
    case Some(c) =>
      OpenIffSeal(key, nonce, aad, c, inner);
      Ok(OpaqueMessage(ApplicationData, TLSv1_2, c))
  }

  /**
   * TLS 1.3 decryption: authenticates under the header of the wire length,
   * then recovers content and type from the TLSInnerPlaintext. A record is
   * accepted only if it is the sealed form of its content, type and some
   * zero padding.
   */
  function Tls13Decrypt(key: seq<byte>, iv: seq<byte>, m: OpaqueMessage, seqNum: u64): (r: Result<PlainMessage, Error>)
    requires |key| == KeySize && |iv| == Nonce.NonceLen
    ensures r == Err(DecryptError) <==>
      Open(key, Nonce.New(iv, seqNum), MakeTls13Aad(|m.payload|), m.payload).None?
    ensures r.Err? ==>
      r.error == DecryptError || r.error == PeerSentOversizedRecord || r.error == IllegalTlsInnerPlaintext
    ensures r.Ok? ==>
      && r.value.version == TLSv1_3
      && r.value.typ.Byte() != 0
      && |r.value.payload| <= MaxFragmentLen
      && |m.payload| >= |r.value.payload| + 1 + ChaChaPoly1305Overhead
  {
    var nonce, aad := Nonce.New(iv, seqNum), MakeTls13Aad(|m.payload|);
    match Open(key, nonce, aad, m.payload)
    case None => Err(DecryptError)
    case Some(inner) => Tls13Unpadded(m.(payload := inner))
  }

  /**
   * TLS 1.3 decryption accepts a record only if it is the sealed form, under
   * the header of its wire length, of the returned content, the returned
   * type and zero padding.
   */
  lemma Tls13DecryptAuthentic(key: seq<byte>, iv: seq<byte>, m: OpaqueMessage, seqNum: u64)
    requires |key| == KeySize && |iv| == Nonce.NonceLen
    requires Tls13Decrypt(key, iv, m, seqNum).Ok?
    ensures
      var p := Tls13Decrypt(key, iv, m, seqNum).value;
      Seal(key, Nonce.New(iv, seqNum), MakeTls13Aad(|m.payload|),
           p.payload + [p.typ.Byte()] + Zeros(|m.payload| - |p.payload| - 1 - ChaChaPoly1305Overhead))
        == Some(m.payload)
  {
    var nonce, aad := Nonce.New(iv, seqNum), MakeTls13Aad(|m.payload|);
    var inner := Open(key, nonce, aad, m.payload).value;
    OpenIffSeal(key, nonce, aad, m.payload, inner);
  }

  /** The record cipher of one TLS 1.3 traffic direction. */
  class Tls13Cipher {
    const key: seq<byte>
    const iv: seq<byte>

    ghost predicate Valid()
    {
      |key| == KeySize && |iv| == Nonce.NonceLen
    }

    /** `encrypter` / `decrypter`: the key must be 32 bytes long. */
    constructor (key: seq<byte>, iv: seq<byte>)
      requires |key| == KeyLen() && |iv| == Nonce.NonceLen
      ensures Valid() && this.key == key && this.iv == iv
    {
      this.key := key;
      this.iv := iv;
    }

    method Encrypt(m: PlainMessage, seqNum: u64) returns (r: Result<OpaqueMessage, Error>)
      requires Valid()
      ensures r == Tls13Encrypt(key, iv, m, seqNum)
    {
      var totalLen := |m.payload| + 1 + ChaChaPoly1305Overhead;
      var payload: seq<byte> := [];
      payload := payload + m.payload;
      payload := payload + [m.typ.Byte()];
      assert payload == m.payload + [m.typ.Byte()];
      var nonce := Nonce.New(iv, seqNum);
      var aad := MakeTls13Aad(totalLen);
      var sealed := Seal(key, nonce, aad, payload);
      if sealed.None? {
        return Err(EncryptError);
      }
      payload := sealed.value;
      r := Ok(OpaqueMessage(ApplicationData, TLSv1_2, payload));
    }

    method Decrypt(m: OpaqueMessage, seqNum: u64) returns (r: Result<PlainMessage, Error>)
      requires Valid()
      ensures r == Tls13Decrypt(key, iv, m, seqNum)
    {
      var payload := m.payload;
      var nonce := Nonce.New(iv, seqNum);
      var aad := MakeTls13Aad(|payload|);
      var plain := Open(key, nonce, aad, payload);
      if plain.None? {
        return Err(DecryptError);
      }
      payload := plain.value;
      r := IntoTls13UnpaddedMessage(m.(payload := payload));
    }
  }

  // ---------------------------------------------------------------------
  // TLS 1.2 record protection
  // ---------------------------------------------------------------------

  /**
   * TLS 1.2 encryption: the payload is sealed under seq || type || version ||
   * plaintext length; the record keeps its type and version, and grows by
   * the tag alone.
   */
  function Tls12Encrypt(key: seq<byte>, iv: seq<byte>, m: PlainMessage, seqNum: u64): (r: Result<OpaqueMessage, Error>)
    requires |key| == KeySize && |iv| == Nonce.NonceLen
    ensures r.Err? <==> |m.payload| > PMax
    ensures r.Err? ==> r.error == EncryptError
    ensures r.Ok? ==> r.value.typ == m.typ && r.value.version == m.version
    ensures r.Ok? ==> |r.value.payload| == |m.payload| + ChaChaPoly1305Overhead
    ensures r.Ok? ==>
      Open(key, Nonce.New(iv, seqNum),
           MakeTls12Aad(seqNum, m.typ, m.version, |r.value.payload| - ChaChaPoly1305Overhead),
           r.value.payload)
        == Some(m.payload)
  {
    var nonce, aad := Nonce.New(iv, seqNum), MakeTls12Aad(seqNum, m.typ, m.version, |m.payload|);
    match Seal(key, nonce, aad, m.payload)
    case None => Err(EncryptError)
    case Some(c) =>
      OpenIffSeal(key, nonce, aad, c, m.payload);
      Ok(OpaqueMessage(m.typ, m.version, c))
  }

  /**
   * TLS 1.2 decryption: authenticates under the wire header with the wire
   * length less the tag; a record is accepted only if it is the sealed form
   * of the returned payload under that header.
   */
  function Tls12Decrypt(key: seq<byte>, iv: seq<byte>, m: OpaqueMessage, seqNum: u64): (r: Result<PlainMessage, Error>)
    requires |key| == KeySize && |iv| == Nonce.NonceLen
    requires |m.payload| >= ChaChaPoly1305Overhead
    ensures r.Err? <==>
      Open(key, Nonce.New(iv, seqNum),
           MakeTls12Aad(seqNum, m.typ, m.version, |m.payload| - ChaChaPoly1305Overhead),
           m.payload).None?
    ensures r.Err? ==> r.error == DecryptError
    ensures r.Ok? ==> r.value.typ == m.typ && r.value.version == m.version
    ensures r.Ok? ==> |r.value.payload| + ChaChaPoly1305Overhead == |m.payload|
  {
    var nonce := Nonce.New(iv, seqNum);
    var aad := MakeTls12Aad(seqNum, m.typ, m.version, |m.payload| - ChaChaPoly1305Overhead);
    match Open(key, nonce, aad, m.payload)
    case None => Err(DecryptError)
    case Some(p) => Ok(PlainMessage(m.typ, m.version, p))
  }

  /**
   * TLS 1.2 decryption accepts a record only if it is the sealed form of the
   * returned payload under the record's own header and the payload's length.
   */
  lemma Tls12DecryptAuthentic(key: seq<byte>, iv: seq<byte>, m: OpaqueMessage, seqNum: u64)
    requires |key| == KeySize && |iv| == Nonce.NonceLen
    requires |m.payload| >= ChaChaPoly1305Overhead
    requires Tls12Decrypt(key, iv, m, seqNum).Ok?
    ensures
      var p := Tls12Decrypt(key, iv, m, seqNum).value;
      Seal(key, Nonce.New(iv, seqNum), MakeTls12Aad(seqNum, m.typ, m.version, |p.payload|), p.payload)
        == Some(m.payload)
  {
    var nonce := Nonce.New(iv, seqNum);
    var aad := MakeTls12Aad(seqNum, m.typ, m.version, |m.payload| - ChaChaPoly1305Overhead);
    OpenIffSeal(key, nonce, aad, m.payload, Open(key, nonce, aad, m.payload).value);
  }

  /** The record cipher of one TLS 1.2 traffic direction. */
  class Tls12Cipher {
    const key: seq<byte>
    const iv: seq<byte>

    ghost predicate Valid()
    {
      |key| == KeySize && |iv| == Nonce.NonceLen
    }

    /** `encrypter` / `decrypter`: a 32-byte key and a 12-byte fixed IV. */
    constructor (key: seq<byte>, iv: seq<byte>)
      requires |key| == KeyLen() && |iv| == Tls12KeyBlockShape().fixedIvLen
      ensures Valid() && this.key == key && this.iv == iv
    {
      this.key := key;
      this.iv := iv;
    }

    method Encrypt(m: PlainMessage, seqNum: u64) returns (r: Result<OpaqueMessage, Error>)
      requires Valid()
      ensures r == Tls12Encrypt(key, iv, m, seqNum)
    {
      var totalLen := |m.payload| + ChaChaPoly1305Overhead;
      var payload: seq<byte> := [];
      payload := payload + m.payload;
      assert payload == m.payload;
      var nonce := Nonce.New(iv, seqNum);
      var aad := MakeTls12Aad(seqNum, m.typ, m.version, |payload|);
      var sealed := Seal(key, nonce, aad, payload);
      if sealed.None? {
        return Err(EncryptError);
      }
      payload := sealed.value;
      r := Ok(OpaqueMessage(m.typ, m.version, payload));
    }

    method Decrypt(m: OpaqueMessage, seqNum: u64) returns (r: Result<PlainMessage, Error>)
      requires Valid()
      requires |m.payload| >= ChaChaPoly1305Overhead
      ensures r == Tls12Decrypt(key, iv, m, seqNum)
    {
      var nonce := Nonce.New(iv, seqNum);
      var aad := MakeTls12Aad(seqNum, m.typ, m.version, |m.payload| - ChaChaPoly1305Overhead);
      var payload := m.payload;
      var plain := Open(key, nonce, aad, payload);
      if plain.None? {
        return Err(DecryptError);
      }
      payload := plain.value;
      r := Ok(PlainMessage(m.typ, m.version, payload));
    }
  }

  // ---------------------------------------------------------------------
  // Encryption followed by decryption
  // ---------------------------------------------------------------------

  /**
   * A TLS 1.2 record decrypts, under the same key, IV and sequence number,
   * to the record that was encrypted: the decrypt-side length (wire length
   * less the tag) is the encrypt-side plaintext length, so the two AADs agree.
   */
  lemma Tls12RoundTrip(key: seq<byte>, iv: seq<byte>, m: PlainMessage, seqNum: u64)
    requires |key| == KeySize && |iv| == Nonce.NonceLen
    requires |m.payload| <= PMax
    ensures Tls12Encrypt(key, iv, m, seqNum).Ok?
    ensures |Tls12Encrypt(key, iv, m, seqNum).value.payload| >= ChaChaPoly1305Overhead
    ensures Tls12Decrypt(key, iv, Tls12Encrypt(key, iv, m, seqNum).value, seqNum) == Ok(m)
  {
  }

  /**
   * A TLS 1.3 record decrypts to the content and content type that were
   * encrypted, as a TLS 1.3 record, whenever the content fits a fragment and
   * the type byte is not zero (a zero byte would be read as padding).
   */
  lemma Tls13RoundTrip(key: seq<byte>, iv: seq<byte>, m: PlainMessage, seqNum: u64)
    requires |key| == KeySize && |iv| == Nonce.NonceLen
    requires |m.payload| <= MaxFragmentLen
    requires m.typ.Byte() != 0 && m.typ.Canonical()
    ensures Tls13Encrypt(key, iv, m, seqNum).Ok?
    ensures Tls13Decrypt(key, iv, Tls13Encrypt(key, iv, m, seqNum).value, seqNum)
      == Ok(PlainMessage(m.typ, TLSv1_3, m.payload))
  {
    var inner := m.payload + [m.typ.Byte()];
    assert inner == m.payload + [m.typ.Byte()] + Zeros(0);
    UnpadPadded(m.payload, m.typ.Byte(), 0);
    FromByteOfByte(m.typ);
  }

  /**
   * Decrypting what was sealed under the header of its own wire length comes
   * down to unpadding the sealed TLSInnerPlaintext, whatever the outer header.
   */
  lemma Tls13DecryptSealed(key: seq<byte>, iv: seq<byte>, seqNum: u64, inner: seq<byte>,
                           outerTyp: ContentType, outerVersion: ProtocolVersion)
    requires |key| == KeySize && |iv| == Nonce.NonceLen
    requires |inner| <= PMax
    ensures
      var sealed := Seal(key, Nonce.New(iv, seqNum), MakeTls13Aad(|inner| + ChaChaPoly1305Overhead), inner);
      && sealed.Some?
      && Tls13Decrypt(key, iv, OpaqueMessage(outerTyp, outerVersion, sealed.value), seqNum)
         == Tls13Unpadded(OpaqueMessage(outerTyp, outerVersion, inner))
  {
    var nonce, aad := Nonce.New(iv, seqNum), MakeTls13Aad(|inner| + ChaChaPoly1305Overhead);
    var c := Seal(key, nonce, aad, inner).value;
    OpenIffSeal(key, nonce, aad, c, inner);
  }

  /**
   * TLS 1.3 decryption accepts padded records from any sender: an inner
   * plaintext of content, a non-zero type byte and any zeros, sealed under
   * the header of the wire length, decrypts to that content and type,
   * whatever the outer header says.
   */
  lemma Tls13AcceptsPadding(key: seq<byte>, iv: seq<byte>, seqNum: u64,
                            inner: seq<byte>, content: seq<byte>, typ: byte, padLen: nat,
                            outerTyp: ContentType, outerVersion: ProtocolVersion)
    requires |key| == KeySize && |iv| == Nonce.NonceLen
    requires typ != 0 && |content| + 1 + padLen <= MaxFragmentLen + 1
    requires inner == content + [typ] + Zeros(padLen)
    ensures
      var sealed := Seal(key, Nonce.New(iv, seqNum), MakeTls13Aad(|inner| + ChaChaPoly1305Overhead), inner);
      && sealed.Some?
      && Tls13Decrypt(key, iv, OpaqueMessage(outerTyp, outerVersion, sealed.value), seqNum)
         == Ok(PlainMessage(ContentType.FromByte(typ), TLSv1_3, content))
  {
    Tls13DecryptSealed(key, iv, seqNum, inner, outerTyp, outerVersion);
    Tls13UnpaddedPadded(OpaqueMessage(outerTyp, outerVersion, inner), content, typ, padLen);
  }

  /** A TLS 1.3 record whose inner plaintext is all zeros is rejected after authentication. */
  lemma Tls13RejectsAllZero(key: seq<byte>, iv: seq<byte>, seqNum: u64, n: nat,
                            outerTyp: ContentType, outerVersion: ProtocolVersion)
    requires |key| == KeySize && |iv| == Nonce.NonceLen
    requires n <= MaxFragmentLen + 1
    ensures
      var sealed := Seal(key, Nonce.New(iv, seqNum), MakeTls13Aad(n + ChaChaPoly1305Overhead), Zeros(n));
      && sealed.Some?
      && Tls13Decrypt(key, iv, OpaqueMessage(outerTyp, outerVersion, sealed.value), seqNum)
         == Err(IllegalTlsInnerPlaintext)
  {
    Tls13DecryptSealed(key, iv, seqNum, Zeros(n), outerTyp, outerVersion);
    assert Tls13Unpadded(OpaqueMessage(outerTyp, outerVersion, Zeros(n))) == Err(IllegalTlsInnerPlaintext);
  }

  /**
   * Encrypting a TLS 1.3 record whose content type byte is zero does not
   * round-trip: the type byte is taken for padding, so decryption either
   * fails or returns a shorter payload.
   */
  lemma Tls13ZeroTypeIsPadding(key: seq<byte>, iv: seq<byte>, m: PlainMessage, seqNum: u64)
    requires |key| == KeySize && |iv| == Nonce.NonceLen
    requires |m.payload| <= MaxFragmentLen
    requires m.typ.Byte() == 0
    ensures Tls13Encrypt(key, iv, m, seqNum).Ok?
    ensures
      var r := Tls13Decrypt(key, iv, Tls13Encrypt(key, iv, m, seqNum).value, seqNum);
      r.Err? || |r.value.payload| < |m.payload|
  {
    var inner := m.payload + [m.typ.Byte()];
    assert inner[..|inner| - 1] == m.payload;
  }
}
