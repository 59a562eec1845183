# ChaCha20-Poly1305 record protection of the rustls example provider

This project models `provider-example/src/aead.rs` of rustls's example crypto
provider. That file plugs the ChaCha20-Poly1305 AEAD into rustls's record
layer. It has two algorithm descriptors and two record ciphers:

- the TLS 1.3 descriptor: `encrypter`, `decrypter`, `key_len` and `extract_keys`;
- the TLS 1.2 descriptor: `encrypter`, `decrypter`, `key_block_shape` and `extract_keys`;
- `Tls13Cipher`, which seals the TLSInnerPlaintext (content ‖ content type)
  under the 5-byte record header of section 5.2 of RFC 8446. It sends every
  record as application data with version TLS 1.2. On receipt it strips the
  zero padding of section 5.4 of RFC 8446;
- `Tls12Cipher`, which seals the payload under
  seq_num ‖ type ‖ version ‖ length (section 6.2.3.3 of RFC 5246, RFC 7905).
  It keeps the record's type and version.

Both ciphers derive the per-record nonce by the same rule (section 5.3 of
RFC 8446). The 64-bit sequence number is written big-endian and left-padded to
12 bytes. That value is XORed with the IV. The tag overhead,
`CHACHAPOLY1305_OVERHEAD`, is 16 bytes (`Aead.ChaChaPoly1305Overhead`).

Modules:

- `Bytes`: bytes, big-endian integers and byte-wise XOR.
- `Messages`: content types, versions, records and errors.
- `ChaChaAead`: the AEAD as Seal/Open with the limits of RFC 8439.
- `Nonce`: nonce derivation.
- `Aad`: the two additional-data layouts.
- `Unpadding`: recovery of TLS 1.3 records.
- `Aead`: the descriptors, the two cipher classes and the cross-operation lemmas.

Each cipher is a `class` holding its key and IV. Its `Encrypt` and `Decrypt`
methods build the record buffer step by step, as the source does. Each method
is proved equal to a specification function of the same name. The properties
are stated on those functions:

- the error conditions;
- the outer header;
- the length;
- the authenticity of what decryption accepts;
- the round trips.

## Model

| member | source | states |
|---|---|---|
| Aead.KeyLen | provider-example/src/aead.rs:22-24 | the key length is the AEAD's key size, 32 bytes |
| Aead.Tls12KeyBlockShape | provider-example/src/aead.rs:59-65 | the TLS 1.2 key block gives a key of `key_len` bytes and a fixed IV of the nonce length (12), with no explicit nonce |
| Aead.Tls13ExtractKeys | provider-example/src/aead.rs:26-36 | extraction always succeeds; it yields the ChaCha20-Poly1305 secrets carrying exactly the given key and IV |
| Aead.Tls12ExtractKeys | provider-example/src/aead.rs:67-78 | the TLS 1.2 extraction ignores the explicit-nonce bytes; it agrees with the TLS 1.3 extraction on the same key and IV |
| Aead.Tls13Cipher.constructor | provider-example/src/aead.rs:8-20 | a TLS 1.3 cipher is built from a 32-byte key and a 12-byte IV, and keeps both |
| Aead.Tls13Encrypt | provider-example/src/aead.rs:84-109 | fails with EncryptError exactly when the inner plaintext exceeds the AEAD's plaintext limit; otherwise yields an application-data record with version TLS 1.2 that is 1 + 16 bytes longer than the content; that record opens, under the sequence number's nonce and the header of its own length, to content ‖ type byte |
| Aead.Tls13Cipher.Encrypt | provider-example/src/aead.rs:84-109 | the buffer-building encryption returns exactly `Tls13Encrypt` |
| Aead.Tls13Decrypt | provider-example/src/aead.rs:113-127 | DecryptError exactly when the tag check fails; any other error is an oversized record or an all-zero inner plaintext; on success the record has version TLS 1.3, a non-zero type byte, at most 2^14 bytes of content, and is at least 17 bytes shorter than the wire record |
| Aead.Tls13Cipher.Decrypt | provider-example/src/aead.rs:113-127 | the in-place decryption followed by unpadding returns exactly `Tls13Decrypt` |
| Aead.Tls13DecryptAuthentic | provider-example/src/aead.rs:118-126 | an accepted TLS 1.3 record is the sealing of the returned content ‖ type ‖ zero padding, under that nonce and the header of the wire length |
| Aead.Tls12Cipher.constructor | provider-example/src/aead.rs:40-57 | a TLS 1.2 cipher is built from a 32-byte key and an IV of the key block's fixed-IV length, and keeps both |
| Aead.Tls12Encrypt | provider-example/src/aead.rs:133-150 | fails with EncryptError exactly when the payload exceeds the AEAD's plaintext limit; otherwise keeps type and version, grows by 16 bytes, and opens under seq ‖ type ‖ version ‖ plaintext length to the original payload |
| Aead.Tls12Cipher.Encrypt | provider-example/src/aead.rs:133-150 | the buffer-building encryption returns exactly `Tls12Encrypt` |
| Aead.Tls12Decrypt | provider-example/src/aead.rs:154-174 | fails, always with DecryptError, exactly when the tag check under seq ‖ type ‖ version ‖ (wire length − 16) fails; on success it keeps type and version and strips exactly 16 bytes |
| Aead.Tls12Cipher.Decrypt | provider-example/src/aead.rs:154-174 | the in-place decryption returns exactly `Tls12Decrypt` |
| Aead.Tls12DecryptAuthentic | provider-example/src/aead.rs:159-171 | an accepted TLS 1.2 record is the sealing of the returned payload under the record's own header and the payload's length |
| Aead.Tls12RoundTrip | provider-example/src/aead.rs:133-174 | any record within the AEAD limit encrypts, and decrypts under the same key, IV and sequence number to the same record |
| Aead.Tls13RoundTrip | provider-example/src/aead.rs:84-127 | a record of at most 2^14 bytes with a non-zero type byte encrypts, and decrypts to the same content and type, as a TLS 1.3 record |
| Aead.Tls13DecryptSealed | provider-example/src/aead.rs:118-126 | decrypting an inner plaintext sealed under the header of its wire length is unpadding that plaintext, whatever the outer header says |
| Aead.Tls13AcceptsPadding | provider-example/src/aead.rs:113-127 | content ‖ non-zero type ‖ any zeros, within 2^14 + 1 bytes and sealed by a peer, decrypts to that content and type |
| Aead.Tls13RejectsAllZero | provider-example/src/aead.rs:126 | an authentic record whose inner plaintext is all zeros is rejected with IllegalTlsInnerPlaintext |
| Aead.Tls13ZeroTypeIsPadding | provider-example/src/aead.rs:94 | a record sent with content type byte 0 does not come back: decryption fails or returns a shorter payload |
| Nonce.New | provider-example/src/aead.rs:96 | the nonce keeps the IV's first 4 bytes; XORing it with the IV leaves the sequence number in big-endian form in the last 8 bytes |
| Nonce.DistinctSeqNumsDistinctNonces | provider-example/src/aead.rs:119 | under one IV, distinct sequence numbers give distinct nonces |
| Aad.MakeTls13Aad | provider-example/src/aead.rs:97 | 5 bytes: 0x17 0x03 0x03, then the record length truncated to 16 bits, big-endian |
| Aad.MakeTls12Aad | provider-example/src/aead.rs:144 | 13 bytes: the 64-bit sequence number, the type byte, the 16-bit version, then the length truncated to 16 bits, all big-endian |
| ChaChaAead.Seal | provider-example/src/aead.rs:99-101 | sealing fails exactly when the plaintext or additional data exceed the limits of RFC 8439; otherwise the output is 16 bytes longer than the plaintext |
| ChaChaAead.Open | provider-example/src/aead.rs:122-124 | opening fails on anything shorter than a tag; it returns a plaintext 16 bytes shorter than its input |
| ChaChaAead.OpenIffSeal | provider-example/src/aead.rs:122-124 | opening c yields p if and only if sealing p yields c, under the same key, nonce and additional data |
| Unpadding.Unpad | provider-example/src/aead.rs:126 | finds nothing exactly when the inner plaintext is all zeros; otherwise it splits the plaintext into content ‖ non-zero type ‖ zeros |
| Unpadding.UnpadPadded | provider-example/src/aead.rs:126 | content ‖ non-zero type ‖ n zeros unpads to that content and type, for every n |
| Unpadding.Tls13Unpadded | provider-example/src/aead.rs:126 | oversized exactly when the plaintext exceeds 2^14 + 1 bytes; IllegalTlsInnerPlaintext exactly when it is otherwise all zeros; on success the result is the unpadded content, at most 2^14 bytes, version TLS 1.3 |
| Unpadding.Tls13UnpaddedPadded | provider-example/src/aead.rs:126 | a legal-size padded inner plaintext yields its content and type |
| Unpadding.IntoTls13UnpaddedMessage | provider-example/src/aead.rs:126 | the loop that pops trailing zero bytes returns exactly `Tls13Unpadded` |
| Messages.FromByteOfByte | provider-example/src/aead.rs:94 | a content type written as its wire byte reads back as the same type |

## Left out

- The ChaCha20 stream cipher and the Poly1305 MAC. `ChaChaAead.Seal` and `ChaChaAead.Open` use a simple stand-in key stream and tag. The record layer relies only on three facts about them: the sealed length, the failure limits, and that Open accepts exactly what Seal produced. Secrecy and unforgeability are not modelled.
- Constant-time behaviour and the zeroising of key material.
- The rustls trait objects (`Box<dyn MessageEncrypter>` and friends). Each descriptor method is a function or a class constructor.
- The `unwrap` panic in `encrypter`/`decrypter` when the key is not 32 bytes. Instead, both constructors require a key of `KeyLen()` bytes.
- Aead.Tls12Decrypt: requires at least 16 bytes of payload. The source computes `payload.len() - CHACHAPOLY1305_OVERHEAD` without a guard, and that underflows on a shorter record.
- rustls's `Nonce::new`, `make_tls13_aad`, `make_tls12_aad` and `OpaqueMessage::into_tls13_unpadded_message` are not part of this model's source files. They are written from sections 5.2, 5.3 and 5.4 of RFC 8446 and section 6.2.3.3 of RFC 5246.
- The TLS 1.3 additional data is the whole 5-byte record header of section 5.2 of RFC 8446, not the 2-byte length on its own.
- TLS 1.2 decryption has no separate malformed-record error. A record that fails the tag check gives DecryptError.
- `usize` overflow of `m.payload.len() + 1 + 16` is not modelled. Lengths are unbounded integers. Only the 16-bit truncation of the AAD length is written out.
- DTLS and other protocol versions are not named. They are `ProtocolVersion.Unknown` with their wire value.
