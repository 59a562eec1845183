/**
 * The ChaCha20-Poly1305 AEAD (RFC 8439) as the record layer sees it: `Seal`
 * turns a plaintext into ciphertext followed by a 16-byte tag, and `Open`
 * checks the tag and gives the plaintext back.
 *
 * The stream cipher and the MAC are not modelled. `Keystream` and `Tag` below
 * are stand-ins with the right shapes; the record layer relies only on what
 * `Seal`, `Open` and `OpenIffSeal` state: the length of a sealed record, the
 * failure conditions, and that `Open` accepts exactly what `Seal` produced
 * under the same key, nonce and additional data.
 */
module ChaChaAead {
  import opened Bytes
  import opened Wrappers

  /** Parameters from section 2.8 of RFC 8439. */
  const KeySize: nat := 32
  const NonceSize: nat := 12
  const TagSize: nat := 16
  const PMax: nat := 274_877_906_880
  const AMax: nat := 0xFFFF_FFFF_FFFF_FFFF
  const CMax: nat := PMax + TagSize

  /** Stand-in for the ChaCha20 key stream: key and nonce bytes, rotating. */
  function Keystream(key: seq<byte>, nonce: seq<byte>, n: nat): (r: seq<byte>)
    requires |key| == KeySize && |nonce| == NonceSize
    ensures |r| == n
    decreases n
  {
    if n == 0 then []
    else [XorByte(key[0], nonce[0])] + Keystream(key[1..] + [key[0]], nonce[1..] + [nonce[0]], n - 1)
  }

  /** Exclusive or of all bytes of `s`. */
  function Fold(s: seq<byte>): byte
  {
    if s == [] then 0 else XorByte(Fold(s[..|s| - 1]), s[|s| - 1])
  }

  /** Stand-in for the Poly1305 tag over the additional data and the ciphertext. */
  function Tag(key: seq<byte>, nonce: seq<byte>, aad: seq<byte>, ct: seq<byte>): (r: seq<byte>)
    requires |key| == KeySize && |nonce| == NonceSize
    ensures |r| == TagSize
  {
    var d := XorByte(Fold(aad), Fold(ct));
    Xor(key[KeySize - TagSize..], nonce + [d, d, d, d])
  }

  /** Encryption: ciphertext of the same length as `pt`, then the tag. */
  function Seal(key: seq<byte>, nonce: seq<byte>, aad: seq<byte>, pt: seq<byte>): (r: Option<seq<byte>>)
    requires |key| == KeySize && |nonce| == NonceSize
    ensures r.None? <==> |pt| > PMax || |aad| > AMax
    ensures r.Some? ==> |r.value| == |pt| + TagSize
  {
    if |pt| > PMax || |aad| > AMax then None
    else
      var ct := Xor(pt, Keystream(key, nonce, |pt|));
      Some(ct + Tag(key, nonce, aad, ct))
  }

  /** Decryption: fails unless the tag matches the ciphertext and `aad`. */
  function Open(key: seq<byte>, nonce: seq<byte>, aad: seq<byte>, c: seq<byte>): (r: Option<seq<byte>>)
    requires |key| == KeySize && |nonce| == NonceSize
    ensures |c| < TagSize ==> r.None?
    ensures r.Some? ==> |r.value| + TagSize == |c|
  {
    if |c| < TagSize || |c| > CMax || |aad| > AMax then None
    else
      var ct := c[..|c| - TagSize];
      if c[|c| - TagSize..] == Tag(key, nonce, aad, ct)
      then Some(Xor(ct, Keystream(key, nonce, |ct|)))
      else None
  }

  /**
   * `Open` under a key, nonce and additional data succeeds with `p` exactly
   * when `c` is what `Seal` makes of `p` under the same three: it inverts
   * `Seal`, and it accepts nothing else.
   */
  lemma OpenIffSeal(key: seq<byte>, nonce: seq<byte>, aad: seq<byte>, c: seq<byte>, p: seq<byte>)
    requires |key| == KeySize && |nonce| == NonceSize
    ensures Open(key, nonce, aad, c) == Some(p) <==> Seal(key, nonce, aad, p) == Some(c)
  {
    if Seal(key, nonce, aad, p) == Some(c) {
      var ct := Xor(p, Keystream(key, nonce, |p|));
      assert c == ct + Tag(key, nonce, aad, ct);
      assert c[..|c| - TagSize] == ct;
      assert c[|c| - TagSize..] == Tag(key, nonce, aad, ct);
      XorXor(p, Keystream(key, nonce, |p|));
    }
    if Open(key, nonce, aad, c) == Some(p) {
      var ct := c[..|c| - TagSize];
      var ks := Keystream(key, nonce, |ct|);
      assert p == Xor(ct, ks);
      XorXor(ct, ks);
      assert Xor(p, ks) == ct;
      assert c == ct + c[|c| - TagSize..];
    }
  }
}
