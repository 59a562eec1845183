/**
 * Per-record nonce derivation shared by both framings (section 5.3 of
 * RFC 8446, section 2 of RFC 7905): the 64-bit record sequence number, in
 * network byte order and left-padded with zeros to the IV length, XORed with
 * the 12-byte IV.
 */
module Nonce {
  import opened Bytes

  const NonceLen: nat := 12

  /** `Nonce::new(iv, seq)`. */
  function New(iv: seq<byte>, seqNum: u64): (r: seq<byte>)
    requires |iv| == NonceLen
    ensures |r| == NonceLen
    ensures r[..4] == iv[..4]
    ensures FromBE(Xor(r, iv)[4..]) == seqNum
  {
    WidePowers();
    var padded := Zeros(4) + ToBE(seqNum, 8);
    XorXor(padded, iv);
    FromToBE(seqNum, 8);
    assert Xor(Xor(padded, iv), iv)[4..] == ToBE(seqNum, 8);
    assert Xor(padded, iv)[..4] == iv[..4] by {
      forall i | 0 <= i < 4 ensures Xor(padded, iv)[i] == iv[i] {
        XorAt(padded, iv, i);
        assert padded[i] == 0;
        XorByteZero(iv[i]);
      }
    }
    Xor(padded, iv)
  }

  /** Distinct sequence numbers never share a nonce under the same IV. */
  lemma DistinctSeqNumsDistinctNonces(iv: seq<byte>, s1: u64, s2: u64)
    requires |iv| == NonceLen && s1 != s2
    ensures New(iv, s1) != New(iv, s2)
  {
  }
}
