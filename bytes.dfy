/** Bytes and the fixed-width big-endian integers of the TLS wire format. */
module Bytes {
  newtype byte = x: int | 0 <= x < 256
  type u16 = x: int | 0 <= x < 0x1_0000
  type u64 = x: int | 0 <= x < 0x1_0000_0000_0000_0000

  function Pow256(n: nat): (r: nat)
    ensures r > 0
  {
    if n == 0 then 1 else 256 * Pow256(n - 1)
  }

  /** The ranges of the 16- and 64-bit wire integers. */
  lemma WidePowers()
    ensures Pow256(2) == 0x1_0000 && Pow256(8) == 0x1_0000_0000_0000_0000
  {
  }

  /** `n` zero bytes. */
  function Zeros(n: nat): (r: seq<byte>)
    ensures |r| == n && forall i :: 0 <= i < n ==> r[i] == 0
  {
    seq(n, _ => 0)
  }

  function Pow2(k: nat): (r: nat)
    ensures r > 0
  {
    if k == 0 then 1 else 2 * Pow2(k - 1)
  }

  /** Exclusive or of the `k` low-order bits of `a` and `b`. */
  function XorBits(a: nat, b: nat, k: nat): (r: nat)
    ensures r < Pow2(k)
  {
    if k == 0 then 0
    else (if a % 2 == b % 2 then 0 else 1) + 2 * XorBits(a / 2, b / 2, k - 1)
  }

  lemma {:induction false} XorBitsTwice(a: nat, b: nat, k: nat)
    requires a < Pow2(k)
    ensures XorBits(XorBits(a, b, k), b, k) == a
  {
    if k > 0 {
      var c := XorBits(a, b, k);
      assert c % 2 == (if a % 2 == b % 2 then 0 else 1);
      assert c / 2 == XorBits(a / 2, b / 2, k - 1);
      XorBitsTwice(a / 2, b / 2, k - 1);
    }
  }

  /** Bit-wise exclusive or of two bytes. */
  function XorByte(a: byte, b: byte): byte
  {
    assert Pow2(8) == 256;
    XorBits(a as nat, b as nat, 8) as byte
  }

  lemma XorByteTwice(a: byte, b: byte)
    ensures XorByte(XorByte(a, b), b) == a
  {
    assert Pow2(8) == 256;
    XorBitsTwice(a as nat, b as nat, 8);
  }

  /** Zero is the identity of exclusive or. */
  lemma XorByteZero(a: byte)
    ensures XorByte(0, a) == a
  {
    XorBitsZero(a as nat, 8);
  }

  lemma {:induction false} XorBitsZero(a: nat, k: nat)
    requires a < Pow2(k)
    ensures XorBits(0, a, k) == a
  {
    if k > 0 {
      XorBitsZero(a / 2, k - 1);
    }
  }

  /** Byte-wise exclusive or of two sequences of the same length. */
  function Xor(a: seq<byte>, b: seq<byte>): (r: seq<byte>)
    requires |a| == |b|
    ensures |r| == |a|
  {
    if a == [] then [] else [XorByte(a[0], b[0])] + Xor(a[1..], b[1..])
  }

  lemma {:induction false} XorAt(a: seq<byte>, b: seq<byte>, i: nat)
    requires |a| == |b| && i < |a|
    ensures Xor(a, b)[i] == XorByte(a[i], b[i])
  {
    if i > 0 {
      XorAt(a[1..], b[1..], i - 1);
    }
  }

  /** Exclusive or with the same bytes twice is the identity. */
  lemma {:induction false} XorXor(a: seq<byte>, b: seq<byte>)
    requires |a| == |b|
    ensures Xor(Xor(a, b), b) == a
  {
    if a != [] {
      XorXor(a[1..], b[1..]);
      assert Xor(a, b)[1..] == Xor(a[1..], b[1..]);
      XorByteTwice(a[0], b[0]);
    }
  }

  /** The `n`-byte big-endian (network order) encoding of `x`. */
  function ToBE(x: nat, n: nat): (r: seq<byte>)
    requires x < Pow256(n)
    ensures |r| == n
  {
    if n == 0 then [] else ToBE(x / 256, n - 1) + [(x % 256) as byte]
  }

  /** The unsigned number that a big-endian byte string denotes. */
  function FromBE(s: seq<byte>): (r: nat)
    ensures r < Pow256(|s|)
  {
    if s == [] then 0
    else
      var hi := FromBE(s[..|s| - 1]);
      assert hi <= Pow256(|s| - 1) - 1;
      assert hi * 256 <= Pow256(|s|) - 256;
      hi * 256 + s[|s| - 1] as nat
  }

  /** Decoding the `n`-byte encoding of `x` gives back `x`. */
  lemma {:induction false} FromToBE(x: nat, n: nat)
    requires x < Pow256(n)
    ensures FromBE(ToBE(x, n)) == x
  {
    if n > 0 {
      var s := ToBE(x, n);
      assert s[..n - 1] == ToBE(x / 256, n - 1);
      FromToBE(x / 256, n - 1);
    }
  }

  /** A big-endian encoding determines the number it encodes. */
  lemma ToBEInjective(x: nat, y: nat, n: nat)
    requires x < Pow256(n) && y < Pow256(n)
    requires ToBE(x, n) == ToBE(y, n)
    ensures x == y
  {
    FromToBE(x, n);
    FromToBE(y, n);
  }
}
