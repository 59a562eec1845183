/** The additional authenticated data of the two record framings. */
module Aad {
  import opened Bytes
  import opened Messages

  const Tls13AadSize: nat := 5
  const Tls12AadSize: nat := 13

  /** The legacy record version every TLS 1.3 record header carries. */
  lemma LegacyVersionBytes()
    ensures TLSv1_2.Value() < Pow256(2)
    ensures ToBE(TLSv1_2.Value(), 2) == [0x03, 0x03]
  {
    WidePowers();
    assert ToBE(0x0303, 2) == ToBE(0x03, 1) + [0x03];
    assert ToBE(0x03, 1) == ToBE(0, 0) + [0x03];
  }

  /**
   * `make_tls13_aad`: the TLSCiphertext header, opaque_type (always
   * application data) || legacy_record_version (always 0x0303) || length,
   * as section 5.2 of RFC 8446 defines it. The length is cast to 16 bits.
   */
  function MakeTls13Aad(payloadLen: nat): (r: seq<byte>)
    ensures |r| == Tls13AadSize
    ensures r[..3] == [0x17, 0x03, 0x03]
    ensures FromBE(r[3..]) == payloadLen % 0x1_0000
  {
    WidePowers();
    LegacyVersionBytes();
    var l := ToBE(payloadLen % 0x1_0000, 2);
    FromToBE(payloadLen % 0x1_0000, 2);
    var r := [ApplicationData.Byte()] + ToBE(TLSv1_2.Value(), 2) + l;
    assert r[3..] == l;
    r
  }

  /**
   * `make_tls12_aad`: seq_num || type || version || length, as section
   * 6.2.3.3 of RFC 5246 defines it. The length is cast to 16 bits.
   */
  function MakeTls12Aad(seqNum: u64, typ: ContentType, version: ProtocolVersion, len: nat): (r: seq<byte>)
    ensures |r| == Tls12AadSize
    ensures FromBE(r[..8]) == seqNum
    ensures r[8] == typ.Byte()
    ensures FromBE(r[9..11]) == version.Value()
    ensures FromBE(r[11..]) == len % 0x1_0000
  {
    WidePowers();
    var s, v, l := ToBE(seqNum, 8), ToBE(version.Value(), 2), ToBE(len % 0x1_0000, 2);
    FromToBE(seqNum, 8);
    FromToBE(version.Value(), 2);
    FromToBE(len % 0x1_0000, 2);
    Tls12Layout(s, typ.Byte(), v, l);
    s + [typ.Byte()] + v + l
  }

  lemma Tls12Layout(s: seq<byte>, t: byte, v: seq<byte>, l: seq<byte>)
    requires |s| == 8 && |v| == 2 && |l| == 2
    ensures var r := s + [t] + v + l;
      |r| == 13 && r[..8] == s && r[8] == t && r[9..11] == v && r[11..] == l
  {
    var r := s + [t] + v + l;
    assert r[..8] == s;
    assert r[9..11] == v;
    assert r[11..] == l;
  }
}
