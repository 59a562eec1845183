/**
 * Recovering a TLS 1.3 record from its decrypted TLSInnerPlaintext
 * (`OpaqueMessage::into_tls13_unpadded_message`): content || type || zero
 * padding, scanned from the end for the first non-zero byte, as section 5.4
 * of RFC 8446 describes; with the record-size limits of section 5.2.
 */
module Unpadding {
  import opened Bytes
  import opened Wrappers
  import opened Messages

  /** 2^14, the largest TLSPlaintext fragment (section 5.1 of RFC 8446). */
  const MaxFragmentLen: nat := 16384

  lemma ZerosSnoc(n: nat)
    ensures Zeros(n) + [0] == Zeros(n + 1)
  {
  }

  /**
   * Strips the zero padding and the content-type byte from a
   * TLSInnerPlaintext; `None` when every byte is zero.
   */
  function Unpad(inner: seq<byte>): (r: Option<(seq<byte>, byte)>)
    ensures r.None? <==> inner == Zeros(|inner|)
    ensures r.Some? ==>
      var (content, typ) := r.value;
      && typ != 0
      && |content| < |inner|
      && inner == content + [typ] + Zeros(|inner| - |content| - 1)
    decreases |inner|
  {
    if inner == [] then None
    else
      var prefix, last := inner[..|inner| - 1], inner[|inner| - 1];
      assert inner == prefix + [last];
      if last == 0 then
        var r := Unpad(prefix);
        if r.Some? then
          ZerosSnoc(|prefix| - |r.value.0| - 1);
          r
        else
          ZerosSnoc(|prefix|);
          r
      else
        assert inner != Zeros(|inner|) by { assert inner[|inner| - 1] != Zeros(|inner|)[|inner| - 1]; }
        Some((prefix, last))
  }

  /** A non-zero type byte followed by any amount of zero padding is found again. */
  lemma {:induction false} UnpadPadded(content: seq<byte>, typ: byte, n: nat)
    requires typ != 0
    ensures Unpad(content + [typ] + Zeros(n)) == Some((content, typ))
  {
    var inner := content + [typ] + Zeros(n);
    if n == 0 {
      assert inner[..|inner| - 1] == content;
    } else {
      ZerosSnoc(n - 1);
      assert inner[..|inner| - 1] == content + [typ] + Zeros(n - 1);
      UnpadPadded(content, typ, n - 1);
    }
  }

  /** The result of `into_tls13_unpadded_message` on a decrypted record. */
  function Tls13Unpadded(m: OpaqueMessage): (r: Result<PlainMessage, Error>)
    ensures r == Err(PeerSentOversizedRecord) <==> |m.payload| > MaxFragmentLen + 1
    ensures r == Err(IllegalTlsInnerPlaintext) <==>
      |m.payload| <= MaxFragmentLen + 1 && m.payload == Zeros(|m.payload|)
    ensures r.Err? ==> r.error == PeerSentOversizedRecord || r.error == IllegalTlsInnerPlaintext
    ensures r.Ok? ==>
      && r.value.version == TLSv1_3
      && |r.value.payload| <= MaxFragmentLen
      && r.value.typ.Byte() != 0
      && Unpad(m.payload) == Some((r.value.payload, r.value.typ.Byte()))
  {
    if |m.payload| > MaxFragmentLen + 1 then Err(PeerSentOversizedRecord)
    else match Unpad(m.payload)
      case None => Err(IllegalTlsInnerPlaintext)
      case Some((content, typ)) =>
        if |content| > MaxFragmentLen then Err(PeerSentOversizedRecord)
        else Ok(PlainMessage(ContentType.FromByte(typ), TLSv1_3, content))
  }

  /** A padded TLSInnerPlaintext of a legal size yields its content and type. */
  lemma Tls13UnpaddedPadded(m: OpaqueMessage, content: seq<byte>, typ: byte, padLen: nat)
    requires typ != 0 && |content| + 1 + padLen <= MaxFragmentLen + 1
    requires m.payload == content + [typ] + Zeros(padLen)
    ensures Tls13Unpadded(m) == Ok(PlainMessage(ContentType.FromByte(typ), TLSv1_3, content))
  {
    UnpadPadded(content, typ, padLen);
  }

  /**
   * `into_tls13_unpadded_message`: checks the size, pops trailing zero bytes
   * off the payload until a non-zero one, which is the content type, and
   * checks the size of what remains.
   */
  method IntoTls13UnpaddedMessage(m: OpaqueMessage) returns (r: Result<PlainMessage, Error>)
    ensures r == Tls13Unpadded(m)
  {
    var payload := m.payload;
    if |payload| > MaxFragmentLen + 1 {
      return Err(PeerSentOversizedRecord);
    }
    var typ: byte := 0;
    while typ == 0 && payload != []
      invariant typ == 0 ==> Unpad(m.payload) == Unpad(payload)
      invariant typ != 0 ==> Unpad(m.payload) == Some((payload, typ))
      decreases |payload|
    {
      typ := payload[|payload| - 1];
      payload := payload[..|payload| - 1];
    }
    if typ == 0 {
      return Err(IllegalTlsInnerPlaintext);
    }
    if |payload| > MaxFragmentLen {
      return Err(PeerSentOversizedRecord);
    }
    r := Ok(PlainMessage(ContentType.FromByte(typ), TLSv1_3, payload));
  }
}
