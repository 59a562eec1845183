/**
 * The record-layer values the cipher consumes and produces: content types,
 * protocol versions, plaintext and opaque (wire) records, and the errors the
 * record protection reports.
 */
module Messages {
  import opened Bytes

  /** TLS content types (RFC 8446 section 5.1); any other byte is `Unknown`. */
  datatype ContentType =
    | ChangeCipherSpec
    | Alert
    | Handshake
    | ApplicationData
    | Heartbeat
    | Unknown(b: byte)
  {
    /** The one-byte wire encoding. */
    function Byte(): byte
    {
      match this
      case ChangeCipherSpec => 20
      case Alert => 21
      case Handshake => 22
      case ApplicationData => 23
      case Heartbeat => 24
      case Unknown(b) => b
    }

    /** `Unknown` is only ever used for a byte no named type claims. */
    predicate Canonical()
    {
      Unknown? ==> !(20 <= b <= 24)
    }

    /** Reading a content type from its wire byte. */
    static function FromByte(v: byte): (t: ContentType)
      ensures t.Byte() == v && t.Canonical()
    {
      match v
      case 20 => ChangeCipherSpec
      case 21 => Alert
      case 22 => Handshake
      case 23 => ApplicationData
      case 24 => Heartbeat
      case _ => ContentType.Unknown(v)
    }
  }

  /** A canonical content type survives a trip through its wire byte. */
  lemma FromByteOfByte(t: ContentType)
    requires t.Canonical()
    ensures ContentType.FromByte(t.Byte()) == t
  {
  }

  /** Protocol versions; the ones without a name here are `Unknown` with their wire value. */
  datatype ProtocolVersion =
    | SSLv3
    | TLSv1_0
    | TLSv1_1
    | TLSv1_2
    | TLSv1_3
    | Unknown(v: u16)
  {
    /** The two-byte wire value. */
    function Value(): u16
    {
      match this
      case SSLv3 => 0x0300
      case TLSv1_0 => 0x0301
      case TLSv1_1 => 0x0302
      case TLSv1_2 => 0x0303
      case TLSv1_3 => 0x0304
      case Unknown(v) => v
    }
  }

  /** A record before encryption or after decryption. */
  datatype PlainMessage = PlainMessage(typ: ContentType, version: ProtocolVersion, payload: seq<byte>)

  /** A protected record as it travels on the wire. */
  datatype OpaqueMessage = OpaqueMessage(typ: ContentType, version: ProtocolVersion, payload: seq<byte>)

  /** The errors the record protection can report. */
  datatype Error =
    | EncryptError
    | DecryptError
    | PeerSentOversizedRecord
    | IllegalTlsInnerPlaintext
}
