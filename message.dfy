/** MqttMessage of the common module: how a message is laid out on the
    wire (fixed header, remaining length, variable header, payload) and how
    a packet identifier is read back. */
module PacketLayout {

  import opened Wrappers
  import opened MqttTypes

  /* ---------------- the fixed header's first byte ---------------- */

  /** The first byte of MQTT 3.1.1 section 2.2: packet type in the high
      nibble, then DUP, QoS and RETAIN, truncated to a byte by the writer. */
  function FirstByte(h: FixedHeader): byte {
    (h.messageType.Value() * 16 + (if h.isDup then 8 else 0)
      + h.qosLevel.Value() * 2 + (if h.isRetain then 1 else 0)) % 256
  }

  /** For the three delivery levels, every field of the header but the
      remaining length can be read back from the first byte. */
  lemma FirstByteFields(h: FixedHeader)
    requires h.qosLevel != FAILURE
    ensures FirstByte(h) / 16 == h.messageType.Value()
    ensures (FirstByte(h) / 8) % 2 == (if h.isDup then 1 else 0)
    ensures (FirstByte(h) / 2) % 4 == h.qosLevel.Value()
    ensures FirstByte(h) % 2 == (if h.isRetain then 1 else 0)
  {
    var t, d, q, r := h.messageType.Value(), (if h.isDup then 1 else 0), h.qosLevel.Value(), (if h.isRetain then 1 else 0);
    var b := t * 16 + d * 8 + q * 2 + r;
    assert b == t * 16 + (if h.isDup then 8 else 0) + q * 2 + (if h.isRetain then 1 else 0);
    DivMod(b, 256, 0, b);
    DivMod(b, 16, t, d * 8 + q * 2 + r);
    DivMod(b, 8, 2 * t + d, q * 2 + r);
    DivMod(2 * t + d, 2, t, d);
    DivMod(b, 2, 8 * t + 4 * d + q, r);
    DivMod(8 * t + 4 * d + q, 4, 2 * t + d, q);
  }

  /** Quotient and remainder are the unique ones. */
  lemma DivMod(b: int, d: int, q: int, r: int)
    requires d > 0 && 0 <= r < d && b == q * d + r
    ensures b / d == q && b % d == r
  {
    var k := q - b / d;
    assert k * d == b % d - r;
  }

  /* ---------------- remaining length ---------------- */

  /** The variable length encoding of MQTT 3.1.1 section 2.2.3: seven bits
      per byte, least significant group first, the top bit set on every byte
      but the last. */
  function EncodeRemainingLength(n: nat): (r: seq<byte>)
    ensures |r| >= 1
    ensures forall i | 0 <= i < |r| - 1 :: r[i] >= 128
    ensures r[|r| - 1] < 128
    decreases n
  {
    if n < 128 then [n] else [n % 128 + 128] + EncodeRemainingLength(n / 128)
  }

  /** Reads a remaining length back: its value and the number of bytes it
      took; None when the bytes end before a byte without the top bit. */
  function DecodeRemainingLength(bs: seq<byte>): Option<(nat, nat)>
  {
    if |bs| == 0 then None
    else if bs[0] < 128 then Some((bs[0], 1))
    else match DecodeRemainingLength(bs[1..])
      case None => None
      case Some((v, k)) => Some(((bs[0] - 128) + 128 * v, k + 1))
  }

  /** Decoding what was encoded gives the length back and stops right after
      it, whatever follows. */
  lemma {:induction false} RemainingLengthRoundTrip(n: nat, rest: seq<byte>)
    ensures DecodeRemainingLength(EncodeRemainingLength(n) + rest) == Some((n, |EncodeRemainingLength(n)|))
    decreases n
  {
    var e := EncodeRemainingLength(n);
    if n >= 128 {
      RemainingLengthRoundTrip(n / 128, rest);
      assert (e + rest)[1..] == EncodeRemainingLength(n / 128) + rest;
    }
  }

  /** The largest remaining length of MQTT 3.1.1 section 2.2.3. */
  const MaxRemainingLength: nat := 268435455

  /** The encoding takes at most four bytes exactly up to the maximum
      remaining length; one byte below 128, and one more byte per further
      factor 128. */
  lemma {:induction false} RemainingLengthSize(n: nat)
    ensures n < 128 <==> |EncodeRemainingLength(n)| == 1
    ensures n < 16384 <==> |EncodeRemainingLength(n)| <= 2
    ensures n < 2097152 <==> |EncodeRemainingLength(n)| <= 3
    ensures n <= MaxRemainingLength <==> |EncodeRemainingLength(n)| <= 4
    decreases n
  {
    if n >= 128 {
      RemainingLengthSize(n / 128);
    }
  }

  /* ---------------- writer and message ---------------- */

  /** MqttWriter: everything written so far. */
  class MqttWriter {
    var written: seq<byte>

    constructor ()
      ensures written == []
    {
      written := [];
    }

    method Write(bs: seq<byte>)
      modifies this
      ensures written == old(written) + bs
    {
      written := written + bs;
    }
  }

  /** NONE_PAYLOAD: the shared empty payload of messages that declare none. */
  const NonePayload: seq<byte> := []

  /** The bytes of a packet: first byte, remaining length, variable header,
      payload, in that order. */
  function Packet(h: FixedHeader, variableHeader: seq<byte>, payload: seq<byte>): seq<byte> {
    [FirstByte(h)] + EncodeRemainingLength(|variableHeader| + |payload|) + variableHeader + payload
  }

  /** MqttMessage: the fixed header is fixed at construction; the variable
      header and the payload stand for what getVariableHeader and getPayload
      of the concrete message encode, their preEncode being their length. */
  class MqttMessage {
    const fixedHeader: FixedHeader
    const variableHeader: seq<byte>
    const payload: seq<byte>

    /** A message that does not override getPayload. */
    constructor (h: FixedHeader, variableHeader: seq<byte>)
      ensures fixedHeader == h && this.variableHeader == variableHeader
      ensures payload == NonePayload
    {
      fixedHeader := h;
      this.variableHeader := variableHeader;
      payload := NonePayload;
    }

    constructor WithPayload(h: FixedHeader, variableHeader: seq<byte>, payload: seq<byte>)
      ensures fixedHeader == h && this.variableHeader == variableHeader && this.payload == payload
    {
      fixedHeader := h;
      this.variableHeader := variableHeader;
      this.payload := payload;
    }

    /** write: appends the four parts to the writer, the remaining length
        being the variable header's length plus the payload's. */
    method Write(w: MqttWriter)
      modifies w
      ensures w.written == old(w.written) + Packet(fixedHeader, variableHeader, payload)
    {
      w.Write([FirstByte(fixedHeader)]);
      var remainingLength := |variableHeader| + |payload|;
      w.Write(EncodeRemainingLength(remainingLength));
      w.Write(variableHeader);
      w.Write(payload);
    }
  }

  /** A written packet can be taken apart again: after the first byte, the
      remaining length decodes to the number of bytes that follow it, and
      those are the variable header followed by the payload. */
  lemma PacketLayoutRecovered(h: FixedHeader, variableHeader: seq<byte>, payload: seq<byte>)
    ensures var p := Packet(h, variableHeader, payload);
      && p[0] == FirstByte(h)
      && DecodeRemainingLength(p[1..]).Some?
      && var (n, k) := DecodeRemainingLength(p[1..]).value;
        && n == |p| - 1 - k
        && p[1 + k..] == variableHeader + payload
  {
    var e := EncodeRemainingLength(|variableHeader| + |payload|);
    var p := Packet(h, variableHeader, payload);
    assert p[1..] == e + (variableHeader + payload);
    RemainingLengthRoundTrip(|variableHeader| + |payload|, variableHeader + payload);
    assert p[1 + |e|..] == variableHeader + payload;
  }

  /* ---------------- packet identifier ---------------- */

  /** ByteBuffer: the bytes and the read position. */
  class ByteBuffer {
    const data: seq<byte>
    var position: nat

    constructor (data: seq<byte>)
      ensures this.data == data && position == 0
    {
      this.data := data;
      position := 0;
    }
  }

  datatype DecodeError = DecoderException | BufferUnderflow

  /** A two-byte integer, most significant byte first (MQTT 3.1.1 section
      1.5.2). */
  function MsbLsb(msb: byte, lsb: byte): (v: nat)
    ensures v < 65536
  {
    msb * 256 + lsb
  }

  /** decodeMessageId: reads two bytes as the packet identifier; zero is
      refused (MQTT 3.1.1 section 2.3.1), fewer than two remaining bytes
      cannot be read. */
  method DecodeMessageId(buffer: ByteBuffer) returns (r: Result<nat, DecodeError>)
    modifies buffer
    ensures old(buffer.position) + 2 > |buffer.data| <==> r == Failure(BufferUnderflow)
    ensures old(buffer.position) + 2 <= |buffer.data| ==>
      var v := MsbLsb(buffer.data[old(buffer.position)], buffer.data[old(buffer.position) + 1]);
      && buffer.position == old(buffer.position) + 2
      && r == (if v == 0 then Failure(DecoderException) else Success(v))
  {
    if buffer.position + 2 > |buffer.data| {
      return Failure(BufferUnderflow);
    }
    var messageId := MsbLsb(buffer.data[buffer.position], buffer.data[buffer.position + 1]);
    buffer.position := buffer.position + 2;
    if messageId == 0 {
      return Failure(DecoderException);
    }
    return Success(messageId);
  }

  /** The two bytes a packet identifier is written as. */
  function EncodeMessageId(id: nat): (r: seq<byte>)
    requires id < 65536
    ensures |r| == 2 && MsbLsb(r[0], r[1]) == id
  {
    [id / 256, id % 256]
  }
}
