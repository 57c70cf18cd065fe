/**
 * The accessory wire format (crates/core/src/protocol.rs).
 * A frame is `[opcode][len][payload ...][crc hi][crc lo]`, where the CRC is
 * CRC-16/X.25 (the 16-bit FCS of RFC 1662, Appendix C.2) over the payload only.
 */
module Protocol {
  import opened Wrappers
  import opened Errors
  import opened Outcomes

  datatype MessageType =
    | BatteryStatus
    | AncControl
    | EarDetection
    | FirmwareInfo
    | SpatialAudio
    | HeartRate
    | FindMy
    | ConversationAwareness
    | HearingAid
    | DeviceRename
    | MultipointControl
    | AdaptiveTransparency
    | LongPressActions
    | CustomTransparency
    | HeadGestures

  /** The discriminant `msg_type as u8`. */
  function TypeByte(t: MessageType): (b: byte)
    ensures 0x01 <= b <= 0x0F
  {
    match t
    case BatteryStatus => 0x01
    case AncControl => 0x02
    case EarDetection => 0x03
    case FirmwareInfo => 0x04
    case SpatialAudio => 0x05
    case HeartRate => 0x06
    case FindMy => 0x07
    case ConversationAwareness => 0x08
    case HearingAid => 0x09
    case DeviceRename => 0x0A
    case MultipointControl => 0x0B
    case AdaptiveTransparency => 0x0C
    case LongPressActions => 0x0D
    case CustomTransparency => 0x0E
    case HeadGestures => 0x0F
  }

  /** The variants in discriminant order: `AllTypes[i]` has discriminant `i + 1`. */
  const AllTypes: seq<MessageType> := [
    BatteryStatus, AncControl, EarDetection, FirmwareInfo, SpatialAudio,
    HeartRate, FindMy, ConversationAwareness, HearingAid, DeviceRename,
    MultipointControl, AdaptiveTransparency, LongPressActions, CustomTransparency, HeadGestures]

  lemma AllTypesDiscriminants(i: int)
    requires 0 <= i < |AllTypes|
    ensures TypeByte(AllTypes[i]) == i + 1
  {
  }

  /**
   * `MessageType::from_u8`: decodes an opcode, rejecting every byte outside 0x01..0x0F
   * with `UnknownMessageType` of that byte. The match arms of the source are the
   * table `AllTypes`.
   */
  function FromU8(b: byte): (r: Result<MessageType>)
    ensures r.Ok? <==> 0x01 <= b <= 0x0F
    ensures r.Ok? ==> TypeByte(r.value) == b
    ensures r.Err? ==> r.error == UnknownMessageType(b)
  {
    if 0x01 <= b <= 0x0F then
      AllTypesDiscriminants(b - 1);
      Ok(AllTypes[b - 1])
    else Err(UnknownMessageType(b))
  }

  /** Every variant survives the trip through its discriminant. */
  lemma FromU8TypeByte(t: MessageType)
    ensures FromU8(TypeByte(t)) == Ok(t)
  {
  }

  // ---------------------------------------------------------------------
  // CRC-16/X.25, bit by bit: reflected polynomial 0x1021 (0x8408 reflected),
  // initial register 0xFFFF, final complement (xor 0xFFFF).

  /** One round of the reflected shift register. */
  function CrcStep(crc: bv16): bv16 {
    if crc & 1 == 1 then (crc >> 1) ^ 0x8408 else crc >> 1
  }

  /** Feeds one byte, least significant bit first: eight rounds after xoring the byte in. */
  function CrcByte(crc: bv16, b: bv8): bv16 {
    var c := crc ^ (b as bv16);
    CrcStep(CrcStep(CrcStep(CrcStep(CrcStep(CrcStep(CrcStep(CrcStep(c))))))))
  }

  /** The register after feeding `data` in order, starting from `crc`. */
  function CrcUpdate(crc: bv16, data: seq<bv8>): bv16
    decreases |data|
  {
    if data == [] then crc else CrcUpdate(CrcByte(crc, data[0]), data[1..])
  }

  /** The bytes as bit vectors, for the shift register. */
  function Bits(data: seq<byte>): (r: seq<bv8>)
    ensures |r| == |data|
  {
    seq(|data|, i requires 0 <= i < |data| => data[i] as bv8)
  }

  /** `Message::calculate_crc`: CRC-16/X.25 (the crate's CRC_16_IBM_SDLC). */
  function Crc16(data: seq<byte>): u16 {
    (CrcUpdate(0xFFFF, Bits(data)) ^ 0xFFFF) as int
  }

  /** Feeding a concatenation is feeding its parts in turn, so the CRC can be computed incrementally. */
  lemma {:induction false} CrcUpdateAppend(crc: bv16, a: seq<bv8>, b: seq<bv8>)
    ensures CrcUpdate(crc, a + b) == CrcUpdate(CrcUpdate(crc, a), b)
    decreases |a|
  {
    if a == [] {
      assert a + b == b;
    } else {
      assert (a + b)[0] == a[0];
      assert (a + b)[1..] == a[1..] + b;
      CrcUpdateAppend(CrcByte(crc, a[0]), a[1..], b);
    }
  }

  /** The catalogued check value of CRC-16/X.25: the CRC of the ASCII bytes "123456789" is 0x906E. */
  lemma Crc16CheckValue()
    ensures Crc16([0x31, 0x32, 0x33, 0x34, 0x35, 0x36, 0x37, 0x38, 0x39]) == 0x906E
  {
    var ascii: seq<byte> := [0x31, 0x32, 0x33, 0x34, 0x35, 0x36, 0x37, 0x38, 0x39];
    assert Bits(ascii) == [0x31, 0x32, 0x33, 0x34, 0x35, 0x36, 0x37, 0x38, 0x39];
    CheckValueRegister();
  }

  /** The register after each of the first three bytes of "123456789". */
  lemma CheckValueBytesFirst()
    ensures CrcByte(0xFFFF, 0x31) == 0x2F8D && CrcByte(0x2F8D, 0x32) == 0x4D53 && CrcByte(0x4D53, 0x33) == 0x634B
  {
  }

  /** The register after each of the middle three bytes of "123456789". */
  lemma CheckValueBytesMiddle()
    ensures CrcByte(0x634B, 0x34) == 0x8B13 && CrcByte(0x8B13, 0x35) == 0x44BF && CrcByte(0x44BF, 0x36) == 0x198D
  {
  }

  /** The register after each of the last three bytes of "123456789". */
  lemma CheckValueBytesLast()
    ensures CrcByte(0x198D, 0x37) == 0x1AC8 && CrcByte(0x1AC8, 0x38) == 0xF795 && CrcByte(0xF795, 0x39) == 0x6F91
  {
  }

  /** Feeding three bytes is three single-byte steps. */
  lemma CrcUpdateThree(crc: bv16, a: bv8, b: bv8, c: bv8)
    ensures CrcUpdate(crc, [a, b, c]) == CrcByte(CrcByte(CrcByte(crc, a), b), c)
  {
    assert [a, b, c][1..] == [b, c];
    assert [b, c][1..] == [c];
    assert [c][1..] == [];
    var ab := CrcByte(CrcByte(crc, a), b);
    assert CrcUpdate(crc, [a, b, c]) == CrcUpdate(CrcByte(crc, a), [b, c]);
    assert CrcUpdate(CrcByte(crc, a), [b, c]) == CrcUpdate(ab, [c]);
    assert CrcUpdate(ab, [c]) == CrcUpdate(CrcByte(ab, c), []);
  }

  /** The register trace of the check value, three bytes at a time. */
  lemma CheckValueRegister()
    ensures CrcUpdate(0xFFFF, [0x31, 0x32, 0x33, 0x34, 0x35, 0x36, 0x37, 0x38, 0x39]) == 0x6F91
  {
    var first: seq<bv8>, middle: seq<bv8>, last: seq<bv8> := [0x31, 0x32, 0x33], [0x34, 0x35, 0x36], [0x37, 0x38, 0x39];
    assert [0x31, 0x32, 0x33, 0x34, 0x35, 0x36, 0x37, 0x38, 0x39] == (first + middle) + last;
    CrcUpdateAppend(0xFFFF, first + middle, last);
    CrcUpdateAppend(0xFFFF, first, middle);
    CheckValueBytesFirst();
    CrcUpdateThree(0xFFFF, 0x31, 0x32, 0x33);
    CheckValueBytesMiddle();
    CrcUpdateThree(0x634B, 0x34, 0x35, 0x36);
    CheckValueBytesLast();
    CrcUpdateThree(0x198D, 0x37, 0x38, 0x39);
  }

  /**
   * RFC 1662, Appendix C.2: appending the complemented register least significant
   * byte first and running the register over the result always leaves the
   * "good FCS" residue 0xF0B8, whatever the data.
   */
  lemma Crc16GoodResidue(data: seq<byte>)
    ensures var fcs := CrcUpdate(0xFFFF, Bits(data)) ^ 0xFFFF;
            CrcUpdate(0xFFFF, Bits(data) + [(fcs & 0xFF) as bv8, (fcs >> 8) as bv8]) == 0xF0B8
  {
    var c := CrcUpdate(0xFFFF, Bits(data));
    var lo, hi := ((c ^ 0xFFFF) & 0xFF) as bv8, ((c ^ 0xFFFF) >> 8) as bv8;
    CrcUpdateAppend(0xFFFF, Bits(data), [lo, hi]);
    assert [lo, hi][1..] == [hi];
    assert [hi][1..] == [];
    assert CrcUpdate(c, [lo, hi]) == CrcUpdate(CrcByte(c, lo), [hi]);
    assert CrcUpdate(CrcByte(c, lo), [hi]) == CrcByte(CrcByte(c, lo), hi);
    ResidueOfRegister(c);
  }

  /** The sixteen-bit core of the residue property, for every register value. */
  lemma ResidueOfRegister(c: bv16)
    ensures CrcByte(CrcByte(c, ((c ^ 0xFFFF) & 0xFF) as bv8), ((c ^ 0xFFFF) >> 8) as bv8) == 0xF0B8
  {
  }

  // ---------------------------------------------------------------------
  // Frames.

  datatype Message = Message(msgType: MessageType, payload: seq<byte>, crc: u16)

  /** `Message::new`: the CRC covers the payload alone, never the opcode or the length byte. */
  function New(t: MessageType, payload: seq<byte>): Message {
    Message(t, payload, Crc16(payload))
  }

  /** Whether a message carries the CRC of its own payload, as every `New` message does. */
  predicate WellFormed(m: Message) {
    m.crc == Crc16(m.payload)
  }

  /** The two bytes of `crc.to_be_bytes()`. */
  function CrcHigh(crc: u16): byte { crc / 0x100 }
  function CrcLow(crc: u16): byte { crc % 0x100 }

  /** `u16::from_be_bytes([hi, lo])`. */
  function FromBeBytes(hi: byte, lo: byte): (r: u16)
    ensures CrcHigh(r) == hi && CrcLow(r) == lo
  {
    hi * 0x100 + lo
  }

  lemma FromBeBytesOfParts(crc: u16)
    ensures FromBeBytes(CrcHigh(crc), CrcLow(crc)) == crc
  {
  }

  /** `payload.len() as u8`: the length byte wraps around modulo 256. */
  function LengthByte(n: nat): (b: byte)
    ensures b == n % 256
  {
    n % 256
  }

  /**
   * `Message::serialize`: opcode, wrapped length byte, payload, then the stored CRC
   * big-endian. There is no payload-size guard.
   */
  function Serialize(m: Message): (r: seq<byte>)
    ensures |r| == 4 + |m.payload|
    ensures r[1] == |m.payload| % 256
  {
    [TypeByte(m.msgType), LengthByte(|m.payload|)] + m.payload + [CrcHigh(m.crc), CrcLow(m.crc)]
  }

  /** Where each field sits in a serialized frame. */
  lemma SerializeLayout(m: Message)
    ensures var r := Serialize(m);
      r[0] == TypeByte(m.msgType) && r[2..2 + |m.payload|] == m.payload &&
      FromBeBytes(r[2 + |m.payload|], r[3 + |m.payload|]) == m.crc
  {
    var r := Serialize(m);
    assert r[2..2 + |m.payload|] == m.payload;
    FromBeBytesOfParts(m.crc);
  }

  /**
   * `Message::parse` as written: the length guard admits `3 + len` bytes, but the CRC
   * read touches index `3 + len`, so an input of exactly `3 + len` bytes panics.
   */
  function ParseAsWritten(data: seq<byte>): (r: Outcome<Result<Message>>)
    ensures r.Panics? <==>
      |data| >= 3 && FromU8(data[0]).Ok? && |data| == 3 + data[1] as int
  {
    if |data| < 3 then Returns(Err(InvalidLength))
    else match FromU8(data[0])
      case Err(e) => Returns(Err(e))
      case Ok(t) =>
        var len := data[1] as int;
        if |data| < 3 + len then Returns(Err(InvalidLength))
        else if 3 + len >= |data| then Panics
        else
          var payload := data[2..2 + len];
          var crc := FromBeBytes(data[2 + len], data[3 + len]);
          if Crc16(payload) != crc then Returns(Err(CrcMismatch))
          else Returns(Ok(Message(t, payload, crc)))
  }

  /** The shortest input that reaches the out-of-bounds read: opcode 0x01, empty payload, one trailing byte. */
  lemma ParseAsWrittenPanicsOnShortFrame()
    ensures ParseAsWritten([0x01, 0x00, 0x00]) == Panics
  {
  }

  /** The frame length a header announces: opcode, length byte, payload and two CRC bytes. */
  function FrameLength(data: seq<byte>): nat
    requires |data| >= 2
  {
    4 + data[1] as int
  }

  /**
   * `Message::parse` with the length guard corrected to `4 + len`, the length its
   * own reads need; the rest of this model uses this definition.
   */
  function Parse(data: seq<byte>): (r: Result<Message>)
    ensures |data| < 3 ==> r == Err(InvalidLength)
    ensures |data| >= 3 && FromU8(data[0]).Err? ==> r == Err(UnknownMessageType(data[0]))
    ensures |data| >= 3 && FromU8(data[0]).Ok? && |data| < FrameLength(data) ==> r == Err(InvalidLength)
    ensures r == Err(CrcMismatch) <==>
      |data| >= 3 && FromU8(data[0]).Ok? && |data| >= FrameLength(data) &&
      Crc16(data[2..2 + data[1]]) != FromBeBytes(data[2 + data[1]], data[3 + data[1]])
    ensures r.Ok? ==> WellFormed(r.value) && |data| >= FrameLength(data)
  {
    if |data| < 3 then Err(InvalidLength)
    else match FromU8(data[0])
      case Err(e) => Err(e)
      case Ok(t) =>
        var len := data[1] as int;
        if |data| < 4 + len then Err(InvalidLength)
        else
          var payload := data[2..2 + len];
          var crc := FromBeBytes(data[2 + len], data[3 + len]);
          if Crc16(payload) != crc then Err(CrcMismatch)
          else Ok(Message(t, payload, crc))
  }

  /** Serialization inverts parsing: a parsed message re-serializes to exactly the frame it was read from. */
  lemma ParseInverse(data: seq<byte>)
    requires Parse(data).Ok?
    ensures Serialize(Parse(data).value) == data[..FrameLength(data)]
  {
    var m := Parse(data).value;
    var len := data[1] as int;
    assert m.payload == data[2..2 + len];
    assert m.crc == FromBeBytes(data[2 + len], data[3 + len]);
    FrameOfParts(data, m);
  }

  lemma FrameSplit(data: seq<byte>, len: nat)
    requires |data| >= 4 + len
    ensures data[..4 + len] == [data[0], data[1]] + data[2..2 + len] + [data[2 + len], data[3 + len]]
  {
  }

  /** A frame assembled from a message's own header bytes and CRC bytes is its serialization. */
  lemma SerializeFrame(m: Message, t: byte, n: byte, hi: byte, lo: byte)
    requires t == TypeByte(m.msgType) && n == |m.payload| % 256
    requires m.crc == FromBeBytes(hi, lo)
    ensures Serialize(m) == [t, n] + m.payload + [hi, lo]
  {
  }

  /** An input that starts with a message's parts begins with that message's serialization. */
  lemma FrameOfParts(input: seq<byte>, m: Message)
    requires |input| >= 2 && |input| >= FrameLength(input)
    requires FromU8(input[0]) == Ok(m.msgType)
    requires m.payload == input[2..2 + input[1]]
    requires m.crc == FromBeBytes(input[2 + input[1]], input[3 + input[1]])
    ensures input[..FrameLength(input)] == Serialize(m)
  {
    var len := input[1] as int;
    assert TypeByte(m.msgType) == input[0];
    assert input[1] == |m.payload| % 256;
    SerializeFrame(m, input[0], input[1], input[2 + len], input[3 + len]);
    FrameSplit(input, len);
  }

  lemma SplitAt(s: seq<byte>, k: nat)
    requires k <= |s|
    ensures s == s[..k] + s[k..]
  {
  }

  /** Wherever the as-written parser returns at all, it returns what the corrected one does. */
  lemma ParseAsWrittenAgrees(data: seq<byte>)
    ensures ParseAsWritten(data).Returns? ==> ParseAsWritten(data).value == Parse(data)
    ensures ParseAsWritten(data).Panics? ==> Parse(data) == Err(InvalidLength)
  {
  }

  /** Bytes after the announced frame are ignored. */
  lemma {:induction false} ParseIgnoresTrailing(data: seq<byte>, extra: seq<byte>)
    requires |data| >= 2 && |data| >= FrameLength(data)
    ensures Parse(data + extra) == Parse(data)
  {
    var d := data + extra;
    assert d[0] == data[0] && d[1] == data[1];
    var len := data[1] as int;
    assert d[2..2 + len] == data[2..2 + len];
    assert d[2 + len] == data[2 + len] && d[3 + len] == data[3 + len];
  }

  /** The round trip: a message built by `New` with at most 255 payload bytes parses back to itself. */
  lemma RoundTrip(t: MessageType, p: seq<byte>)
    requires |p| <= 255
    ensures Parse(Serialize(New(t, p))) == Ok(New(t, p))
    ensures ParseAsWritten(Serialize(New(t, p))) == Returns(Ok(New(t, p)))
  {
    ParseSerialized(t, p);
    ParseAsWrittenAgrees(Serialize(New(t, p)));
  }

  lemma ParseSerialized(t: MessageType, p: seq<byte>)
    requires |p| <= 255
    ensures Parse(Serialize(New(t, p))) == Ok(New(t, p))
  {
    var m := New(t, p);
    var s := Serialize(m);
    SerializeLayout(m);
    FromU8TypeByte(t);
    ParseOfFrame(s, t, p);
  }

  /** A frame whose fields are a known opcode, the payload's length, the payload and its CRC parses to that message. */
  lemma ParseOfFrame(data: seq<byte>, t: MessageType, p: seq<byte>)
    requires |p| <= 255 && |data| >= 4 + |p|
    requires FromU8(data[0]) == Ok(t) && data[1] as int == |p| && data[2..2 + |p|] == p
    requires FromBeBytes(data[2 + |p|], data[3 + |p|]) == Crc16(p)
    ensures Parse(data) == Ok(Message(t, p, Crc16(p)))
  {
  }

  /** Above 255 bytes the length byte wraps, so the round trip cannot succeed: the bound is tight. */
  lemma LongPayloadDoesNotRoundTrip(t: MessageType, p: seq<byte>)
    requires |p| > 255
    ensures Parse(Serialize(New(t, p))) != Ok(New(t, p))
  {
    var s := Serialize(New(t, p));
    if Parse(s).Ok? {
      assert |Parse(s).value.payload| == s[1] < |p|;
    }
  }
}
