/**
 * The combinator-based frame reader (crates/core/src/parser.rs). It threads the
 * input through `be_u8`, `take(len)` and `take(2)`; it never reads out of bounds
 * and never checks the CRC it reads.
 */
module Parser {
  import opened Wrappers
  import opened Errors
  import opened Protocol

  /** nom's error kinds that these parsers can produce. */
  datatype ErrorKind = Eof | Verify

  /** `IResult<&[u8], T>`: the unconsumed input and a value, or an error at some input position. */
  datatype ParseResult<T> = Done(rest: seq<byte>, value: T) | Failure(at: seq<byte>, kind: ErrorKind)

  /** `parse_message`. */
  function ParseMessage(input: seq<byte>): (r: ParseResult<Message>)
    ensures r.Failure? <==>
      |input| == 0 || FromU8(input[0]).Err? || |input| < 2 || |input| < FrameLength(input)
    ensures |input| > 0 && FromU8(input[0]).Err? ==> r == Failure(input[1..], Verify)
    ensures r.Done? ==> |input| == 4 + |r.value.payload| + |r.rest|
  {
    if |input| == 0 then Failure(input, Eof)
    else match FromU8(input[0])
      case Err(_) => Failure(input[1..], Verify)
      case Ok(t) =>
        if |input| < 2 then Failure(input[1..], Eof)
        else
          var len := input[1] as int;
          if |input| < 2 + len then Failure(input[2..], Eof)
          else if |input| < 4 + len then Failure(input[2 + len..], Eof)
          else
            var m := Message(t, input[2..2 + len], FromBeBytes(input[2 + len], input[3 + len]));
            Done(input[4 + len..], m)
  }

  /**
   * A successful read consumes exactly one frame, opcode through CRC, and returns
   * the untouched remainder.
   */
  lemma ParseMessageConsumes(input: seq<byte>)
    requires ParseMessage(input).Done?
    ensures input == Serialize(ParseMessage(input).value) + ParseMessage(input).rest
  {
    FrameOfParts(input, ParseMessage(input).value);
    SplitAt(input, FrameLength(input));
  }

  /**
   * Every serialized frame is read back whole, leaving whatever followed it, whatever
   * CRC it carries: the reader accepts corrupted frames.
   */
  lemma ParseMessageAnyCrc(m: Message, rest: seq<byte>)
    requires |m.payload| <= 255
    ensures ParseMessage(Serialize(m) + rest) == Done(rest, m)
  {
    var input := Serialize(m) + rest;
    var p := m.payload;
    SerializeLayout(m);
    assert input[0] == TypeByte(m.msgType);
    FromU8TypeByte(m.msgType);
    assert input[1] as int == |p|;
    assert input[2..2 + |p|] == p;
    assert input[2 + |p|] == Serialize(m)[2 + |p|] && input[3 + |p|] == Serialize(m)[3 + |p|];
    assert input[4 + |p|..] == rest;
  }

  /**
   * On a frame built by `Message::new` this reader and the checking parser agree,
   * and nothing is left over.
   */
  lemma ParseMessageAgreesWithParse(t: MessageType, p: seq<byte>)
    requires |p| <= 255
    ensures ParseMessage(Serialize(New(t, p))) == Done([], New(t, p))
    ensures Parse(Serialize(New(t, p))) == Ok(ParseMessage(Serialize(New(t, p))).value)
  {
    ParseMessageAnyCrc(New(t, p), []);
    assert Serialize(New(t, p)) + [] == Serialize(New(t, p));
    RoundTrip(t, p);
  }

  /** A frame whose CRC is wrong: the checking parser rejects it, this reader accepts it. */
  lemma CorruptedFrameAccepted()
    ensures Parse([0x01, 0x00, 0x12, 0x34]) == Err(CrcMismatch)
    ensures ParseMessage([0x01, 0x00, 0x12, 0x34]) == Done([], Message(BatteryStatus, [], 0x1234))
  {
    assert Crc16([]) == 0x0000;
    assert FromBeBytes(0x12, 0x34) == 0x1234;
  }

  /** `parse_battery_status`: the three levels (left, right, case) from the first three payload bytes. */
  function ParseBatteryStatus(payload: seq<byte>): (r: Result<(byte, byte, byte)>)
    ensures r.Err? <==> |payload| < 3
    ensures r.Err? ==> r.error == InvalidLength
    ensures r.Ok? ==> r.value == (payload[0], payload[1], payload[2])
  {
    if |payload| < 3 then Err(InvalidLength) else Ok((payload[0], payload[1], payload[2]))
  }

  /** Bytes after the third are ignored. */
  lemma BatteryStatusIgnoresExtra(payload: seq<byte>, extra: seq<byte>)
    requires |payload| >= 3
    ensures ParseBatteryStatus(payload + extra) == ParseBatteryStatus(payload)
  {
  }
}
