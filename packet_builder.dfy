/** Encoding of the DATA, ACK and ERROR records into datagrams (RFC 1350,
    section 5), and the round trips with the parser. */
module PacketBuilder {
  import opened Wire
  import opened PacketParser

  /** Appends fields to a growing buffer; it never changes what is already
      there. */
  class Serializer {
    var buffer: seq<byte>

    constructor (buffer: seq<byte>)
      ensures this.buffer == buffer
    {
      this.buffer := buffer;
    }

    method WriteUint8(value: byte)
      modifies this
      ensures buffer == old(buffer) + [value]
    {
      buffer := buffer + [value];
    }

    /** High byte, then low byte. */
    method WriteUint16(value: u16)
      modifies this
      ensures buffer == old(buffer) + BigEndian(value)
    {
      WriteUint8(value / 256);
      WriteUint8(value % 256);
    }

    /** The characters one by one, then exactly one NUL. */
    method WriteString(str: Str)
      modifies this
      ensures buffer == old(buffer) + Field(str)
    {
      for i := 0 to |str|
        invariant buffer == old(buffer) + str[..i]
      {
        buffer := buffer + [str[i]];
      }
      WriteUint8(NUL);
    }

    method WriteBytes(bytes: seq<byte>)
      modifies this
      ensures buffer == old(buffer) + bytes
    {
      buffer := buffer + bytes;
    }
  }

  /** Wire layout of a DATA record: opcode, block number, payload. */
  function EncodeData(p: Packet): seq<byte>
    requires p.DataPkt?
  {
    BigEndian(p.op) + BigEndian(p.blockNo) + p.data
  }

  /** Wire layout of an ACK record: opcode, block number. */
  function EncodeAck(p: Packet): seq<byte>
    requires p.AckPkt?
  {
    BigEndian(p.op) + BigEndian(p.blockNo)
  }

  /** Wire layout of an ERROR record: opcode, code, message field. */
  function EncodeError(p: Packet): seq<byte>
    requires p.ErrorPkt?
  {
    BigEndian(p.op) + BigEndian(p.errorCode) + Field(p.message)
  }

  /** `build_packet(const packet_data&)`. */
  method BuildData(p: Packet) returns (r: seq<byte>)
    requires p.DataPkt?
    ensures r == EncodeData(p)
  {
    var s := new Serializer([]);
    s.WriteUint16(p.op);
    s.WriteUint16(p.blockNo);
    s.WriteBytes(p.data);
    r := s.buffer;
  }

  /** `build_packet(const packet_error&)`. */
  method BuildError(p: Packet) returns (r: seq<byte>)
    requires p.ErrorPkt?
    ensures r == EncodeError(p)
  {
    var s := new Serializer([]);
    s.WriteUint16(p.op);
    s.WriteUint16(p.errorCode);
    s.WriteString(p.message);
    r := s.buffer;
  }

  /** `build_packet(const packet_ack&)`. */
  method BuildAck(p: Packet) returns (r: seq<byte>)
    requires p.AckPkt?
    ensures r == EncodeAck(p)
  {
    var s := new Serializer([]);
    s.WriteUint16(p.op);
    s.WriteUint16(p.blockNo);
    r := s.buffer;
  }

  /** Wire layout of an RRQ or WRQ without options (RFC 1350, section 5):
      opcode, file name field, mode field. The clients send such requests,
      but the code has no such `build_packet` overload to follow. */
  function EncodeRequest(op: u16, filename: Str, mode: Str): seq<byte>
  {
    BigEndian(op) + Field(filename) + Field(mode)
  }

  // ---------------------------------------------------------------------
  // Sizes and round trips

  lemma EncodedSizes(p: Packet)
    ensures p.DataPkt? ==> |EncodeData(p)| == 4 + |p.data|
    ensures p.AckPkt? ==> |EncodeAck(p)| == 4
    ensures p.ErrorPkt? ==> |EncodeError(p)| == 5 + |p.message|
  {
  }

  lemma U16AtBigEndian(b: seq<byte>, i: nat, x: u16)
    requires i + 2 <= |b| && b[i..i + 2] == BigEndian(x)
    ensures U16At(b, i) == x
  {
    assert b[i] == b[i..i + 2][0] && b[i + 1] == b[i..i + 2][1];
  }

  /** A DATA record written with opcode 3 decodes to itself, whatever the
      payload length. */
  lemma DataRoundTrip(p: Packet)
    requires p.DataPkt? && p.op == OP_DATA
    ensures Parse(EncodeData(p)) == Some(p)
  {
    var b := EncodeData(p);
    U16AtBigEndian(b, 0, p.op);
    U16AtBigEndian(b, 2, p.blockNo);
    assert b[4..] == p.data;
  }

  /** An ACK record written with opcode 4 decodes to itself. */
  lemma AckRoundTrip(p: Packet)
    requires p.AckPkt? && p.op == OP_ACK
    ensures Parse(EncodeAck(p)) == Some(p)
  {
    var b := EncodeAck(p);
    U16AtBigEndian(b, 0, p.op);
    U16AtBigEndian(b, 2, p.blockNo);
  }

  /** An ERROR record written with opcode 5 decodes to itself exactly when
      its message holds no NUL; with one, the bytes after it are trailing
      data and the datagram is rejected. */
  lemma ErrorRoundTrip(p: Packet)
    requires p.ErrorPkt? && p.op == OP_ERROR
    ensures NUL !in p.message ==> Parse(EncodeError(p)) == Some(p)
    ensures NUL in p.message ==> Parse(EncodeError(p)).None?
  {
    var b := EncodeError(p);
    U16AtBigEndian(b, 0, p.op);
    U16AtBigEndian(b, 2, p.errorCode);
    assert b[4..] == Field(p.message);
    if NUL !in p.message {
      assert b[4..4 + |p.message| + 1] == Field(p.message);
      StringAtField(b, 4, p.message);
    } else {
      ErrorLayout(b);
      var k :| 0 <= k < |p.message| && p.message[k] == NUL;
      assert b[4..|b| - 1][k] == NUL;
    }
  }

  /** Every datagram the parser accepts as DATA, ACK or ERROR is exactly the
      encoding of what it decodes to. */
  lemma DecodeEncode(b: seq<byte>)
    requires Parse(b).Some? && !Parse(b).value.FileReq?
    ensures Parse(b).value.DataPkt? ==> EncodeData(Parse(b).value) == b
    ensures Parse(b).value.AckPkt? ==> EncodeAck(Parse(b).value) == b
    ensures Parse(b).value.ErrorPkt? ==> EncodeError(Parse(b).value) == b
  {
    ParseOpcode(b);
    var p := Parse(b).value;
    assert b == b[..2] + b[2..4] + b[4..];
    assert b[..2] == BigEndian(U16At(b, 0));
    assert b[2..4] == BigEndian(U16At(b, 2));
    if p.ErrorPkt? {
      ErrorLayout(b);
      assert b[4..] == b[4..|b| - 1] + [NUL];
    }
  }

  /** A request without NUL in its name or mode decodes to itself, with
      no options. */
  lemma RequestRoundTrip(op: u16, filename: Str, mode: Str)
    requires op == OP_RRQ || op == OP_WRQ
    requires NUL !in filename && NUL !in mode
    ensures Parse(EncodeRequest(op, filename, mode)) == Some(FileReq(op, filename, mode, map[]))
  {
    ParseFileReqLayout(op, filename, mode, []);
    assert EncodeRequest(op, filename, mode) == BigEndian(op) + Field(filename) + Field(mode) + OptionFields([]);
  }
}
