/** Values shared by every part of the TFTP engine: bytes, 16-bit words,
    the protocol constants and the in-memory packet records. */
module Wire {

  datatype Option<+T> = None | Some(value: T)

  /** An unsigned 8-bit value (`std::uint8_t`). */
  type byte = x: int | 0 <= x < 0x100

  /** An unsigned 16-bit value (`std::uint16_t`). */
  type u16 = x: int | 0 <= x < 0x1_0000

  /** The contents of a `std::string`: its bytes, without terminator. */
  type Str = seq<byte>

  /** The byte string of an ASCII literal. */
  function Ascii(s: string): (r: Str)
    requires forall i :: 0 <= i < |s| ==> s[i] < 128 as char
    ensures |r| == |s|
    ensures forall i :: 0 <= i < |s| ==> r[i] == s[i] as int
  {
    seq(|s|, i requires 0 <= i < |s| => s[i] as int)
  }

  /** Truncation of an unsigned value to 16 bits, as an assignment to a
      `std::uint16_t` performs it. */
  function ToU16(x: nat): (r: u16)
    ensures x < 0x1_0000 ==> r == x
  {
    x % 0x1_0000
  }

  /** The two bytes of a 16-bit word, high byte first (network order). */
  function BigEndian(x: u16): (r: seq<byte>)
    ensures |r| == 2 && r[0] as int * 256 + r[1] == x
  {
    [x / 256, x % 256]
  }

  // Opcodes (RFC 1350, section 5)
  const OP_RRQ: u16 := 1
  const OP_WRQ: u16 := 2
  const OP_DATA: u16 := 3
  const OP_ACK: u16 := 4
  const OP_ERROR: u16 := 5

  // Error codes (RFC 1350, appendix)
  const ERRCODE_UNDEFINED: u16 := 0
  const ERRCODE_FILE_NOT_FOUND: u16 := 1
  const ERRCODE_ACCESS_VIOLATION: u16 := 2
  const ERRCODE_DISK_FULL: u16 := 3
  const ERRCODE_ILLEGAL_OP: u16 := 4
  const ERRCODE_UNKNOWN_TRANSFER_ID: u16 := 5
  const ERRCODE_FILE_ALREADY_EXISTS: u16 := 6
  const ERRCODE_FILE_NO_SUCH_USER: u16 := 7

  const DEFAULT_TFTP_PORT: u16 := 69
  const MAX_PACKET_SIZE: nat := 4096
  /** The payload size of a full DATA block; the code calls it
      `DEFAULT_DATA_SIZE`, defined as `DEFAULT_BLOCK_SIZE`. */
  const DEFAULT_DATA_SIZE: nat := 512
  const DEFAULT_RETRY_TIMEOUT_SEC: nat := 1
  const DEFAULT_RETRY_COUNTER: int := 5

  // Characters the netascii filters and the file-name checks look at
  const NUL: byte := 0
  const LF: byte := 10
  const CR: byte := 13

  // The messages of the ERROR packets the server and the clients send
  const MSG_INVALID_PATH_OR_MODE: Str := Ascii("invalid path or mode")
  const MSG_FILE_NOT_FOUND: Str := Ascii("file not found")
  const MSG_INVALID_PATH: Str := Ascii("invalid path")
  const MSG_CANNOT_OPEN_FOR_WRITING: Str := Ascii("cannot open file for writing")
  const MSG_CANNOT_READ_DATA: Str := Ascii("cannot read data")

  /** The in-memory packet records; every variant carries `op` like the
      common base `packet::m_op`. Options of a file request form a map, as
      `std::map<std::string, std::string>` does. */
  datatype Packet =
    | FileReq(op: u16, filename: Str, mode: Str, options: map<Str, Str>)
    | DataPkt(op: u16, blockNo: u16, data: seq<byte>)
    | AckPkt(op: u16, blockNo: u16)
    | ErrorPkt(op: u16, errorCode: u16, message: Str)

  /** A UDP endpoint: an address and a port. */
  datatype Endpoint = Endpoint(address: nat, port: u16)

  /** One datagram handed to a socket: destination and bytes. */
  datatype Datagram = Datagram(to: Endpoint, bytes: seq<byte>)
}
