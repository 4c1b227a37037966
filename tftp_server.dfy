/**
 * The packet-inspection helpers of the TFTP server: the opcode and error
 * tables, the ACK check, the ERROR check, the ACK buffer built from an
 * incoming packet, and the server-port range check. Packets follow the
 * layouts of section 5 of RFC 1350 (a 2-byte big-endian opcode first; an ACK
 * is opcode 4 followed by a 2-byte block number).
 */
module TftpServer {
  import opened PyBytes

  datatype Result<T, E> = Ok(value: T) | Err(error: E)

  /** The Python exceptions the helpers can raise. */
  datatype Exception = TypeError | IndexError

  const TerminateLength: nat := 512 + 4
  const EncodeMode: string := "netascii"

  /** Opcode names and their numeric values. */
  const Opcodes: map<string, nat> := map[
    "unknown" := 0,
    "read" := 1,
    "write" := 2,
    "data" := 3,
    "ack" := 4,
    "error" := 5
  ]

  /** Error codes and their messages. */
  const TftpErrors: map<nat, string> := map[
    0 := "Undefined error.",
    1 := "File not found.",
    2 := "Access violation.",
    3 := "Disk full or allocation exceeded.",
    4 := "Illegal TFTP operation.",
    5 := "Unknown TID.",
    6 := "File already exists.",
    7 := "No such user."
  ]

  /** Message the argument parser exits with for a port out of range. */
  const PortOutOfRange: string := "\tERROR(args): Server port out of range\n"

  /** No two opcode names share a value. */
  lemma OpcodesInjective()
    ensures forall a, b :: a in Opcodes && b in Opcodes && Opcodes[a] == Opcodes[b] ==> a == b
  {
  }

  /** The opcode values are exactly RFC 1350's five opcodes plus 0 for "unknown". */
  lemma OpcodeValues()
    ensures Opcodes.Values == {0, 1, 2, 3, 4, 5}
  {
    var names := ["unknown", "read", "write", "data", "ack", "error"];
    forall op | op in {0, 1, 2, 3, 4, 5} ensures op in Opcodes.Values {
      assert names[op] in Opcodes && Opcodes[names[op]] == op;
    }
  }

  /** The error table has exactly the eight error codes of RFC 1350. */
  lemma TftpErrorCodes()
    ensures TftpErrors.Keys == {0, 1, 2, 3, 4, 5, 6, 7}
  {
  }

  /** `int.from_bytes(packet[0:2], byteorder='big')`. */
  function Opcode(packet: seq<Byte>): (op: nat)
    ensures op < 65536
  {
    FromBytesBound(Slice(packet, 0, 2));
    FromBytesBig(Slice(packet, 0, 2))
  }

  /** `int.from_bytes(packet[2:4], byteorder='big')`. */
  function BlockNumber(packet: seq<Byte>): (n: nat)
    ensures n < 65536
  {
    FromBytesBound(Slice(packet, 2, 4));
    FromBytesBig(Slice(packet, 2, 4))
  }

  /**
   * The opcode as the clamped slice reads it: two bytes big-endian, or the
   * single byte of a one-byte packet, or 0 for an empty one.
   */
  lemma OpcodeOfBytes(packet: seq<Byte>)
    ensures Opcode(packet) ==
      if |packet| >= 2 then packet[0] as int * 256 + packet[1] as int
      else if |packet| == 1 then packet[0] as int
      else 0
  {
    FromBytesShort(Slice(packet, 0, 2));
  }

  /**
   * The block number as the clamped slice reads it: bytes 2 and 3
   * big-endian, or byte 2 alone in a three-byte packet, or 0.
   */
  lemma BlockNumberOfBytes(packet: seq<Byte>)
    ensures BlockNumber(packet) ==
      if |packet| >= 4 then packet[2] as int * 256 + packet[3] as int
      else if |packet| == 3 then packet[2] as int
      else 0
  {
    FromBytesShort(Slice(packet, 2, 4));
  }

  /**
   * `check_ack`: the block number of an ACK, whether or not it is the
   * expected `block`; a TypeError for any other opcode.
   */
  function CheckAck(packet: seq<Byte>, block: int): (r: Result<int, Exception>)
    ensures r.Ok? <==> Opcode(packet) == Opcodes["ack"]
    ensures r.Err? ==> r.error == TypeError
    ensures r.Ok? ==> r.value == BlockNumber(packet) && 0 <= r.value <= 65535
  {
    var opcode := Opcode(packet);
    var blockNum := BlockNumber(packet);
    if opcode == Opcodes["ack"] && blockNum == block then Ok(block)
    else if opcode == Opcodes["ack"] then Ok(blockNum)
    else Err(TypeError)
  }

  /** The bytes `check_ack` accepts as an ACK: 00 04, or a lone 04. */
  predicate AckOpcodeBytes(packet: seq<Byte>)
  {
    (|packet| >= 2 && packet[0] == 0 && packet[1] == 4) || (|packet| == 1 && packet[0] == 4)
  }

  /** The bytes `check_error` accepts as an ERROR: 00 05, or a lone 05. */
  predicate ErrorOpcodeBytes(packet: seq<Byte>)
  {
    (|packet| >= 2 && packet[0] == 0 && packet[1] == 5) || (|packet| == 1 && packet[0] == 5)
  }

  /** `check_ack` succeeds exactly on the ACK opcode bytes and otherwise raises TypeError. */
  lemma CheckAckAcceptsExactlyAcks(packet: seq<Byte>, block: int)
    ensures CheckAck(packet, block).Ok? <==> AckOpcodeBytes(packet)
    ensures !AckOpcodeBytes(packet) ==> CheckAck(packet, block) == Err(TypeError)
  {
    OpcodeOfBytes(packet);
  }

  /** The value `check_ack` returns for an ACK is the wire block field, whatever `block` is. */
  lemma CheckAckReturnsBlockField(packet: seq<Byte>, block: int)
    requires |packet| >= 4 && packet[0] == 0 && packet[1] == 4
    ensures CheckAck(packet, block) == Ok(packet[2] as int * 256 + packet[3] as int)
  {
    OpcodeOfBytes(packet);
    BlockNumberOfBytes(packet);
  }

  /** An ACK whose block field is the expected block returns that block. */
  lemma CheckAckExpected(packet: seq<Byte>, block: int)
    requires AckOpcodeBytes(packet) && BlockNumber(packet) == block
    ensures CheckAck(packet, block) == Ok(block)
  {
    OpcodeOfBytes(packet);
  }

  /**
   * A consequence of slice clamping: the one-byte packet 04 passes as an
   * ACK of block 0.
   */
  lemma OneByteAck(block: int)
    ensures CheckAck([4], block) == Ok(0)
  {
  }

  /** `check_error`: whether the packet's opcode is the ERROR opcode. */
  predicate CheckError(packet: seq<Byte>)
  {
    FromBytesBig(Slice(packet, 0, 2)) == Opcodes["error"]
  }

  /** `check_error` holds exactly on the ERROR opcode bytes. */
  lemma CheckErrorExactlyErrors(packet: seq<Byte>)
    ensures CheckError(packet) <==> ErrorOpcodeBytes(packet)
  {
    FromBytesShort(Slice(packet, 0, 2));
  }

  /** A packet that `check_error` flags is one `check_ack` rejects. */
  lemma ErrorIsNotAck(packet: seq<Byte>, block: int)
    requires CheckError(packet)
    ensures CheckAck(packet, block) == Err(TypeError)
  {
  }

  /**
   * The ACK buffer of `send_ack`: `packet[0:4]` copied with byte 1 set to 4;
   * an IndexError when fewer than two bytes were copied.
   */
  function AckOf(packet: seq<Byte>): (r: Result<seq<Byte>, Exception>)
    ensures r.Ok? <==> |packet| >= 2
    ensures r.Err? ==> r.error == IndexError
    ensures r.Ok? ==> |r.value| == Min(4, |packet|) && r.value[1] == 4
    ensures r.Ok? ==> forall i :: 0 <= i < |r.value| && i != 1 ==> r.value[i] == packet[i]
  {
    var ack := Slice(packet, 0, 4);
    if |ack| <= 1 then Err(IndexError) else Ok(ack[1 := 4])
  }

  /**
   * `send_ack` up to the send: copies `packet[0:4]` into a fresh buffer and
   * overwrites its second byte with the ACK opcode's low byte.
   */
  method BuildAck(packet: seq<Byte>) returns (r: Result<seq<Byte>, Exception>)
    ensures r == AckOf(packet)
  {
    var n := if |packet| < 4 then |packet| else 4;
    var ack := new Byte[n];
    var i := 0;
    while i < n
      invariant 0 <= i <= n
      invariant ack[..i] == packet[..i]
    {
      ack[i] := packet[i];
      i := i + 1;
    }
    assert ack[..] == Slice(packet, 0, 4);
    if n <= 1 {
      return Err(IndexError);
    }
    ghost var copied := ack[..];
    ack[1] := 4;
    assert ack[..] == copied[1 := 4];
    r := Ok(ack[..]);
  }

  /** An ACK packet as RFC 1350 lays it out: 00 04 followed by the block number. */
  function AckPacket(block: nat): (p: seq<Byte>)
    requires block < 65536
    ensures |p| == 4 && p[0] == 0 && p[1] == 4
  {
    [0, 4] + ToBytesBig(block, 2)
  }

  /** A DATA packet: 00 03, the block number, then the payload. */
  function DataPacket(block: nat, payload: seq<Byte>): (p: seq<Byte>)
    requires block < 65536
    ensures |p| == 4 + |payload| && p[0] == 0 && p[1] == 3
  {
    [0, 3] + ToBytesBig(block, 2) + payload
  }

  /** `check_ack` reads back the block number of every RFC 1350 ACK. */
  lemma CheckAckOfAckPacket(block: nat, expected: int)
    requires block < 65536
    ensures CheckAck(AckPacket(block), expected) == Ok(block)
  {
    var p := AckPacket(block);
    assert p[2..4] == ToBytesBig(block, 2);
    assert Slice(p, 2, 4) == p[2..4];
    FromToBytes(block, 2);
    OpcodeOfBytes(p);
  }

  /** The buffer `send_ack` builds from a DATA packet is the RFC 1350 ACK of its block. */
  lemma AckOfDataPacket(block: nat, payload: seq<Byte>)
    requires block < 65536
    ensures AckOf(DataPacket(block, payload)) == Ok(AckPacket(block))
  {
    var d := DataPacket(block, payload);
    var a := AckOf(d).value;
    assert a == AckPacket(block);
  }

  /**
   * The buffer built from a packet of at least two bytes whose first byte
   * is 0 is accepted by `check_ack`, which returns that packet's block
   * number (0 for a two-byte packet, byte 2 alone for a three-byte one).
   */
  lemma AckOfAccepted(packet: seq<Byte>, expected: int)
    requires |packet| >= 2 && packet[0] == 0
    ensures AckOf(packet).Ok?
    ensures CheckAck(AckOf(packet).value, expected) == Ok(BlockNumber(packet))
  {
    var a := AckOf(packet).value;
    OpcodeOfBytes(a);
    BlockNumberOfBytes(a);
    BlockNumberOfBytes(packet);
  }

  /**
   * For a packet of at least two bytes, `check_ack` accepts the buffer built
   * from it exactly when its first byte is 0.
   */
  lemma AckOfAcceptedIff(packet: seq<Byte>, expected: int)
    requires |packet| >= 2
    ensures CheckAck(AckOf(packet).value, expected).Ok? <==> packet[0] == 0
  {
    OpcodeOfBytes(AckOf(packet).value);
  }

  /** The buffer built by `send_ack` is never taken for an ERROR packet. */
  lemma AckOfIsNotError(packet: seq<Byte>)
    requires |packet| >= 2
    ensures !CheckError(AckOf(packet).value)
  {
  }

  /** The server-port check: accepted exactly in 5000..65535, else exit with a message. */
  function CheckServerPort(sp: int): (r: Result<nat, string>)
    ensures r.Ok? <==> 5000 <= sp <= 65535
    ensures r.Ok? ==> r.value == sp
    ensures r.Err? ==> r.error == PortOutOfRange
  {
    if sp < 5000 || sp > 65535 then Err(PortOutOfRange) else Ok(sp)
  }
}
