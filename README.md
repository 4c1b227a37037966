# TFTP server packet helpers

This project models the packet-inspection layer of a small TFTP server
(`tftp_server.py`). The packets follow section 5 of RFC 1350: a 2-byte
big-endian opcode comes first, and an ACK is opcode 4 followed by a 2-byte
block number. The layer has five parts:

- the `OPCODES` and `TFTP_ERRORS` tables;
- `check_ack`, which returns the block number of an ACK and raises
  `TypeError` for anything else;
- `check_error`, which tells whether a packet carries the ERROR opcode;
- the ACK buffer that `send_ack` builds. It copies the first four bytes of an
  incoming packet and sets byte 1 to 4;
- the server-port range check done at startup.

The source writes these helpers as methods without `self`, using the bare
names `OPCODES`, `s` and `server`. The model makes them free functions over
the class constants.

Packets are `seq<Byte>` with bytes in 0..255. Two Python behaviours are
modelled exactly, in module `PyBytes`:

- slicing clamps its bounds (`Slice`), so `packet[2:4]` on a 3-byte packet
  is one byte long;
- `int.from_bytes(..., byteorder='big')` reads any number of bytes
  (`FromBytesBig`), so the empty slice reads as 0.

As a result, short packets are never rejected for being short. The
one-byte packet `04` passes `check_ack` as an ACK of block 0, and the
one-byte packet `05` passes `check_error`. A protocol description of this
server would reject truncated fixed-width fields as malformed. The model
follows the code, which clamps.

Exceptions become a `Result` whose error is an `Exception` (`TypeError`
for a non-ACK in `check_ack`, `IndexError` for the write to byte 1 of a
buffer shorter than two bytes in `send_ack`). The ACK buffer is built
imperatively by `BuildAck`, which fills a fresh array and patches byte 1.
It is proved equal to the function `AckOf`, and the properties are proved
about `AckOf`.

## Model

| member | source | states |
|---|---|---|
| PyBytes.Slice | tftp_server.py:51-52 | a slice has the clamped length, and each of its bytes is the source byte at the offset plus the start |
| PyBytes.FromBytesBig | tftp_server.py:51-52 | `int.from_bytes(..., byteorder='big')` on any number of bytes; it has no contract of its own, and its meaning is given by FromBytesBound, FromBytesShort, FromToBytes and ToFromBytes |
| PyBytes.FromBytesBound | tftp_server.py:52 | a big-endian value read from k bytes is below 256^k, so a 2-byte field is at most 65535 |
| PyBytes.FromBytesShort | tftp_server.py:51-52 | reading 2 bytes gives b0*256+b1, 1 byte gives b0, and no bytes gives 0 |
| PyBytes.FromToBytes | tftp_server.py:51-52 | reading back a number written big-endian in k bytes gives the number, when it fits |
| PyBytes.ToFromBytes | tftp_server.py:51-52 | writing back a big-endian value at its own width gives the original bytes |
| TftpServer.OpcodesInjective | tftp_server.py:15-22 | no two opcode names map to the same value |
| TftpServer.OpcodeValues | tftp_server.py:15-22 | the opcode values are exactly 0..5: "unknown" plus the five RFC 1350 opcodes |
| TftpServer.TftpErrorCodes | tftp_server.py:24-33 | the error table's codes are exactly 0..7 |
| TftpServer.Opcode | tftp_server.py:51 | the decoded opcode fits in 16 bits |
| TftpServer.BlockNumber | tftp_server.py:52 | the decoded block number fits in 16 bits |
| TftpServer.OpcodeOfBytes | tftp_server.py:51 | the opcode is bytes 0-1 big-endian, or the lone byte of a 1-byte packet, or 0 for an empty packet |
| TftpServer.BlockNumberOfBytes | tftp_server.py:52 | the block number is bytes 2-3 big-endian, or byte 2 alone in a 3-byte packet, or 0 |
| TftpServer.CheckAck | tftp_server.py:49-61 | succeeds iff the opcode is the ACK opcode and otherwise raises TypeError; on success it returns the packet's block field, in 0..65535, in both branches |
| TftpServer.CheckAckAcceptsExactlyAcks | tftp_server.py:51-61 | check_ack succeeds iff the packet starts 00 04 or is the single byte 04; any other packet raises TypeError |
| TftpServer.CheckAckReturnsBlockField | tftp_server.py:51-58 | for a packet starting 00 04 with at least 4 bytes, check_ack returns bytes 2-3 big-endian, whatever block was expected |
| TftpServer.CheckAckExpected | tftp_server.py:54-55 | an ACK whose block field equals the expected block returns exactly that block |
| TftpServer.OneByteAck | tftp_server.py:51-58 | slice clamping makes the 1-byte packet 04 an ACK of block 0 |
| TftpServer.CheckError | tftp_server.py:64-67 | whether the opcode read from the clamped `packet[0:2]` is the ERROR opcode; it has no contract of its own, and its meaning is given by CheckErrorExactlyErrors |
| TftpServer.CheckErrorExactlyErrors | tftp_server.py:64-67 | check_error holds iff the packet starts 00 05 or is the single byte 05 |
| TftpServer.ErrorIsNotAck | tftp_server.py:57-67 | a packet that check_error flags makes check_ack raise TypeError |
| TftpServer.AckOf | tftp_server.py:40-41 | the buffer exists iff the packet has at least 2 bytes, else IndexError; its length is min(4, len), byte 1 is 4, and bytes 0, 2 and 3 are copied unchanged |
| TftpServer.BuildAck | tftp_server.py:40-41 | copying the first four bytes into a buffer and then writing 4 at index 1 yields exactly AckOf, including its IndexError |
| TftpServer.CheckAckOfAckPacket | tftp_server.py:49-58 | check_ack reads back the block number of every RFC 1350 ACK packet 00 04 hi lo |
| TftpServer.AckOfDataPacket | tftp_server.py:40-41 | the buffer built from a DATA packet for block n is the RFC 1350 ACK for block n |
| TftpServer.AckOfAccepted | tftp_server.py:40-58 | the buffer built from a packet of at least 2 bytes whose first byte is 0 passes check_ack, which returns that packet's block number as the clamped slice reads it |
| TftpServer.AckOfAcceptedIff | tftp_server.py:40-61 | for a packet of at least 2 bytes, check_ack accepts the buffer built from it iff the packet's first byte is 0 |
| TftpServer.AckOfIsNotError | tftp_server.py:40-41 | the buffer built by send_ack is never taken for an ERROR packet by check_error |
| TftpServer.CheckServerPort | tftp_server.py:94-96 | the port is accepted, unchanged, iff 5000 <= sp <= 65535; otherwise the program exits with the out-of-range message |

## Left out

- Socket creation and binding in `__init__` (tftp_server.py:35-37): network I/O.
- The `sendto` in `send_ack` (tftp_server.py:42): network I/O. The model stops at the buffer it would send.
- `run` (tftp_server.py:69-80): receive/select plumbing over sockets. It calls `accept` on a datagram socket and uses an undefined `read_sockets`, so it has no logic that can be stated.
- `stop` (tftp_server.py:82-83): an empty stub.
- The `threading.Thread` base class and `.start()` (tftp_server.py:10, 99-100): concurrency.
- Argument parsing and `parser.exit` (tftp_server.py:88-95): a library wrapper. Only the numeric range test and the exit message are modelled, in `CheckServerPort`. `parser.exit` is called with its default status 0 and writes the message to stderr; neither the exit status nor the output stream is modelled, and `Err` means only that the program stops there.
- `print` calls (tftp_server.py:71, 78, 97): console output.
- `TERMINATE_LENGTH` and `ENCODE_MODE` (tftp_server.py:11-12): declared as constants only, because no modelled logic uses them.
- Transfer sessions, retries, timeouts, block sequencing and an endpoint registry are not in this source file, so they are not modelled.
- A `NameError` from the bare names `OPCODES`, `s` and `server`, and a `TypeError` from calling the helpers without `self`, are not modelled. The helpers are modelled as if those names resolved to the class constants.
