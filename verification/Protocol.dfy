/** Packet classification: the headers and opcodes the session branches on. */
module Protocol {
  import opened Basics

  const HANDSHAKE: seq<byte> := [0, 0, 4, 0, 1, 0, 2, 0, 0, 0, 0, 0, 0, 0, 0, 0]
  const HOST_CAPS_D7: seq<byte> := [4, 0, 4, 0, 0x4D, 0, 0xD7, 0, 0, 0, 0, 0, 0, 0]
  const REQUEST_NOTIFY_5: seq<byte> := [4, 0, 4, 0, 0x0F, 0, 0xFF, 0xFF, 0xFF, 0xFF, 0xFF]

  const STD_HEADER: seq<byte> := [4, 0, 4, 0]
  const ACK_HEADER: seq<byte> := [1, 0, 4, 0]

  const OP_BATTERY := 0x0004
  const OP_FEATURES_ACK := 0x002B
  const NO_OPCODE := 0xFFFF

  predicate HasStdHeader(p: seq<byte>) {
    STD_HEADER <= p
  }

  predicate IsHandshakeAck(p: seq<byte>) {
    ACK_HEADER <= p
  }

  /** The little-endian opcode at bytes 4 and 5; 0xFFFF when the packet has none. */
  function OpcodeOf(p: seq<byte>): int {
    if !HasStdHeader(p) || |p| < 6 then NO_OPCODE else p[4] as int + 256 * (p[5] as int)
  }

  /** An acknowledgement is never mistaken for a packet with an opcode. */
  lemma AckHasNoOpcode(p: seq<byte>)
    requires IsHandshakeAck(p)
    ensures OpcodeOf(p) == NO_OPCODE
  {
    assert p[0] == ACK_HEADER[0] != STD_HEADER[0];
  }
}
