/** The Engine.IO packet and its text wire form (packet.go, encoding.go). */
module Packets {
  import opened Basics
  import Base64

  // The packet kinds that follow open, which is 0. A packet's `ptype` may hold any byte, as the source's uint8 does.
  const CLOSE: byte := 1
  const PING: byte := 2
  const PONG: byte := 3
  const MESSAGE: byte := 4
  const UPGRADE: byte := 5
  const NOOP: byte := 6

  /** First byte of a base64-encoded binary packet, 'b'. */
  const BINARY_MARKER: byte := 98

  datatype Packet = Packet(ptype: byte, data: seq<byte>, isBinary: bool)

  datatype PacketError = EmptyPacket | InvalidType | BadBase64

  datatype Decoded = Ok(packet: Packet) | Err(error: PacketError)

  predicate ValidType(t: byte) {
    t <= NOOP
  }

  /** The ASCII digit of a type; the sum wraps like the source's byte arithmetic. */
  function TypeByte(t: byte): byte {
    (t + 48) % 256
  }

  function TypeFromByte(b: byte): byte {
    (b - 48) % 256
  }

  /** What the codec can carry: a known type, and binary only on a message. */
  predicate WellFormed(p: Packet) {
    ValidType(p.ptype) && (p.isBinary ==> p.ptype == MESSAGE)
  }

  function EncodePacket(p: Packet): seq<byte> {
    if p.isBinary then [BINARY_MARKER] + Base64.Encode(p.data)
    else [TypeByte(p.ptype)] + p.data
  }

  function DecodePacket(input: seq<byte>): Decoded {
    if input == [] then Err(EmptyPacket)
    else if input[0] == BINARY_MARKER then
      match Base64.Decode(input[1..])
      case None => Err(BadBase64)
      case Some(data) => Ok(Packet(MESSAGE, data, true))
    else
      var t := TypeFromByte(input[0]);
      if ValidType(t) then Ok(Packet(t, input[1..], false)) else Err(InvalidType)
  }

  lemma TypeBytesInverse(t: byte)
    ensures TypeFromByte(TypeByte(t)) == t
    ensures TypeByte(TypeFromByte(t)) == t
  {}

  /** A packet decodes from its own wire form exactly when it is well-formed. */
  lemma PacketRoundTrip(p: Packet)
    ensures DecodePacket(EncodePacket(p)) == Ok(p) <==> WellFormed(p)
  {
    if p.isBinary {
      Base64.RoundTrip(p.data);
      assert EncodePacket(p)[1..] == Base64.Encode(p.data);
    } else {
      assert EncodePacket(p)[1..] == p.data;
    }
  }

  /** The text form of a packet without data is its digit: close, ping, pong, message, upgrade, noop are '1' to '6'. */
  lemma KindsOnTheWire()
    ensures EncodePacket(Packet(CLOSE, [], false)) == [49] && EncodePacket(Packet(PING, [], false)) == [50]
    ensures EncodePacket(Packet(PONG, [], false)) == [51] && EncodePacket(Packet(MESSAGE, [], false)) == [52]
    ensures EncodePacket(Packet(UPGRADE, [], false)) == [53] && EncodePacket(Packet(NOOP, [], false)) == [54]
    ensures EncodePacket(Packet(MESSAGE, [], true)) == [98]
  {}

  /** Why a text is no packet: it is empty, its base64 is not valid, or it begins with none of '0' to '6' and 'b'. */
  lemma DecodeFailsExactly(input: seq<byte>)
    ensures DecodePacket(input) == Err(EmptyPacket) <==> input == []
    ensures DecodePacket(input) == Err(BadBase64) <==> input != [] && input[0] == 98 && Base64.Decode(input[1..]) == None
    ensures DecodePacket(input) == Err(InvalidType) <==> input != [] && input[0] != 98 && !(48 <= input[0] <= 54)
  {}

  /** Whatever the v4 decoder accepts is well-formed, binary implying message. */
  lemma DecodedWellFormed(input: seq<byte>)
    ensures DecodePacket(input).Ok? ==> WellFormed(DecodePacket(input).packet)
  {}

  // ---- Application messages ----

  predicate IsMessage(p: Packet) {
    p.ptype == MESSAGE
  }

  /** The application messages of a packet sequence, in order. */
  function Messages(ps: seq<Packet>): seq<Packet> {
    if ps == [] then []
    else (if IsMessage(ps[0]) then [ps[0]] else []) + Messages(ps[1..])
  }

  lemma {:induction false} MessagesAppend(a: seq<Packet>, b: seq<Packet>)
    ensures Messages(a + b) == Messages(a) + Messages(b)
  {
    if a == [] {
      assert a + b == b;
    } else {
      assert (a + b)[1..] == a[1..] + b;
      MessagesAppend(a[1..], b);
    }
  }

  lemma MessagesOne(p: Packet)
    ensures Messages([p]) == if IsMessage(p) then [p] else []
  {
    assert [p][1..] == [];
  }

  lemma MessagesPrefix(a: seq<Packet>, b: seq<Packet>)
    requires a <= b
    ensures Messages(a) <= Messages(b)
  {
    assert b == a + b[|a|..];
    MessagesAppend(a, b[|a|..]);
  }
}
