/** What the v2 and v3 payload framings share (payload.go). */
module LegacyPackets {
  import opened Basics
  import opened Packets
  import Base64

  /** Largest value of the source's int. */
  const MAX_INT: int := 0x7fff_ffff_ffff_ffff

  datatype Error = MalformedPayload | EmptyBody | BadType | BadEncoding

  datatype Body = Good(packet: Packet) | Bad(error: Error)

  /** Panics: a slice out of bounds, where a length has wrapped around. */
  datatype Outcome = Packets(packets: seq<Packet>) | Fails(error: Error) | Panics

  /** One frame read at the cursor: its packet and where the next frame starts. */
  datatype Next = Frame(packet: Packet, end: nat) | Stop(error: Error) | Panic

  // ---- The source's 64-bit int ----

  const TWO64: int := 0x1_0000_0000_0000_0000

  /** The value an int holds after arithmetic whose true result is x. */
  function Wrap(x: int): int {
    (x + MAX_INT + 1) % TWO64 - MAX_INT - 1
  }

  lemma WrapFits(x: int)
    ensures -MAX_INT - 1 <= Wrap(x) <= MAX_INT
    ensures -MAX_INT - 1 <= x <= MAX_INT <==> Wrap(x) == x
  {}

  lemma WrapShift(x: int, k: int)
    ensures Wrap(x + k * TWO64) == Wrap(x)
  {}

  /** Wrapping at every digit comes to the same as wrapping once. */
  lemma WrapDigit(v: int, d: int)
    ensures Wrap(Wrap(v) * 10 + d) == Wrap(v * 10 + d)
  {
    var k := (v + MAX_INT + 1) / TWO64;
    assert Wrap(v) == v - k * TWO64;
    WrapShift(v * 10 + d, -10 * k);
  }

  /** The end of a body: a sum of two ints either fits, or falls before its start. */
  lemma WrapEnd(start: int, length: int)
    requires 0 <= start <= MAX_INT && -MAX_INT - 1 <= length <= MAX_INT
    ensures Wrap(start + length) >= start <==> length >= 0 && start + length <= MAX_INT
    ensures Wrap(start + length) >= start ==> Wrap(start + length) == start + length
    ensures Wrap(start + length) < start ==> Wrap(start + length) <= MAX_INT
  {}

  /** decodeStringFramedPacket: unlike v4, a type digit follows the binary marker. */
  function DecodeStringPacket(packet: seq<byte>): Body {
    if packet == [] then Bad(EmptyBody)
    else if packet[0] == BINARY_MARKER then
      if |packet| < 2 then Bad(MalformedPayload)
      else if !ValidType(TypeFromByte(packet[1])) then Bad(BadType)
      else match Base64.Decode(packet[2..])
        case None => Bad(BadEncoding)
        case Some(data) => Good(Packet(TypeFromByte(packet[1]), data, true))
    else if !ValidType(TypeFromByte(packet[0])) then Bad(BadType)
    else Good(Packet(TypeFromByte(packet[0]), packet[1..], false))
  }

  /** Why a text is no v2 or v3 packet. */
  lemma StringPacketFailsExactly(packet: seq<byte>)
    ensures DecodeStringPacket(packet) == Bad(EmptyBody) <==> packet == []
    ensures DecodeStringPacket(packet) == Bad(MalformedPayload) <==> packet == [98]
    ensures DecodeStringPacket(packet) == Bad(BadType) <==>
            packet != [] && packet != [98] && var digit := if packet[0] == 98 then packet[1] else packet[0]; !(48 <= digit <= 54)
    ensures DecodeStringPacket(packet) == Bad(BadEncoding) <==>
            |packet| >= 2 && packet[0] == 98 && 48 <= packet[1] <= 54 && Base64.Decode(packet[2..]) == None
  {
    if |packet| == 1 && packet[0] == 98 {
      assert packet == [98];
    }
  }

  /** Unlike v4, what decodes is well-formed exactly when its binary form, if it has one, names a message. */
  lemma LegacyWellFormed(packet: seq<byte>)
    requires DecodeStringPacket(packet).Good?
    ensures WellFormed(DecodeStringPacket(packet).packet) <==>
            (packet[0] == BINARY_MARKER ==> packet[1] == TypeByte(MESSAGE))
  {
    if packet[0] == BINARY_MARKER {
      TypeBytesInverse(packet[1]);
    }
  }

  /** "b3" decodes to a binary pong. */
  lemma BinaryPongDecodes()
    ensures DecodeStringPacket([98, 51]) == Good(Packet(PONG, [], true))
    ensures !WellFormed(Packet(PONG, [], true))
  {
    assert [98, 51][2..] == [];
  }

  function Prepend(p: Packet, rest: Outcome): Outcome {
    match rest
    case Packets(ps) => Packets([p] + ps)
    case _ => rest
  }

  /** What a loop that has collected `done` ends with when the rest decodes to r. */
  function After(done: seq<Packet>, r: Outcome): Outcome {
    match r
    case Packets(ps) => Packets(done + ps)
    case _ => r
  }

  lemma AfterPrepend(done: seq<Packet>, p: Packet, r: Outcome)
    ensures After(done, Prepend(p, r)) == After(done + [p], r)
  {
    if r.Packets? {
      assert done + ([p] + r.packets) == done + [p] + r.packets;
    }
  }

  lemma PrependAfter(p: Packet, done: seq<Packet>, r: Outcome)
    ensures Prepend(p, After(done, r)) == After([p] + done, r)
  {
    if r.Packets? {
      assert [p] + (done + r.packets) == [p] + done + r.packets;
    }
  }

  lemma NothingBefore(r: Outcome)
    ensures After([], r) == r
  {
    if r.Packets? {
      assert [] + r.packets == r.packets;
    }
  }

  /** A decimal number from its digits, most significant first. */
  function Value(digits: seq<nat>): nat {
    if digits == [] then 0 else Value(digits[..|digits| - 1]) * 10 + digits[|digits| - 1]
  }
}

/** The v3 binary framing: marker, one value byte per decimal digit, 0xff, body. */
module BinaryFraming {
  import opened Basics
  import opened Packets
  import opened LegacyPackets

  const STRING_MARKER: byte := 0
  const RAW_MARKER: byte := 1
  const TERMINATOR: byte := 255

  /** decodeBinaryFramedPacket. */
  function DecodeBody(marker: byte, body: seq<byte>): Body {
    if marker == STRING_MARKER then DecodeStringPacket(body)
    else if body == [] then Bad(MalformedPayload)
    else if !ValidType(body[0]) then Bad(BadType)
    else Good(Packet(body[0], body[1..], true))
  }

  /** The end of the run of value bytes that starts at i. */
  function DigitsEnd(input: seq<byte>, i: nat): (e: nat)
    requires i <= |input|
    ensures i <= e <= |input|
    ensures forall k :: i <= k < e ==> input[k] <= 9
    ensures e < |input| ==> input[e] > 9
    decreases |input| - i
  {
    if i == |input| || input[i] > 9 then i else DigitsEnd(input, i + 1)
  }

  datatype Length = Length(value: int, next: nat) | NoLength

  /** The length that starts at i, and where the body starts. */
  function LengthAt(input: seq<byte>, i: nat): (l: Length)
    requires i <= |input|
    ensures l.Length? ==> i < l.next <= |input|
  {
    var e := DigitsEnd(input, i);
    if e == |input| || input[e] != TERMINATOR then NoLength else Length(Wrap(Value(input[i..e])), e + 1)
  }

  /** The frame whose marker and length have been read. */
  function FrameOf(input: seq<byte>, marker: byte, l: Length): (n: Next)
    requires l.Length? ==> l.next <= |input|
    ensures n.Frame? ==> l.Length? && l.next <= n.end <= |input|
  {
    if marker != STRING_MARKER && marker != RAW_MARKER then Stop(MalformedPayload)
    else if l.NoLength? then Stop(MalformedPayload)
    else
      var end := Wrap(l.next + l.value);
      if end > |input| then Stop(MalformedPayload)
      else if end < l.next then Panic
      else match DecodeBody(marker, input[l.next..end])
        case Bad(err) => Stop(err)
        case Good(p) => Frame(p, end)
  }

  function NextFrame(input: seq<byte>, cursor: nat): (n: Next)
    requires cursor < |input|
    ensures n.Frame? ==> cursor < n.end <= |input|
  {
    FrameOf(input, input[cursor], LengthAt(input, cursor + 1))
  }

  function DecodeFrom(input: seq<byte>, cursor: nat): Outcome
    requires cursor <= |input|
    decreases |input| - cursor
  {
    if cursor == |input| then Packets([])
    else match NextFrame(input, cursor)
      case Stop(e) => Fails(e)
      case Panic => Panics
      case Frame(p, end) => Prepend(p, DecodeFrom(input, end))
  }

  /** The inner loop: accumulates value bytes up to the terminator. */
  method ReadLength(input: seq<byte>, from: nat) returns (l: Length)
    requires from <= |input|
    ensures l == LengthAt(input, from)
  {
    var cursor := from;
    var length := 0;
    while cursor < |input|
      invariant from <= cursor <= |input|
      invariant length == Wrap(Value(input[from..cursor])) && DigitsEnd(input, from) == DigitsEnd(input, cursor)
    {
      var digit := input[cursor];
      if digit == TERMINATOR {
        return Length(length, cursor + 1);
      }
      if digit > 9 {
        return NoLength;
      }
      WrapDigit(Value(input[from..cursor]), digit);
      cursor := cursor + 1;
      length := Wrap(length * 10 + digit);
      assert input[from..cursor][..cursor - from - 1] == input[from..cursor - 1];
    }
    return NoLength;
  }

  method ReadFrame(input: seq<byte>, cursor: nat) returns (n: Next)
    requires cursor < |input|
    ensures n == NextFrame(input, cursor)
  {
    var marker := input[cursor];
    if marker != STRING_MARKER && marker != RAW_MARKER {
      return Stop(MalformedPayload);
    }
    var length := ReadLength(input, cursor + 1);
    if length.NoLength? {
      return Stop(MalformedPayload);
    }
    var end := Wrap(length.next + length.value);
    if end > |input| {
      return Stop(MalformedPayload);
    }
    if end < length.next {
      return Panic;
    }
    match DecodeBody(marker, input[length.next..end])
    case Bad(err) => return Stop(err);
    case Good(packet) => return Frame(packet, end);
  }

  /** decodeBinaryFramedPayload: the loop over the frames. */
  method DecodeBinaryFramedPayload(input: seq<byte>) returns (r: Outcome)
    ensures r == DecodeFrom(input, 0)
  {
    var packets: seq<Packet> := [];
    var cursor := 0;
    while cursor < |input|
      invariant 0 <= cursor <= |input|
      invariant DecodeFrom(input, 0) == After(packets, DecodeFrom(input, cursor))
    {
      var frame := ReadFrame(input, cursor);
      if frame.Stop? {
        return Fails(frame.error);
      }
      if frame.Panic? {
        return Panics;
      }
      AfterPrepend(packets, frame.packet, DecodeFrom(input, frame.end));
      packets := packets + [frame.packet];
      cursor := frame.end;
    }
    return Packets(packets);
  }

  // ---- What a payload is, independently of the decoder ----

  datatype BinaryFrame = BinaryFrame(marker: byte, digits: seq<byte>, body: seq<byte>)

  predicate IsHeader(marker: byte, digits: seq<byte>) {
    && (marker == STRING_MARKER || marker == RAW_MARKER)
    && forall k :: 0 <= k < |digits| ==> digits[k] <= 9
  }

  /** A frame of a known marker whose digits count its body, modulo the width of an int, and whose body decodes. */
  predicate ValidFrame(f: BinaryFrame) {
    && IsHeader(f.marker, f.digits)
    && Wrap(Value(f.digits)) == |f.body|
    && DecodeBody(f.marker, f.body).Good?
  }

  predicate AllValid(fs: seq<BinaryFrame>) {
    forall k :: 0 <= k < |fs| ==> ValidFrame(fs[k])
  }

  function Wire(f: BinaryFrame): seq<byte> {
    [f.marker] + f.digits + [TERMINATOR] + f.body
  }

  function Wires(fs: seq<BinaryFrame>): seq<byte> {
    if fs == [] then [] else Wire(fs[0]) + Wires(fs[1..])
  }

  function Decodes(fs: seq<BinaryFrame>): seq<Packet>
    requires AllValid(fs)
  {
    if fs == [] then [] else [DecodeBody(fs[0].marker, fs[0].body).packet] + Decodes(fs[1..])
  }

  lemma {:induction false} DigitsEndIs(input: seq<byte>, i: nat, e: nat)
    requires i <= e < |input| && (forall k :: i <= k < e ==> input[k] <= 9) && input[e] > 9
    ensures DigitsEnd(input, i) == e
    decreases e - i
  {
    if i < e {
      DigitsEndIs(input, i + 1, e);
    }
  }

  lemma LengthIs(input: seq<byte>, i: nat, digits: seq<byte>)
    requires i + |digits| < |input| && input[i..i + |digits|] == digits && input[i + |digits|] == TERMINATOR
    requires forall k :: 0 <= k < |digits| ==> digits[k] <= 9
    ensures LengthAt(input, i) == Length(Wrap(Value(digits)), i + |digits| + 1)
  {
    assert forall k :: i <= k < i + |digits| ==> input[k] == input[i..i + |digits|][k - i];
    DigitsEndIs(input, i, i + |digits|);
  }

  lemma Parts(input: seq<byte>, cursor: nat, f: BinaryFrame, rest: seq<byte>)
    requires cursor <= |input| && input[cursor..] == Wire(f) + rest
    ensures var e := cursor + 1 + |f.digits|;
            && e + 1 + |f.body| <= |input| && input[cursor] == f.marker && input[cursor + 1..e] == f.digits
            && input[e] == TERMINATOR && input[e + 1..e + 1 + |f.body|] == f.body
  {
    Slice(input, cursor, [], [f.marker], f.digits + [TERMINATOR] + f.body + rest);
    Slice(input, cursor, [f.marker], f.digits, [TERMINATOR] + f.body + rest);
    Slice(input, cursor, [f.marker] + f.digits, [TERMINATOR], f.body + rest);
    Slice(input, cursor, [f.marker] + f.digits + [TERMINATOR], f.body, rest);
  }

  lemma Reassemble(input: seq<byte>, cursor: nat, e: nat, end: nat)
    requires cursor < e < end <= |input| && input[e] == TERMINATOR
    ensures input[cursor..] == Wire(BinaryFrame(input[cursor], input[cursor + 1..e], input[e + 1..end])) + input[end..]
  {}

  lemma FrameOfIs(input: seq<byte>, marker: byte, start: nat, body: seq<byte>)
    requires start + |body| <= |input| <= MAX_INT && input[start..start + |body|] == body
    requires (marker == STRING_MARKER || marker == RAW_MARKER) && DecodeBody(marker, body).Good?
    ensures FrameOf(input, marker, Length(|body|, start)) == Frame(DecodeBody(marker, body).packet, start + |body|)
  {
    WrapFits(start + |body|);
  }

  /** A frame standing at the cursor is what the decoder reads there. */
  lemma ReadsFrame(input: seq<byte>, cursor: nat, f: BinaryFrame, rest: seq<byte>)
    requires cursor <= |input| <= MAX_INT && ValidFrame(f) && input[cursor..] == Wire(f) + rest
    ensures cursor < |input|
    ensures NextFrame(input, cursor) == Frame(DecodeBody(f.marker, f.body).packet, cursor + |Wire(f)|)
  {
    Parts(input, cursor, f, rest);
    LengthIs(input, cursor + 1, f.digits);
    var start := cursor + 2 + |f.digits|;
    assert LengthAt(input, cursor + 1) == Length(|f.body|, start);
    FrameOfIs(input, f.marker, start, f.body);
    assert start + |f.body| == cursor + |Wire(f)|;
  }

  lemma ReadsOne(input: seq<byte>, cursor: nat, fs: seq<BinaryFrame>, rest: seq<byte>)
    requires cursor <= |input| <= MAX_INT && AllValid(fs) && fs != [] && input[cursor..] == Wires(fs) + rest
    ensures var end := cursor + |Wire(fs[0])|;
            && cursor < end <= |input| && input[end..] == Wires(fs[1..]) + rest
            && NextFrame(input, cursor) == Frame(DecodeBody(fs[0].marker, fs[0].body).packet, end)
  {
    Assoc(Wire(fs[0]), Wires(fs[1..]), rest);
    ReadsFrame(input, cursor, fs[0], Wires(fs[1..]) + rest);
    Tail(input, cursor, Wire(fs[0]), Wires(fs[1..]) + rest);
  }

  lemma DecodeStep(input: seq<byte>, cursor: nat, p: Packet, end: nat)
    requires cursor < |input| && NextFrame(input, cursor) == Frame(p, end)
    ensures DecodeFrom(input, cursor) == Prepend(p, DecodeFrom(input, end))
  {}

  lemma WiresEnd(input: seq<byte>, cursor: nat, fs: seq<BinaryFrame>, rest: seq<byte>)
    requires cursor <= |input| && input[cursor..] == Wires(fs) + rest
    ensures cursor + |Wires(fs)| <= |input| && input[cursor + |Wires(fs)|..] == rest
  {
    Tail(input, cursor, Wires(fs), rest);
  }

  lemma OneRead(input: seq<byte>, cursor: nat, fs: seq<BinaryFrame>, rest: seq<byte>) returns (p: Packet, next: nat)
    requires cursor <= |input| <= MAX_INT && AllValid(fs) && fs != [] && input[cursor..] == Wires(fs) + rest
    ensures cursor < next <= |input| && NextFrame(input, cursor) == Frame(p, next) && Decodes(fs) == [p] + Decodes(fs[1..])
    ensures input[next..] == Wires(fs[1..]) + rest && next + |Wires(fs[1..])| == cursor + |Wires(fs)|
  {
    p, next := DecodeBody(fs[0].marker, fs[0].body).packet, cursor + |Wire(fs[0])|;
    ReadsOne(input, cursor, fs, rest);
  }

  lemma StepAfter(input: seq<byte>, cursor: nat, p: Packet, next: nat, done: seq<Packet>, r: Outcome)
    requires cursor < |input| && NextFrame(input, cursor) == Frame(p, next) && DecodeFrom(input, next) == After(done, r)
    ensures DecodeFrom(input, cursor) == After([p] + done, r)
  {
    DecodeStep(input, cursor, p, next);
    PrependAfter(p, done, r);
  }

  /** Valid frames are read through, whatever follows them. */
  lemma {:induction false} ReadsThrough(input: seq<byte>, cursor: nat, fs: seq<BinaryFrame>, end: nat, r: Outcome)
    requires cursor + |Wires(fs)| == end <= |input| <= MAX_INT && AllValid(fs)
    requires input[cursor..] == Wires(fs) + input[end..] && DecodeFrom(input, end) == r
    ensures DecodeFrom(input, cursor) == After(Decodes(fs), r)
    decreases |fs|
  {
    if fs == [] {
      NothingBefore(r);
    } else {
      var p, next := OneRead(input, cursor, fs, input[end..]);
      ReadsThrough(input, next, fs[1..], end, r);
      StepAfter(input, cursor, p, next, Decodes(fs[1..]), r);
    }
  }

  lemma ReadsFrames(input: seq<byte>, fs: seq<BinaryFrame>)
    requires |input| <= MAX_INT && AllValid(fs) && input == Wires(fs)
    ensures DecodeFrom(input, 0) == Packets(Decodes(fs))
  {
    assert input[0..] == Wires(fs) + input[|input|..];
    ReadsThrough(input, 0, fs, |input|, Packets([]));
    assert Decodes(fs) + [] == Decodes(fs);
  }

  /** A frame that is read ends where its length says, without wrapping. */
  lemma FrameOfEnd(input: seq<byte>, marker: byte, l: Length)
    requires l.Length? && l.next <= |input| && -MAX_INT - 1 <= l.value <= MAX_INT && FrameOf(input, marker, l).Frame?
    ensures l.value >= 0 && FrameOf(input, marker, l).end == l.next + l.value
    ensures IsHeader(marker, []) && DecodeBody(marker, input[l.next..l.next + l.value]) == Good(FrameOf(input, marker, l).packet)
  {
    WrapFits(l.next + l.value);
    if l.next <= MAX_INT {
      WrapEnd(l.next, l.value);
    }
  }

  /** Whatever the decoder reads at the cursor is a frame. */
  lemma FrameRead(input: seq<byte>, cursor: nat) returns (f: BinaryFrame)
    requires cursor < |input| && NextFrame(input, cursor).Frame?
    ensures ValidFrame(f) && NextFrame(input, cursor).packet == DecodeBody(f.marker, f.body).packet
    ensures input[cursor..] == Wire(f) + input[NextFrame(input, cursor).end..]
  {
    var e, l := DigitsEnd(input, cursor + 1), LengthAt(input, cursor + 1);
    var digits := input[cursor + 1..e];
    WrapFits(Value(digits));
    FrameOfEnd(input, input[cursor], l);
    f := BinaryFrame(input[cursor], digits, input[l.next..l.next + l.value]);
    Reassemble(input, cursor, e, l.next + l.value);
  }

  lemma {:induction false} FramesRead(input: seq<byte>, cursor: nat) returns (fs: seq<BinaryFrame>)
    requires cursor <= |input| && DecodeFrom(input, cursor).Packets?
    ensures AllValid(fs) && Wires(fs) == input[cursor..] && Packets(Decodes(fs)) == DecodeFrom(input, cursor)
    decreases |input| - cursor
  {
    if cursor == |input| {
      fs := [];
    } else {
      var f := FrameRead(input, cursor);
      var rest := FramesRead(input, NextFrame(input, cursor).end);
      fs := [f] + rest;
      assert fs[1..] == rest;
    }
  }

  /** fs is a way to cut the input into frames that decode to ps. */
  ghost predicate Tiles(fs: seq<BinaryFrame>, input: seq<byte>, ps: seq<Packet>) {
    AllValid(fs) && Wires(fs) == input && Decodes(fs) == ps
  }

  /** The decoder succeeds exactly on concatenations of frames, with their packets in order. */
  lemma DecodesExactlyFrames(input: seq<byte>, ps: seq<Packet>)
    requires |input| <= MAX_INT
    ensures DecodeFrom(input, 0) == Packets(ps) <==> exists fs :: Tiles(fs, input, ps)
  {
    assert input[0..] == input;
    if DecodeFrom(input, 0) == Packets(ps) {
      var fs := FramesRead(input, 0);
      assert Tiles(fs, input, ps);
    }
    if fs :| Tiles(fs, input, ps) {
      ReadsFrames(input, fs);
    }
  }

  // ---- Where the source panics ----

  /** Valid frames, then a header whose length is negative or runs past the largest int, then anything. */
  ghost predicate Overruns(fs: seq<BinaryFrame>, marker: byte, digits: seq<byte>, rest: seq<byte>, input: seq<byte>) {
    && AllValid(fs) && input == Wires(fs) + Header(marker, digits) + rest
    && IsHeader(marker, digits)
    && var length, start := Wrap(Value(digits)), |Wires(fs) + Header(marker, digits)|;
       length < 0 || start + length > MAX_INT
  }

  function Header(marker: byte, digits: seq<byte>): seq<byte> {
    [marker] + digits + [TERMINATOR]
  }

  /** The frame read ends where the decoder says. */
  lemma FrameEnd(input: seq<byte>, cursor: nat, f: BinaryFrame)
    requires cursor < |input| && NextFrame(input, cursor).Frame?
    requires input[cursor..] == Wire(f) + input[NextFrame(input, cursor).end..]
    ensures NextFrame(input, cursor).end == cursor + |Wire(f)|
  {
    assert |input[cursor..]| == |Wire(f)| + |input[NextFrame(input, cursor).end..]|;
  }

  lemma FrameOfPanics(input: seq<byte>, marker: byte, length: int, start: nat)
    requires start <= |input| <= MAX_INT && IsHeader(marker, []) && -MAX_INT - 1 <= length <= MAX_INT
    requires length < 0 || start + length > MAX_INT
    ensures FrameOf(input, marker, Length(length, start)) == Panic
  {
    WrapEnd(start, length);
    WrapFits(start + length);
  }

  lemma HeaderPanics(input: seq<byte>, cursor: nat, marker: byte, digits: seq<byte>, rest: seq<byte>)
    requires cursor <= |input| <= MAX_INT && input[cursor..] == Header(marker, digits) + rest && IsHeader(marker, digits)
    requires var length, start := Wrap(Value(digits)), cursor + |Header(marker, digits)|;
             length < 0 || start + length > MAX_INT
    ensures cursor < |input| && NextFrame(input, cursor) == Panic
  {
    var f := BinaryFrame(marker, digits, []);
    assert Wire(f) == Header(marker, digits);
    Parts(input, cursor, f, rest);
    LengthIs(input, cursor + 1, digits);
    WrapFits(Value(digits));
    FrameOfPanics(input, marker, Wrap(Value(digits)), cursor + |digits| + 2);
  }

  lemma PanicRead(input: seq<byte>, cursor: nat) returns (digits: seq<byte>, rest: seq<byte>)
    requires cursor < |input| <= MAX_INT && NextFrame(input, cursor) == Panic
    ensures IsHeader(input[cursor], digits) && input[cursor..] == Header(input[cursor], digits) + rest
    ensures var length, start := Wrap(Value(digits)), cursor + |Header(input[cursor], digits)|;
            length < 0 || start + length > MAX_INT
  {
    var e := DigitsEnd(input, cursor + 1);
    digits, rest := input[cursor + 1..e], input[e + 1..];
    Reassemble(input, cursor, e, e + 1);
    WrapFits(Value(digits));
    WrapEnd(e + 1, Wrap(Value(digits)));
  }

  lemma {:induction false} PanicsRead(input: seq<byte>, cursor: nat)
      returns (fs: seq<BinaryFrame>, marker: byte, digits: seq<byte>, rest: seq<byte>)
    requires cursor <= |input| <= MAX_INT && DecodeFrom(input, cursor) == Panics
    ensures AllValid(fs) && input[cursor..] == Wires(fs) + (Header(marker, digits) + rest) && IsHeader(marker, digits)
    ensures var length, start := Wrap(Value(digits)), cursor + |Wires(fs)| + |Header(marker, digits)|;
            length < 0 || start + length > MAX_INT
    decreases |input| - cursor
  {
    if NextFrame(input, cursor).Panic? {
      digits, rest := PanicRead(input, cursor);
      fs, marker := [], input[cursor];
      assert Wires(fs) + (Header(marker, digits) + rest) == Header(marker, digits) + rest;
    } else {
      var f := FrameRead(input, cursor);
      var end := NextFrame(input, cursor).end;
      FrameEnd(input, cursor, f);
      fs, marker, digits, rest := PanicsRead(input, end);
      Assoc(Wire(f), Wires(fs), Header(marker, digits) + rest);
      fs := [f] + fs;
    }
  }

  lemma OverrunPanics(fs: seq<BinaryFrame>, marker: byte, digits: seq<byte>, rest: seq<byte>, input: seq<byte>)
    requires |input| <= MAX_INT && Overruns(fs, marker, digits, rest, input)
    ensures DecodeFrom(input, 0) == Panics
  {
    var end := |Wires(fs)|;
    Assoc(Wires(fs), Header(marker, digits), rest);
    assert input[0..] == input;
    WiresEnd(input, 0, fs, Header(marker, digits) + rest);
    HeaderPanics(input, end, marker, digits, rest);
    PanicStep(input, end);
    ReadsThrough(input, 0, fs, end, Panics);
  }

  lemma PanicStep(input: seq<byte>, cursor: nat)
    requires cursor < |input| && NextFrame(input, cursor) == Panic
    ensures DecodeFrom(input, cursor) == Panics
  {}

  /** The decoder panics exactly where a length, wrapped to an int, is negative or makes the end of its body wrap. */
  lemma PanicsExactly(input: seq<byte>)
    requires |input| <= MAX_INT
    ensures DecodeFrom(input, 0) == Panics <==> exists fs, marker, digits, rest :: Overruns(fs, marker, digits, rest, input)
  {
    if DecodeFrom(input, 0) == Panics {
      var fs, marker, digits, rest := PanicsRead(input, 0);
      assert input[0..] == input;
      Assoc(Wires(fs), Header(marker, digits), rest);
      assert Overruns(fs, marker, digits, rest, input);
    }
    if fs, marker, digits, rest :| Overruns(fs, marker, digits, rest, input) {
      OverrunPanics(fs, marker, digits, rest, input);
    }
  }

  // ---- Which error ----

  /** Valid frames, then one whose length is right and whose body fails with e, then anything. */
  ghost predicate BadBody(fs: seq<BinaryFrame>, f: BinaryFrame, rest: seq<byte>, input: seq<byte>, e: Error) {
    && AllValid(fs) && input == Wires(fs) + (Wire(f) + rest) && IsHeader(f.marker, f.digits)
    && Wrap(Value(f.digits)) == |f.body| && DecodeBody(f.marker, f.body) == Bad(e)
  }

  lemma StopsAt(input: seq<byte>, cursor: nat, f: BinaryFrame, rest: seq<byte>, e: Error)
    requires cursor <= |input| <= MAX_INT && input[cursor..] == Wire(f) + rest && IsHeader(f.marker, f.digits)
    requires Wrap(Value(f.digits)) == |f.body| && DecodeBody(f.marker, f.body) == Bad(e)
    ensures cursor < |input| && DecodeFrom(input, cursor) == Fails(e)
  {
    FrameIsBad(input, cursor, f, rest, e);
    StopStep(input, cursor, e);
  }

  lemma FrameIsBad(input: seq<byte>, cursor: nat, f: BinaryFrame, rest: seq<byte>, e: Error)
    requires cursor <= |input| <= MAX_INT && input[cursor..] == Wire(f) + rest && IsHeader(f.marker, f.digits)
    requires Wrap(Value(f.digits)) == |f.body| && DecodeBody(f.marker, f.body) == Bad(e)
    ensures cursor < |input| && NextFrame(input, cursor) == Stop(e)
  {
    Parts(input, cursor, f, rest);
    LengthIs(input, cursor + 1, f.digits);
    BadFrameOf(input, f.marker, cursor + 2 + |f.digits|, f.body, e);
  }

  lemma BadFrameOf(input: seq<byte>, marker: byte, start: nat, body: seq<byte>, e: Error)
    requires start + |body| <= |input| <= MAX_INT && input[start..start + |body|] == body
    requires (marker == STRING_MARKER || marker == RAW_MARKER) && DecodeBody(marker, body) == Bad(e)
    ensures FrameOf(input, marker, Length(|body|, start)) == Stop(e)
  {
    WrapFits(start + |body|);
  }

  lemma StopStep(input: seq<byte>, cursor: nat, e: Error)
    requires cursor < |input| && NextFrame(input, cursor) == Stop(e)
    ensures DecodeFrom(input, cursor) == Fails(e)
  {}

  lemma BadBodyFails(fs: seq<BinaryFrame>, f: BinaryFrame, rest: seq<byte>, input: seq<byte>, e: Error)
    requires |input| <= MAX_INT && BadBody(fs, f, rest, input, e)
    ensures DecodeFrom(input, 0) == Fails(e)
  {
    var end := |Wires(fs)|;
    assert input[0..] == input;
    WiresEnd(input, 0, fs, Wire(f) + rest);
    StopsAt(input, end, f, rest, e);
    ReadsThrough(input, 0, fs, end, Fails(e));
  }

  lemma StopRead(input: seq<byte>, cursor: nat) returns (f: BinaryFrame, rest: seq<byte>)
    requires cursor < |input| <= MAX_INT && NextFrame(input, cursor).Stop? && NextFrame(input, cursor).error != MalformedPayload
    ensures input[cursor..] == Wire(f) + rest && IsHeader(f.marker, f.digits)
    ensures Wrap(Value(f.digits)) == |f.body| && DecodeBody(f.marker, f.body) == Bad(NextFrame(input, cursor).error)
  {
    var e, l := DigitsEnd(input, cursor + 1), LengthAt(input, cursor + 1);
    var digits := input[cursor + 1..e];
    WrapFits(Value(digits));
    WrapEnd(l.next, l.value);
    f, rest := BinaryFrame(input[cursor], digits, input[l.next..l.next + l.value]), input[l.next + l.value..];
    Reassemble(input, cursor, e, l.next + l.value);
  }

  lemma {:induction false} FailsRead(input: seq<byte>, cursor: nat, e: Error)
      returns (fs: seq<BinaryFrame>, f: BinaryFrame, rest: seq<byte>)
    requires cursor <= |input| <= MAX_INT && DecodeFrom(input, cursor) == Fails(e) && e != MalformedPayload
    ensures AllValid(fs) && input[cursor..] == Wires(fs) + (Wire(f) + rest) && IsHeader(f.marker, f.digits)
    ensures Wrap(Value(f.digits)) == |f.body| && DecodeBody(f.marker, f.body) == Bad(e)
    decreases |input| - cursor
  {
    if NextFrame(input, cursor).Stop? {
      f, rest := StopRead(input, cursor);
      fs := [];
      assert Wires(fs) + (Wire(f) + rest) == Wire(f) + rest;
    } else {
      var g := FrameRead(input, cursor);
      fs, f, rest := FailsRead(input, NextFrame(input, cursor).end, e);
      Assoc(Wire(g), Wires(fs), Wire(f) + rest);
      fs := [g] + fs;
    }
  }

  /** The decoder fails with another error than malformed exactly where the first bad body fails with it. */
  lemma FailsExactly(input: seq<byte>, e: Error)
    requires |input| <= MAX_INT && e != MalformedPayload
    ensures DecodeFrom(input, 0) == Fails(e) <==> exists fs, f, rest :: BadBody(fs, f, rest, input, e)
  {
    if DecodeFrom(input, 0) == Fails(e) {
      var fs, f, rest := FailsRead(input, 0, e);
      assert input[0..] == input;
      assert BadBody(fs, f, rest, input, e);
    }
    if fs, f, rest :| BadBody(fs, f, rest, input, e) {
      BadBodyFails(fs, f, rest, input, e);
    }
  }

  /** A text frame in bytes: the marker 0, one digit, the terminator, and "4a". */
  lemma TextFrameDecodes()
    ensures DecodeFrom([0, 2, 255, 52, 97], 0) == Packets([Packet(4, [97], false)])
  {
    var f := BinaryFrame(0, [2], [52, 97]);
    assert [2][..0] == [] && Value([2]) == 2;
    WrapFits(2);
    assert f.body[1..] == [97] && ValidFrame(f);
    assert [f][1..] == [] && Wires([f]) == [0, 2, 255, 52, 97];
    assert Tiles([f], [0, 2, 255, 52, 97], [Packet(4, [97], false)]);
    DecodesExactlyFrames([0, 2, 255, 52, 97], [Packet(4, [97], false)]);
  }

  function DigitsOf(n: nat): seq<byte> {
    if n < 10 then [n] else DigitsOf(n / 10) + [n % 10]
  }

  lemma {:induction false} DigitsOfValue(n: nat)
    ensures Value(DigitsOf(n)) == n && |DigitsOf(n)| <= n / 10 + 1
    ensures forall k :: 0 <= k < |DigitsOf(n)| ==> DigitsOf(n)[k] <= 9
  {
    if n < 10 {
      assert DigitsOf(n)[..0] == [];
    } else {
      DigitsOfValue(n / 10);
      assert DigitsOf(n)[..|DigitsOf(n)| - 1] == DigitsOf(n / 10);
    }
  }

  /** A length of 2^64 + 2 reads as 2. */
  lemma WrappedLengthDecodes()
    ensures var input := Header(RAW_MARKER, DigitsOf(TWO64 + 2)) + [MESSAGE, 7];
            DecodeFrom(input, 0) == Packets([Packet(MESSAGE, [7], true)])
  {
    var f := BinaryFrame(RAW_MARKER, DigitsOf(TWO64 + 2), [MESSAGE, 7]);
    DigitsOfValue(TWO64 + 2);
    assert Wrap(TWO64 + 2) == 2;
    assert [f][1..] == [] && Wires([f]) == Wire(f) + [] == Wire(f);
    assert Wire(f) == Header(RAW_MARKER, f.digits) + f.body;
    assert [MESSAGE, 7][1..] == [7];
    ReadsFrames(Wire(f), [f]);
  }

  /** A length of 2^63 reads as a negative number, and the slice panics. */
  lemma NegativeLengthPanics()
    ensures DecodeFrom(Header(RAW_MARKER, DigitsOf(MAX_INT + 1)), 0) == Panics
  {
    var digits := DigitsOf(MAX_INT + 1);
    DigitsOfValue(MAX_INT + 1);
    assert Wrap(MAX_INT + 1) < 0;
    assert Wires([]) + Header(RAW_MARKER, digits) + [] == Header(RAW_MARKER, digits);
    OverrunPanics([], RAW_MARKER, digits, [], Header(RAW_MARKER, digits));
  }

  // ---- Binary need not mean message ----

  /** The frame's type is that of a message, if its packet is binary. */
  predicate NamesMessage(f: BinaryFrame)
    requires ValidFrame(f)
  {
    if f.marker == RAW_MARKER then f.body[0] == MESSAGE
    else f.body[0] == BINARY_MARKER ==> f.body[1] == TypeByte(MESSAGE)
  }

  lemma FrameWellFormed(f: BinaryFrame)
    requires ValidFrame(f)
    ensures WellFormed(DecodeBody(f.marker, f.body).packet) <==> NamesMessage(f)
  {
    if f.marker == STRING_MARKER {
      LegacyWellFormed(f.body);
    }
  }

  lemma {:induction false} DecodesEach(fs: seq<BinaryFrame>, k: nat)
    requires AllValid(fs) && k < |fs|
    ensures |Decodes(fs)| == |fs| && Decodes(fs)[k] == DecodeBody(fs[k].marker, fs[k].body).packet
  {
    if k > 0 {
      DecodesEach(fs[1..], k - 1);
    } else if |fs| > 1 {
      DecodesEach(fs[1..], 0);
    }
  }

  /**
   * What a payload decodes to is well-formed, binary implying message, exactly when each of
   * its frames names a message where it must.
   */
  lemma PayloadWellFormed(input: seq<byte>, fs: seq<BinaryFrame>, ps: seq<Packet>)
    requires Tiles(fs, input, ps)
    ensures (forall k :: 0 <= k < |ps| ==> WellFormed(ps[k])) <==> (forall k :: 0 <= k < |fs| ==> NamesMessage(fs[k]))
  {
    forall k | 0 <= k < |fs|
      ensures |ps| == |fs| && (WellFormed(ps[k]) <==> NamesMessage(fs[k]))
    {
      DecodesEach(fs, k);
      FrameWellFormed(fs[k]);
    }
  }

  /** A raw frame of one byte, 3, decodes to a binary pong. */
  lemma RawPongDecodes()
    ensures DecodeFrom([1, 1, 255, 3], 0) == Packets([Packet(PONG, [], true)])
  {
    var f := BinaryFrame(RAW_MARKER, [1], [3]);
    assert f.digits[..0] == [] && Value([1]) == 1;
    assert [3][1..] == [] && [f][1..] == [];
    assert Wires([f]) == [1, 1, 255, 3];
    ReadsFrames([1, 1, 255, 3], [f]);
  }
}

/** The v2 and v3 string framing: decimal rune count, ':', packet. */
module StringFraming {
  import opened Basics
  import opened Packets
  import opened LegacyPackets

  /** A Unicode scalar value. */
  type rune = x: int | 0 <= x < 0xD800 || 0xE000 <= x < 0x110000

  const COLON: rune := 58
  const PLUS: rune := 43
  const MINUS: rune := 45
  const ZERO: rune := 48

  function Utf8(r: rune): (bs: seq<byte>)
    ensures bs != [] && (bs[0] < 128 ==> bs[0] == r)
  {
    if r < 0x80 then [r]
    else if r < 0x800 then [0xC0 + r / 64, 0x80 + r % 64]
    else if r < 0x10000 then [0xE0 + r / 4096, 0x80 + r / 64 % 64, 0x80 + r % 64]
    else [0xF0 + r / 262144, 0x80 + r / 4096 % 64, 0x80 + r / 64 % 64, 0x80 + r % 64]
  }

  /** The bytes of a string of runes. */
  function Text(rs: seq<rune>): seq<byte> {
    if rs == [] then [] else Utf8(rs[0]) + Text(rs[1..])
  }

  /** How a packet's runes are decoded; the framing is proved for any such function. */
  type Decoder = seq<rune> -> Body

  /** The source's decoder: decodeStringFramedPacket on the UTF-8 bytes. */
  function DecodeText(rs: seq<rune>): Body {
    DecodeStringPacket(Text(rs))
  }

  predicate IsDigit(r: rune) {
    ZERO <= r <= ZERO + 9
  }

  function Digit(r: rune): nat
    requires IsDigit(r)
  {
    r as int - ZERO as int
  }

  /** The number written in decimal digits only. */
  function Number(rs: seq<rune>): Option<nat> {
    if rs == [] then Some(0)
    else match Number(rs[..|rs| - 1])
      case None => None
      case Some(n) => if IsDigit(rs[|rs| - 1]) then Some(n * 10 + Digit(rs[|rs| - 1])) else None
  }

  predicate Signed(rs: seq<rune>) {
    rs != [] && (rs[0] == PLUS || rs[0] == MINUS)
  }

  /** strconv.Atoi: an optional sign, then decimal digits, within the range of an int. */
  function Atoi(rs: seq<rune>): Option<int> {
    var digits := if Signed(rs) then rs[1..] else rs;
    if digits == [] then None
    else match Number(digits)
      case None => None
      case Some(n) =>
        if rs[0] == MINUS then (if n > MAX_INT + 1 then None else Some(-(n as int)))
        else if n > MAX_INT then None
        else Some(n)
  }

  /** The first ':' at or after i, or the end. */
  function ColonFrom(input: seq<rune>, i: nat): (e: nat)
    requires i <= |input|
    ensures i <= e <= |input|
    ensures forall k :: i <= k < e ==> input[k] != COLON
    ensures e < |input| ==> input[e] == COLON
    decreases |input| - i
  {
    if i == |input| || input[i] == COLON then i else ColonFrom(input, i + 1)
  }

  datatype Count = Count(value: int, start: nat) | NoCount

  /** The count written at the cursor, and where its body starts. */
  function CountAt(input: seq<rune>, cursor: nat): (c: Count)
    requires cursor <= |input|
    ensures c.Count? ==> cursor < c.start <= |input|
  {
    var e := ColonFrom(input, cursor);
    if e == |input| then NoCount
    else match Atoi(input[cursor..e])
      case None => NoCount
      case Some(length) => Count(length, e + 1)
  }

  /** The frame whose count has been read. */
  function FrameOf(input: seq<rune>, c: Count, decode: Decoder): (n: Next)
    requires c.Count? ==> c.start <= |input|
    ensures n.Frame? ==> c.Count? && c.start <= n.end <= |input|
  {
    if c.NoCount? || c.value < 0 then Stop(MalformedPayload)
    else
      var end := Wrap(c.start + c.value);
      if end > |input| then Stop(MalformedPayload)
      else if end < c.start then Panic
      else match decode(input[c.start..end])
        case Bad(err) => Stop(err)
        case Good(p) => Frame(p, end)
  }

  function NextFrame(input: seq<rune>, cursor: nat, decode: Decoder): (n: Next)
    requires cursor < |input|
    ensures n.Frame? ==> cursor < n.end <= |input|
  {
    FrameOf(input, CountAt(input, cursor), decode)
  }

  function DecodeFrom(input: seq<rune>, cursor: nat, decode: Decoder): Outcome
    requires cursor <= |input|
    decreases |input| - cursor
  {
    if cursor == |input| then Packets([])
    else match NextFrame(input, cursor, decode)
      case Stop(e) => Fails(e)
      case Panic => Panics
      case Frame(p, end) => Prepend(p, DecodeFrom(input, end, decode))
  }

  /** One turn of the loop: the separator, the count before it, and the body it announces. */
  method ReadFrame(input: seq<rune>, cursor: nat) returns (n: Next)
    requires cursor < |input|
    ensures n == NextFrame(input, cursor, DecodeText)
  {
    var separator := ColonFrom(input, cursor);
    if separator == |input| {
      return Stop(MalformedPayload);
    }
    var length := Atoi(input[cursor..separator]);
    if length.None? {
      return Stop(MalformedPayload);
    }
    var start := separator + 1;
    var end := Wrap(start + length.value);
    if length.value < 0 || end > |input| {
      return Stop(MalformedPayload);
    }
    if end < start {
      return Panic;
    }
    match DecodeText(input[start..end])
    case Bad(err) => return Stop(err);
    case Good(packet) => return Frame(packet, end);
  }

  /** decodeStringFramedPayload: the loop over the frames. */
  method DecodeStringFramedPayload(input: seq<rune>) returns (r: Outcome)
    ensures r == DecodeFrom(input, 0, DecodeText)
  {
    var packets: seq<Packet> := [];
    var cursor := 0;
    while cursor < |input|
      invariant 0 <= cursor <= |input|
      invariant DecodeFrom(input, 0, DecodeText) == After(packets, DecodeFrom(input, cursor, DecodeText))
    {
      var frame := ReadFrame(input, cursor);
      if frame.Stop? {
        return Fails(frame.error);
      }
      if frame.Panic? {
        return Panics;
      }
      AfterPrepend(packets, frame.packet, DecodeFrom(input, frame.end, DecodeText));
      packets := packets + [frame.packet];
      cursor := frame.end;
    }
    return Packets(packets);
  }

  // ---- What a payload is, independently of the decoder ----

  datatype StringFrame = StringFrame(count: seq<rune>, body: seq<rune>)

  /** A frame whose prefix reads as the number of runes of a body that decodes. */
  predicate ValidFrame(f: StringFrame, decode: Decoder) {
    Atoi(f.count) == Some(|f.body|) && decode(f.body).Good?
  }

  predicate AllValid(fs: seq<StringFrame>, decode: Decoder) {
    forall k :: 0 <= k < |fs| ==> ValidFrame(fs[k], decode)
  }

  function Wire(f: StringFrame): seq<rune> {
    f.count + [COLON] + f.body
  }

  function Wires(fs: seq<StringFrame>): seq<rune> {
    if fs == [] then [] else Wire(fs[0]) + Wires(fs[1..])
  }

  function Decodes(fs: seq<StringFrame>, decode: Decoder): seq<Packet>
    requires AllValid(fs, decode)
  {
    if fs == [] then [] else [decode(fs[0].body).packet] + Decodes(fs[1..], decode)
  }

  lemma {:induction false} NumberDigits(rs: seq<rune>, k: nat)
    requires Number(rs).Some? && k < |rs|
    ensures IsDigit(rs[k])
    decreases |rs|
  {
    if k < |rs| - 1 {
      NumberDigits(rs[..|rs| - 1], k);
    }
  }

  /** A count is written without ':', and starts with a digit or a sign. */
  lemma CountShape(rs: seq<rune>)
    requires Atoi(rs).Some?
    ensures rs != [] && (IsDigit(rs[0]) || Signed(rs)) && COLON !in rs
  {
    forall k | 0 <= k < |rs|
      ensures if k == 0 && Signed(rs) then rs[k] != COLON else IsDigit(rs[k])
    {
      if !Signed(rs) {
        NumberDigits(rs, k);
      } else if k > 0 {
        NumberDigits(rs[1..], k - 1);
      }
    }
  }

  lemma {:induction false} ColonIs(input: seq<rune>, i: nat, e: nat)
    requires i <= e < |input| && (forall k :: i <= k < e ==> input[k] != COLON) && input[e] == COLON
    ensures ColonFrom(input, i) == e
    decreases e - i
  {
    if i < e {
      ColonIs(input, i + 1, e);
    }
  }

  lemma CountIs(input: seq<rune>, cursor: nat, count: seq<rune>)
    requires cursor + |count| < |input| && input[cursor..cursor + |count|] == count && input[cursor + |count|] == COLON
    requires Atoi(count).Some?
    ensures CountAt(input, cursor) == Count(Atoi(count).value, cursor + |count| + 1)
  {
    CountShape(count);
    assert forall k :: cursor <= k < cursor + |count| ==> input[k] == input[cursor..cursor + |count|][k - cursor];
    ColonIs(input, cursor, cursor + |count|);
  }

  lemma Parts(input: seq<rune>, cursor: nat, f: StringFrame, rest: seq<rune>)
    requires cursor <= |input| && input[cursor..] == Wire(f) + rest
    ensures var e := cursor + |f.count|;
            && e + 1 + |f.body| <= |input| && input[cursor..e] == f.count && input[e] == COLON
            && input[e + 1..e + 1 + |f.body|] == f.body
  {
    Slice(input, cursor, [], f.count, [COLON] + f.body + rest);
    Slice(input, cursor, f.count, [COLON], f.body + rest);
    Slice(input, cursor, f.count + [COLON], f.body, rest);
  }

  lemma FrameOfIs(input: seq<rune>, start: nat, body: seq<rune>, decode: Decoder)
    requires start + |body| <= |input| <= MAX_INT && input[start..start + |body|] == body
    requires decode(body).Good?
    ensures FrameOf(input, Count(|body|, start), decode) == Frame(decode(body).packet, start + |body|)
  {
    WrapFits(start + |body|);
  }

  /** A frame standing at the cursor is what the decoder reads there. */
  lemma ReadsFrame(input: seq<rune>, cursor: nat, f: StringFrame, rest: seq<rune>, decode: Decoder)
    requires cursor <= |input| <= MAX_INT && ValidFrame(f, decode) && input[cursor..] == Wire(f) + rest
    ensures cursor < |input|
    ensures NextFrame(input, cursor, decode) == Frame(decode(f.body).packet, cursor + |Wire(f)|)
  {
    Parts(input, cursor, f, rest);
    CountIs(input, cursor, f.count);
    FrameOfIs(input, cursor + |f.count| + 1, f.body, decode);
  }

  lemma ReadsOne(input: seq<rune>, cursor: nat, fs: seq<StringFrame>, rest: seq<rune>, decode: Decoder)
    requires cursor <= |input| <= MAX_INT && AllValid(fs, decode) && fs != [] && input[cursor..] == Wires(fs) + rest
    ensures var end := cursor + |Wire(fs[0])|;
            && cursor < end <= |input| && input[end..] == Wires(fs[1..]) + rest
            && NextFrame(input, cursor, decode) == Frame(decode(fs[0].body).packet, end)
  {
    Assoc(Wire(fs[0]), Wires(fs[1..]), rest);
    ReadsFrame(input, cursor, fs[0], Wires(fs[1..]) + rest, decode);
    Tail(input, cursor, Wire(fs[0]), Wires(fs[1..]) + rest);
  }

  lemma DecodeStep(input: seq<rune>, cursor: nat, p: Packet, end: nat, decode: Decoder)
    requires cursor < |input| && NextFrame(input, cursor, decode) == Frame(p, end)
    ensures DecodeFrom(input, cursor, decode) == Prepend(p, DecodeFrom(input, end, decode))
  {}

  /** Valid frames are read through, whatever follows them. */
  lemma {:induction false} ReadsThrough(input: seq<rune>, cursor: nat, fs: seq<StringFrame>, end: nat, r: Outcome,
                                        decode: Decoder)
    requires cursor + |Wires(fs)| == end <= |input| <= MAX_INT && AllValid(fs, decode)
    requires input[cursor..] == Wires(fs) + input[end..] && DecodeFrom(input, end, decode) == r
    ensures DecodeFrom(input, cursor, decode) == After(Decodes(fs, decode), r)
    decreases |fs|
  {
    if fs == [] {
      NothingBefore(r);
    } else {
      var next, p := cursor + |Wire(fs[0])|, decode(fs[0].body).packet;
      ReadsOne(input, cursor, fs, input[end..], decode);
      assert next + |Wires(fs[1..])| == end;
      ReadsThrough(input, next, fs[1..], end, r, decode);
      DecodeStep(input, cursor, p, next, decode);
      PrependAfter(p, Decodes(fs[1..], decode), r);
    }
  }

  lemma ReadsFrames(input: seq<rune>, fs: seq<StringFrame>, decode: Decoder)
    requires |input| <= MAX_INT && AllValid(fs, decode) && input == Wires(fs)
    ensures DecodeFrom(input, 0, decode) == Packets(Decodes(fs, decode))
  {
    assert input[0..] == Wires(fs) + input[|input|..];
    ReadsThrough(input, 0, fs, |input|, Packets([]), decode);
    assert Decodes(fs, decode) + [] == Decodes(fs, decode);
  }

  lemma Reassemble(input: seq<rune>, cursor: nat, e: nat, end: nat)
    requires cursor <= e < end <= |input| && input[e] == COLON
    ensures input[cursor..] == Wire(StringFrame(input[cursor..e], input[e + 1..end])) + input[end..]
  {}

  /** Whatever the decoder reads at the cursor is a frame. */
  lemma FrameRead(input: seq<rune>, cursor: nat, decode: Decoder) returns (f: StringFrame)
    requires cursor < |input| && NextFrame(input, cursor, decode).Frame?
    ensures ValidFrame(f, decode) && NextFrame(input, cursor, decode).packet == decode(f.body).packet
    ensures input[cursor..] == Wire(f) + input[NextFrame(input, cursor, decode).end..]
  {
    var e, end := ColonFrom(input, cursor), NextFrame(input, cursor, decode).end;
    f := StringFrame(input[cursor..e], input[e + 1..end]);
    Reassemble(input, cursor, e, end);
  }

  lemma {:induction false} FramesRead(input: seq<rune>, cursor: nat, decode: Decoder) returns (fs: seq<StringFrame>)
    requires cursor <= |input| && DecodeFrom(input, cursor, decode).Packets?
    ensures AllValid(fs, decode) && Wires(fs) == input[cursor..] && Packets(Decodes(fs, decode)) == DecodeFrom(input, cursor, decode)
    decreases |input| - cursor
  {
    if cursor == |input| {
      fs := [];
    } else {
      var f := FrameRead(input, cursor, decode);
      var rest := FramesRead(input, NextFrame(input, cursor, decode).end, decode);
      fs := [f] + rest;
      assert fs[1..] == rest;
    }
  }

  /** fs is a way to cut the input into frames that decode to ps. */
  ghost predicate Tiles(fs: seq<StringFrame>, input: seq<rune>, ps: seq<Packet>, decode: Decoder) {
    AllValid(fs, decode) && Wires(fs) == input && Decodes(fs, decode) == ps
  }

  /** The decoder succeeds exactly on concatenations of frames, with their packets in order. */
  lemma DecodesExactlyFrames(input: seq<rune>, ps: seq<Packet>, decode: Decoder)
    requires |input| <= MAX_INT
    ensures DecodeFrom(input, 0, decode) == Packets(ps) <==> exists fs :: Tiles(fs, input, ps, decode)
  {
    assert input[0..] == input;
    if DecodeFrom(input, 0, decode) == Packets(ps) {
      var fs := FramesRead(input, 0, decode);
      assert Tiles(fs, input, ps, decode);
    }
    if fs :| Tiles(fs, input, ps, decode) {
      ReadsFrames(input, fs, decode);
    }
  }

  // ---- The canonical form: plain decimal counts ----

  function Itoa(n: nat): seq<rune> {
    if n < 10 then [ZERO + n] else Itoa(n / 10) + [ZERO + n % 10]
  }

  lemma {:induction false} ItoaNumber(n: nat)
    ensures Number(Itoa(n)) == Some(n) && 0 < |Itoa(n)| <= n / 10 + 1 && IsDigit(Itoa(n)[0])
  {
    if n < 10 {
      assert Itoa(n)[..0] == [];
    } else {
      ItoaNumber(n / 10);
      assert Itoa(n)[..|Itoa(n)| - 1] == Itoa(n / 10);
    }
  }

  /** "<rune count>:<packet>" for each text. */
  function Framed(texts: seq<seq<rune>>): seq<rune> {
    if texts == [] then [] else Itoa(|texts[0]|) + [COLON] + texts[0] + Framed(texts[1..])
  }

  function AsFrames(texts: seq<seq<rune>>): (fs: seq<StringFrame>)
    ensures |fs| == |texts| && forall k :: 0 <= k < |fs| ==> fs[k] == StringFrame(Itoa(|texts[k]|), texts[k])
  {
    seq(|texts|, k requires 0 <= k < |texts| => StringFrame(Itoa(|texts[k]|), texts[k]))
  }

  lemma {:induction false} FramedWires(texts: seq<seq<rune>>)
    ensures Framed(texts) == Wires(AsFrames(texts))
  {
    if texts != [] {
      FramedWires(texts[1..]);
      assert AsFrames(texts)[1..] == AsFrames(texts[1..]);
    }
  }

  lemma {:induction false} FramedLength(texts: seq<seq<rune>>, k: nat)
    requires k < |texts|
    ensures |texts[k]| <= |Framed(texts)|
  {
    if k > 0 {
      FramedLength(texts[1..], k - 1);
    }
  }

  /** Every list of decodable packet texts comes back, each counted in runes. */
  lemma FramedDecodes(texts: seq<seq<rune>>, decode: Decoder)
    requires forall k :: 0 <= k < |texts| ==> decode(texts[k]).Good?
    requires |Framed(texts)| <= MAX_INT
    ensures var r := DecodeFrom(Framed(texts), 0, decode);
            && r.Packets? && |r.packets| == |texts|
            && forall k :: 0 <= k < |texts| ==> Good(r.packets[k]) == decode(texts[k])
  {
    var fs := AsFrames(texts);
    FramedWires(texts);
    forall k | 0 <= k < |fs|
      ensures ValidFrame(fs[k], decode)
    {
      ItoaNumber(|texts[k]|);
      FramedLength(texts, k);
    }
    ReadsFrames(Framed(texts), fs, decode);
    DecodesEach(fs, decode);
  }

  lemma {:induction false} DecodesEach(fs: seq<StringFrame>, decode: Decoder)
    requires AllValid(fs, decode)
    ensures |Decodes(fs, decode)| == |fs|
    ensures forall k :: 0 <= k < |fs| ==> Good(Decodes(fs, decode)[k]) == decode(fs[k].body)
  {
    if fs != [] {
      DecodesEach(fs[1..], decode);
    }
  }

  // ---- Where the source panics ----

  /** Valid frames, then a count that fits an int but makes the end of its body wrap, then anything. */
  ghost predicate Overruns(fs: seq<StringFrame>, count: seq<rune>, rest: seq<rune>, input: seq<rune>, decode: Decoder) {
    && AllValid(fs, decode) && input == Wires(fs) + (count + [COLON] + rest)
    && Atoi(count).Some? && Atoi(count).value >= 0
    && |Wires(fs)| + |count| + 1 + Atoi(count).value > MAX_INT
  }

  lemma AtoiRange(rs: seq<rune>)
    ensures Atoi(rs).Some? ==> -MAX_INT - 1 <= Atoi(rs).value <= MAX_INT
  {}

  lemma CountPanics(input: seq<rune>, cursor: nat, count: seq<rune>, rest: seq<rune>, decode: Decoder)
    requires cursor <= |input| <= MAX_INT && input[cursor..] == count + [COLON] + rest && Atoi(count).Some?
    requires Atoi(count).value >= 0 && cursor + |count| + 1 + Atoi(count).value > MAX_INT
    ensures cursor < |input| && NextFrame(input, cursor, decode) == Panic
  {
    var f := StringFrame(count, []);
    assert Wire(f) + rest == count + [COLON] + rest;
    Parts(input, cursor, f, rest);
    CountIs(input, cursor, count);
    AtoiRange(count);
    WrapEnd(cursor + |count| + 1, Atoi(count).value);
    WrapFits(cursor + |count| + 1 + Atoi(count).value);
  }

  lemma OverrunPanics(fs: seq<StringFrame>, count: seq<rune>, rest: seq<rune>, input: seq<rune>, decode: Decoder)
    requires |input| <= MAX_INT && Overruns(fs, count, rest, input, decode)
    ensures DecodeFrom(input, 0, decode) == Panics
  {
    var end := |Wires(fs)|;
    assert input[0..] == input;
    Tail(input, 0, Wires(fs), count + [COLON] + rest);
    CountPanics(input, end, count, rest, decode);
    PanicStep(input, end, decode);
    ReadsThrough(input, 0, fs, end, Panics, decode);
  }

  lemma PanicStep(input: seq<rune>, cursor: nat, decode: Decoder)
    requires cursor < |input| && NextFrame(input, cursor, decode) == Panic
    ensures DecodeFrom(input, cursor, decode) == Panics
  {}

  lemma PanicRead(input: seq<rune>, cursor: nat, decode: Decoder) returns (count: seq<rune>, rest: seq<rune>)
    requires cursor < |input| <= MAX_INT && NextFrame(input, cursor, decode) == Panic
    ensures input[cursor..] == count + [COLON] + rest && Atoi(count).Some? && Atoi(count).value >= 0
    ensures cursor + |count| + 1 + Atoi(count).value > MAX_INT
  {
    var e := ColonFrom(input, cursor);
    count, rest := input[cursor..e], input[e + 1..];
    AtoiRange(count);
    WrapEnd(e + 1, Atoi(count).value);
  }

  lemma FrameEnd(input: seq<rune>, cursor: nat, f: StringFrame, end: nat)
    requires cursor <= end <= |input| && input[cursor..] == Wire(f) + input[end..]
    ensures end == cursor + |Wire(f)|
  {
    assert |input[cursor..]| == |Wire(f)| + |input[end..]|;
  }

  lemma {:induction false} PanicsRead(input: seq<rune>, cursor: nat, decode: Decoder)
      returns (fs: seq<StringFrame>, count: seq<rune>, rest: seq<rune>)
    requires cursor <= |input| <= MAX_INT && DecodeFrom(input, cursor, decode) == Panics
    ensures AllValid(fs, decode) && input[cursor..] == Wires(fs) + (count + [COLON] + rest)
    ensures Atoi(count).Some? && Atoi(count).value >= 0 && cursor + |Wires(fs)| + |count| + 1 + Atoi(count).value > MAX_INT
    decreases |input| - cursor
  {
    if NextFrame(input, cursor, decode).Panic? {
      count, rest := PanicRead(input, cursor, decode);
      fs := [];
      assert Wires(fs) + (count + [COLON] + rest) == count + [COLON] + rest;
    } else {
      var f := FrameRead(input, cursor, decode);
      var end := NextFrame(input, cursor, decode).end;
      FrameEnd(input, cursor, f, end);
      fs, count, rest := PanicsRead(input, end, decode);
      Assoc(Wire(f), Wires(fs), count + [COLON] + rest);
      fs := [f] + fs;
    }
  }

  /** The decoder panics exactly where a count fits an int but the end of its body does not. */
  lemma PanicsExactly(input: seq<rune>, decode: Decoder)
    requires |input| <= MAX_INT
    ensures DecodeFrom(input, 0, decode) == Panics <==> exists fs, count, rest :: Overruns(fs, count, rest, input, decode)
  {
    if DecodeFrom(input, 0, decode) == Panics {
      var fs, count, rest := PanicsRead(input, 0, decode);
      assert input[0..] == input;
      assert Overruns(fs, count, rest, input, decode);
    }
    if fs, count, rest :| Overruns(fs, count, rest, input, decode) {
      OverrunPanics(fs, count, rest, input, decode);
    }
  }

  /** The largest int as a count: the end of its body wraps, and the slice panics. */
  lemma LargestCountPanics(decode: Decoder)
    ensures DecodeFrom(Itoa(MAX_INT) + [COLON], 0, decode) == Panics
  {
    ItoaNumber(MAX_INT);
    LoneCountPanics(Itoa(MAX_INT), decode);
  }

  lemma LoneCountPanics(count: seq<rune>, decode: Decoder)
    requires |count| < MAX_INT && Atoi(count) == Some(MAX_INT)
    ensures DecodeFrom(count + [COLON], 0, decode) == Panics
  {
    assert Wires([]) + (count + [COLON] + []) == count + [COLON];
    OverrunPanics([], count, [], count + [COLON], decode);
  }

  // ---- Binary need not mean message ----

  /** The frame's type is that of a message, if its packet is binary. */
  predicate NamesMessage(f: StringFrame)
    requires DecodeText(f.body).Good?
  {
    Text(f.body)[0] == BINARY_MARKER ==> Text(f.body)[1] == TypeByte(MESSAGE)
  }

  /** As for the binary framing: well-formed exactly when every frame names a message where it must. */
  lemma PayloadWellFormed(input: seq<rune>, fs: seq<StringFrame>, ps: seq<Packet>)
    requires Tiles(fs, input, ps, DecodeText)
    ensures (forall k :: 0 <= k < |ps| ==> WellFormed(ps[k])) <==> (forall k :: 0 <= k < |fs| ==> NamesMessage(fs[k]))
  {
    DecodesEach(fs, DecodeText);
    forall k | 0 <= k < |fs|
      ensures WellFormed(ps[k]) <==> NamesMessage(fs[k])
    {
      assert ValidFrame(fs[k], DecodeText);
      LegacyWellFormed(Text(fs[k].body));
    }
  }

  // ---- Which error ----

  /** Valid frames, then one whose count is right and whose body fails with e, then anything. */
  ghost predicate BadBody(fs: seq<StringFrame>, f: StringFrame, rest: seq<rune>, input: seq<rune>, decode: Decoder, e: Error) {
    && AllValid(fs, decode) && input == Wires(fs) + (Wire(f) + rest)
    && Atoi(f.count) == Some(|f.body|) && decode(f.body) == Bad(e)
  }

  lemma StopsAt(input: seq<rune>, cursor: nat, f: StringFrame, rest: seq<rune>, decode: Decoder, e: Error)
    requires cursor <= |input| <= MAX_INT && input[cursor..] == Wire(f) + rest
    requires Atoi(f.count) == Some(|f.body|) && decode(f.body) == Bad(e)
    ensures cursor < |input| && DecodeFrom(input, cursor, decode) == Fails(e)
  {
    Parts(input, cursor, f, rest);
    CountIs(input, cursor, f.count);
    BadFrameOf(input, cursor + |f.count| + 1, f.body, decode, e);
    StopStep(input, cursor, decode, e);
  }

  lemma BadFrameOf(input: seq<rune>, start: nat, body: seq<rune>, decode: Decoder, e: Error)
    requires start + |body| <= |input| <= MAX_INT && input[start..start + |body|] == body && decode(body) == Bad(e)
    ensures FrameOf(input, Count(|body|, start), decode) == Stop(e)
  {
    WrapFits(start + |body|);
  }

  lemma StopStep(input: seq<rune>, cursor: nat, decode: Decoder, e: Error)
    requires cursor < |input| && NextFrame(input, cursor, decode) == Stop(e)
    ensures DecodeFrom(input, cursor, decode) == Fails(e)
  {}

  lemma BadBodyFails(fs: seq<StringFrame>, f: StringFrame, rest: seq<rune>, input: seq<rune>, decode: Decoder, e: Error)
    requires |input| <= MAX_INT && BadBody(fs, f, rest, input, decode, e)
    ensures DecodeFrom(input, 0, decode) == Fails(e)
  {
    var end := |Wires(fs)|;
    assert input[0..] == input;
    Tail(input, 0, Wires(fs), Wire(f) + rest);
    StopsAt(input, end, f, rest, decode, e);
    ReadsThrough(input, 0, fs, end, Fails(e), decode);
  }

  lemma StopRead(input: seq<rune>, cursor: nat, decode: Decoder) returns (f: StringFrame, rest: seq<rune>)
    requires cursor < |input| <= MAX_INT
    requires NextFrame(input, cursor, decode).Stop? && NextFrame(input, cursor, decode).error != MalformedPayload
    ensures input[cursor..] == Wire(f) + rest && Atoi(f.count) == Some(|f.body|)
    ensures decode(f.body) == Bad(NextFrame(input, cursor, decode).error)
  {
    var e := ColonFrom(input, cursor);
    var length := Atoi(input[cursor..e]).value;
    AtoiRange(input[cursor..e]);
    WrapEnd(e + 1, length);
    f, rest := StringFrame(input[cursor..e], input[e + 1..e + 1 + length]), input[e + 1 + length..];
    Reassemble(input, cursor, e, e + 1 + length);
  }

  lemma {:induction false} FailsRead(input: seq<rune>, cursor: nat, decode: Decoder, e: Error)
      returns (fs: seq<StringFrame>, f: StringFrame, rest: seq<rune>)
    requires cursor <= |input| <= MAX_INT && DecodeFrom(input, cursor, decode) == Fails(e) && e != MalformedPayload
    ensures AllValid(fs, decode) && input[cursor..] == Wires(fs) + (Wire(f) + rest)
    ensures Atoi(f.count) == Some(|f.body|) && decode(f.body) == Bad(e)
    decreases |input| - cursor
  {
    if NextFrame(input, cursor, decode).Stop? {
      f, rest := StopRead(input, cursor, decode);
      fs := [];
      assert Wires(fs) + (Wire(f) + rest) == Wire(f) + rest;
    } else {
      var g := FrameRead(input, cursor, decode);
      fs, f, rest := FailsRead(input, NextFrame(input, cursor, decode).end, decode, e);
      Assoc(Wire(g), Wires(fs), Wire(f) + rest);
      fs := [g] + fs;
    }
  }

  /** The decoder fails with another error than malformed exactly where the first bad body fails with it. */
  lemma FailsExactly(input: seq<rune>, decode: Decoder, e: Error)
    requires |input| <= MAX_INT && e != MalformedPayload
    ensures DecodeFrom(input, 0, decode) == Fails(e) <==> exists fs, f, rest :: BadBody(fs, f, rest, input, decode, e)
  {
    if DecodeFrom(input, 0, decode) == Fails(e) {
      var fs, f, rest := FailsRead(input, 0, decode, e);
      assert input[0..] == input;
      assert BadBody(fs, f, rest, input, decode, e);
    }
    if fs, f, rest :| BadBody(fs, f, rest, input, decode, e) {
      BadBodyFails(fs, f, rest, input, decode, e);
    }
  }

  // ---- How a payload may open ----

  /** What the decoder accepts opens with a digit exactly when its first count carries no plus sign; a minus sign is never accepted. */
  lemma OpensWithDigit(input: seq<rune>)
    requires input != [] && DecodeFrom(input, 0, DecodeText).Packets?
    ensures IsDigit(input[0]) <==> input[0] != PLUS
  {
    var e := ColonFrom(input, 0);
    var count := input[0..e];
    CountShape(count);
    assert count[0] == input[0];
    if input[0] == MINUS {
      EmptyBody(input, CountAt(input, 0));
      assert false;
    }
  }

  lemma EmptyBody(input: seq<rune>, c: Count)
    requires c.Count? && c.start <= |input| && c.value <= 0
    ensures !FrameOf(input, c, DecodeText).Frame?
  {
    WrapFits(c.start);
    if c.value == 0 && Wrap(c.start) == c.start {
      assert input[c.start..c.start] == [] && Text([]) == [];
    }
  }

  lemma PlusSame(count: seq<rune>)
    requires Atoi(count).Some? && IsDigit(count[0])
    ensures Atoi([PLUS] + count) == Atoi(count)
  {
    assert ([PLUS] + count)[1..] == count;
  }

  lemma FirstRune(fs: seq<StringFrame>, decode: Decoder)
    requires fs != [] && AllValid(fs, decode)
    ensures Wires(fs) != [] && fs[0].count != [] && Wires(fs)[0] == fs[0].count[0]
  {
    CountShape(fs[0].count);
  }

  lemma PlusWires(f: StringFrame, rest: seq<StringFrame>)
    ensures Wires([StringFrame([PLUS] + f.count, f.body)] + rest) == [PLUS] + Wires([f] + rest)
  {
    var g := StringFrame([PLUS] + f.count, f.body);
    assert ([g] + rest)[1..] == rest && ([f] + rest)[1..] == rest;
    assert Wire(g) == [PLUS] + Wire(f);
  }

  lemma PlusTiles(fs: seq<StringFrame>, input: seq<rune>, ps: seq<Packet>, decode: Decoder) returns (fs': seq<StringFrame>)
    requires Tiles(fs, input, ps, decode) && input != [] && IsDigit(input[0])
    ensures Tiles(fs', [PLUS] + input, ps, decode)
  {
    FirstRune(fs, decode);
    var f := fs[0];
    PlusSame(f.count);
    fs' := [StringFrame([PLUS] + f.count, f.body)] + fs[1..];
    assert fs == [f] + fs[1..] && fs'[1..] == fs[1..];
    PlusWires(f, fs[1..]);
  }

  /** A plus sign in front of an accepted payload that opens with a digit changes nothing. */
  lemma PlusDecodesAlike(input: seq<rune>, decode: Decoder)
    requires input != [] && |input| < MAX_INT && IsDigit(input[0]) && DecodeFrom(input, 0, decode).Packets?
    ensures DecodeFrom([PLUS] + input, 0, decode) == DecodeFrom(input, 0, decode)
  {
    var ps := DecodeFrom(input, 0, decode).packets;
    DecodesExactlyFrames(input, ps, decode);
    var fs: seq<StringFrame> :| Tiles(fs, input, ps, decode);
    var fs' := PlusTiles(fs, input, ps, decode);
    DecodesExactlyFrames([PLUS] + input, ps, decode);
  }

  lemma OneNoop()
    ensures DecodeFrom([ZERO + 1, COLON, ZERO + 6], 0, DecodeText) == Packets([Packet(NOOP, [], false)])
  {
    var frame := StringFrame([ZERO + 1], [ZERO + 6]);
    assert [frame][1..] == [] && [ZERO + 1][..0] == [] && [ZERO + 6][1..] == [];
    assert Text([ZERO + 6]) == Utf8(ZERO + 6) + Text([]) == [ZERO + 6];
    var packet: seq<byte> := [ZERO + 6];
    assert packet[1..] == [] && DecodeStringPacket(packet) == Good(Packet(NOOP, [], false));
    assert Number([ZERO + 1]) == Some(1);
    assert ValidFrame(frame, DecodeText);
    assert Wires([frame]) == [ZERO + 1, COLON, ZERO + 6];
    assert Tiles([frame], [ZERO + 1, COLON, ZERO + 6], [Packet(NOOP, [], false)], DecodeText);
    DecodesExactlyFrames([ZERO + 1, COLON, ZERO + 6], [Packet(NOOP, [], false)], DecodeText);
  }

  /** "+1:6" is a payload of one noop. */
  lemma SignedCountDecodes()
    ensures DecodeFrom([43, 49, 58, 54], 0, DecodeText) == Packets([Packet(6, [], false)])
  {
    OneNoop();
    PlusDecodesAlike([ZERO + 1, COLON, ZERO + 6], DecodeText);
    assert [PLUS] + [ZERO + 1, COLON, ZERO + 6] == [PLUS, ZERO + 1, COLON, ZERO + 6];
  }
}

/** Which machine reads a payload (DecodePayload). */
module VersionedPayload {
  import opened Basics
  import opened LegacyPackets
  import B = BinaryFraming
  import T = StringFraming

  datatype Machine = RecordSeparator | Binary | Text | Unsupported

  function Select(version: int, input: seq<byte>): Machine {
    if version == 4 then RecordSeparator
    else if version == 3 then
      if input != [] && (input[0] == B.STRING_MARKER || input[0] == B.RAW_MARKER) then Binary else Text
    else if version == 2 then Text
    else Unsupported
  }

  lemma TextStart(runes: seq<T.rune>)
    requires runes != [] && T.Text(runes)[0] < 128
    ensures runes[0] == T.Text(runes)[0]
  {
    assert T.Text(runes)[0] == T.Utf8(runes[0])[0];
  }

  lemma OpensWithCount(runes: seq<T.rune>)
    requires runes != [] && T.CountAt(runes, 0).Count?
    ensures T.IsDigit(runes[0]) || T.Signed(runes)
  {
    var count := runes[0..T.ColonFrom(runes, 0)];
    T.CountShape(count);
    assert count[0] == runes[0];
  }

  /** A text that opens with a binary frame marker is malformed under the string framing. */
  lemma MarkerIsNotText(runes: seq<T.rune>)
    requires runes != [] && (T.Text(runes)[0] == B.STRING_MARKER || T.Text(runes)[0] == B.RAW_MARKER)
    ensures T.DecodeFrom(runes, 0, T.DecodeText) == Fails(MalformedPayload)
  {
    TextStart(runes);
    if T.CountAt(runes, 0).Count? {
      OpensWithCount(runes);
      assert false;
    }
  }

  /** The first byte picks the v3 machine without costing either machine a payload it accepts. */
  lemma SelectionLosesNothing(input: seq<byte>, runes: seq<T.rune>)
    requires input != []
    ensures B.DecodeFrom(input, 0).Packets? ==> Select(3, input) == Binary
    ensures input == T.Text(runes) && T.DecodeFrom(runes, 0, T.DecodeText).Packets? ==> Select(3, input) == Text && Select(2, input) == Text
  {
    if input == T.Text(runes) && T.DecodeFrom(runes, 0, T.DecodeText).Packets? && Select(3, input) == Binary {
      MarkerIsNotText(runes);
      assert false;
    }
  }
}
