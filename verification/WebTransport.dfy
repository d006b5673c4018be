/** The WebTransport framing: a length-prefixed stream of packets (encoding_webtransport.go). */
module WebTransportFraming {
  import opened Basics
  import opened Packets

  const LEN16_MARKER: byte := 126
  const LEN64_MARKER: byte := 127
  const BINARY_FLAG: byte := 128

  // ---- Big-endian integers ----

  function Pow256(k: nat): nat {
    if k == 0 then 1 else 256 * Pow256(k - 1)
  }

  /** The last k base-256 digits of n, most significant first. */
  function BigEndian(n: nat, k: nat): (bs: seq<byte>)
    ensures |bs| == k
  {
    if k == 0 then [] else BigEndian(n / 256, k - 1) + [n % 256]
  }

  function FromBigEndian(bs: seq<byte>): nat {
    if bs == [] then 0 else FromBigEndian(bs[..|bs| - 1]) * 256 + bs[|bs| - 1]
  }

  lemma {:induction false} BigEndianRoundTrip(n: nat, k: nat)
    requires n < Pow256(k)
    ensures FromBigEndian(BigEndian(n, k)) == n
  {
    if k > 0 {
      BigEndianRoundTrip(n / 256, k - 1);
      assert BigEndian(n, k)[..k - 1] == BigEndian(n / 256, k - 1);
    }
  }

  lemma {:induction false} BigEndianBound(bs: seq<byte>)
    ensures FromBigEndian(bs) < Pow256(|bs|)
  {
    if bs != [] {
      BigEndianBound(bs[..|bs| - 1]);
    }
  }

  lemma Capacities()
    ensures Pow256(2) == 0x1_0000 && Pow256(8) == 0x1_0000_0000_0000_0000
  {
    assert Pow256(1) == 256 && Pow256(2) == 0x1_0000 && Pow256(3) == 0x100_0000 && Pow256(4) == 0x1_0000_0000;
    assert Pow256(5) == 0x100_0000_0000 && Pow256(6) == 0x1_0000_0000_0000 && Pow256(7) == 0x100_0000_0000_0000;
  }

  // ---- Writing ----

  function Body(p: Packet): seq<byte> {
    if p.isBinary then p.data else EncodePacket(p)
  }

  function Flag(isBinary: bool): byte {
    if isBinary then BINARY_FLAG else 0
  }

  function Header(length: nat, isBinary: bool): seq<byte> {
    if length < LEN16_MARKER then [length + Flag(isBinary)]
    else if length < 0x1_0000 then [LEN16_MARKER + Flag(isBinary)] + BigEndian(length, 2)
    else [LEN64_MARKER + Flag(isBinary)] + BigEndian(length, 8)
  }

  function Frame(p: Packet): seq<byte> {
    Header(|Body(p)|, p.isBinary) + Body(p)
  }

  function Frames(ps: seq<Packet>): seq<byte> {
    if ps == [] then [] else Frame(ps[0]) + Frames(ps[1..])
  }

  method AppendWebTransportFrame(dst: seq<byte>, packet: Packet) returns (out: seq<byte>)
    ensures out == dst + Frame(packet)
  {
    var payload: seq<byte>;
    var flag: byte := 0;
    if packet.isBinary {
      payload := packet.data;
      flag := BINARY_FLAG;
    } else {
      payload := EncodePacket(packet);
    }
    var length := |payload|;
    out := dst;
    if length < LEN16_MARKER {
      out := out + [length + flag];
    } else if length < 0x1_0000 {
      out := out + [LEN16_MARKER + flag];
      out := out + BigEndian(length, 2);
    } else {
      out := out + [LEN64_MARKER + flag];
      out := out + BigEndian(length, 8);
    }
    out := out + payload;
  }

  // ---- Reading ----

  datatype Error = Truncated | TooLarge | BadPacket

  datatype Outcome = Read(packet: Packet, rest: seq<byte>) | Failed(error: Error, rest: seq<byte>)

  datatype Head = Head(isBinary: bool, length: nat, size: nat) | NoHead

  /** Header size announced by the first byte. */
  function HeadSize(first: byte): nat {
    var marker := first % BINARY_FLAG;
    if marker < LEN16_MARKER then 1 else if marker == LEN16_MARKER then 3 else 9
  }

  function ReadHead(input: seq<byte>): (h: Head)
    ensures h.Head? ==> 1 <= h.size <= |input|
  {
    if input == [] || |input| < HeadSize(input[0]) then NoHead
    else
      var size := HeadSize(input[0]);
      Head(input[0] >= BINARY_FLAG,
           if size == 1 then input[0] % BINARY_FLAG else FromBigEndian(input[1..size]),
           size)
  }

  /** What a payload of the given kind decodes to. */
  function Interpret(isBinary: bool, payload: seq<byte>): Option<Packet> {
    if isBinary then Some(Packet(MESSAGE, payload, true))
    else match DecodePacket(payload)
      case Ok(p) => Some(p)
      case Err(_) => None
  }

  function ReadFrame(input: seq<byte>, maxPayload: int): Outcome {
    match ReadHead(input)
    case NoHead => Failed(Truncated, [])
    case Head(isBinary, length, size) =>
      if maxPayload > 0 && length > maxPayload then Failed(TooLarge, input[size..])
      else if |input| < size + length then Failed(Truncated, [])
      else match Interpret(isBinary, input[size..size + length])
        case None => Failed(BadPacket, input[size + length..])
        case Some(p) => Read(p, input[size + length..])
  }
}

/** The stream object the source reads from. */
module WebTransportStream {
  import opened Basics
  import opened WebTransportFraming

  class Reader {
    var data: seq<byte>

    constructor (bytes: seq<byte>)
      ensures data == bytes
    {
      data := bytes;
    }

    /** io.ReadFull: n bytes, or an error once the stream is exhausted. */
    method ReadFull(n: nat) returns (r: Option<seq<byte>>)
      modifies this
      ensures if n <= |old(data)| then r == Some(old(data)[..n]) && data == old(data)[n..] else r == None && data == []
    {
      if n <= |data| {
        r := Some(data[..n]);
        data := data[n..];
      } else {
        r := None;
        data := [];
      }
    }
  }

  /** The header byte and the extended length it announces. */
  method ReadHeader(r: Reader) returns (h: Head)
    modifies r
    ensures h == ReadHead(old(r.data)) && r.data == if h.Head? then old(r.data)[h.size..] else []
  {
    var header := r.ReadFull(1);
    if header.None? {
      return NoHead;
    }
    var isBinary := header.value[0] >= BINARY_FLAG;
    var marker := header.value[0] % BINARY_FLAG;
    if marker < LEN16_MARKER {
      return Head(isBinary, marker, 1);
    }
    var size := if marker == LEN16_MARKER then 2 else 8;
    var extended := r.ReadFull(size);
    if extended.None? {
      return NoHead;
    }
    assert extended.value == old(r.data)[1..1 + size];
    return Head(isBinary, FromBigEndian(extended.value), 1 + size);
  }

  method ReadWebTransportPacket(r: Reader, maxPayload: int) returns (out: Outcome)
    modifies r
    ensures out == ReadFrame(old(r.data), maxPayload) && r.data == out.rest
  {
    var header := ReadHeader(r);
    if header.NoHead? {
      return Failed(Truncated, r.data);
    }
    if maxPayload > 0 && header.length > maxPayload {
      return Failed(TooLarge, r.data);
    }
    var payload := r.ReadFull(header.length);
    if payload.None? {
      return Failed(Truncated, r.data);
    }
    assert payload.value == old(r.data)[header.size..header.size + header.length];
    assert r.data == old(r.data)[header.size + header.length..];
    match Interpret(header.isBinary, payload.value)
    case None => return Failed(BadPacket, r.data);
    case Some(p) => return Read(p, r.data);
  }
}

module WebTransportProofs {
  import opened Basics
  import opened Packets
  import opened WebTransportFraming

  /** Lengths the header can carry. */
  predicate Representable(n: nat) {
    n < 0x1_0000_0000_0000_0000
  }

  lemma HeaderReads(length: nat, isBinary: bool, rest: seq<byte>)
    requires Representable(length)
    ensures ReadHead(Header(length, isBinary) + rest) == Head(isBinary, length, |Header(length, isBinary)|)
  {
    var h := Header(length, isBinary);
    Capacities();
    if length >= LEN16_MARKER {
      var k := if length < 0x1_0000 then 2 else 8;
      assert h[1..] == BigEndian(length, k);
      assert (h + rest)[1..1 + k] == h[1..];
      BigEndianRoundTrip(length, k);
    }
  }

  /** A frame is read back, leaving the rest of the stream, exactly when its packet is well-formed and within the limit. */
  lemma FrameRoundTrip(p: Packet, rest: seq<byte>, maxPayload: int)
    requires Representable(|Body(p)|)
    ensures ReadFrame(Frame(p) + rest, maxPayload) == Read(p, rest) <==>
            WellFormed(p) && (maxPayload <= 0 || |Body(p)| <= maxPayload)
  {
    var h := Header(|Body(p)|, p.isBinary);
    assert Frame(p) + rest == h + (Body(p) + rest);
    HeaderReads(|Body(p)|, p.isBinary, Body(p) + rest);
    assert (Frame(p) + rest)[|h|..|h| + |Body(p)|] == Body(p);
    assert (Frame(p) + rest)[|h| + |Body(p)|..] == rest;
    PacketRoundTrip(p);
  }

  /** Reads n packets in a row. */
  function ReadMany(input: seq<byte>, n: nat, maxPayload: int): Option<(seq<Packet>, seq<byte>)> {
    if n == 0 then Some(([], input))
    else match ReadFrame(input, maxPayload)
      case Failed(_, _) => None
      case Read(p, rest) =>
        match ReadMany(rest, n - 1, maxPayload)
        case None => None
        case Some((ps, end)) => Some(([p] + ps, end))
  }

  lemma ReadManyStep(input: seq<byte>, n: nat, maxPayload: int, p: Packet, rest: seq<byte>, ps: seq<Packet>, end: seq<byte>)
    requires ReadFrame(input, maxPayload) == Read(p, rest) && ReadMany(rest, n, maxPayload) == Some((ps, end))
    ensures ReadMany(input, n + 1, maxPayload) == Some(([p] + ps, end))
  {}

  predicate Sendable(p: Packet, maxPayload: int) {
    WellFormed(p) && Representable(|Body(p)|) && (maxPayload <= 0 || |Body(p)| <= maxPayload)
  }

  /** Reading the concatenated frames of any packets returns them and leaves the remainder. */
  lemma {:induction false} StreamRoundTrip(ps: seq<Packet>, rest: seq<byte>, maxPayload: int)
    requires forall k :: 0 <= k < |ps| ==> Sendable(ps[k], maxPayload)
    ensures ReadMany(Frames(ps) + rest, |ps|, maxPayload) == Some((ps, rest))
  {
    if ps == [] {
      assert Frames(ps) + rest == rest;
    } else {
      var tail := Frames(ps[1..]) + rest;
      assert Sendable(ps[0], maxPayload);
      FrameRoundTrip(ps[0], tail, maxPayload);
      StreamRoundTrip(ps[1..], rest, maxPayload);
      Assoc(Frame(ps[0]), Frames(ps[1..]), rest);
      ReadManyStep(Frames(ps) + rest, |ps| - 1, maxPayload, ps[0], tail, ps[1..], rest);
      assert [ps[0]] + ps[1..] == ps;
    }
  }

  /** No header that announces this length is shorter than the one written. */
  lemma ShortestHeader(h: seq<byte>, length: nat, isBinary: bool)
    requires ReadHead(h) == Head(isBinary, length, |h|)
    ensures Representable(length) && |Header(length, isBinary)| <= |h|
  {
    Capacities();
    if |h| > 1 {
      assert h[1..] == h[1..|h|];
      BigEndianBound(h[1..]);
    }
  }

  /** A packet is read from a frame and nothing less: any strict prefix of the bytes consumed is truncated. */
  lemma NoPrefixReads(input: seq<byte>, maxPayload: int, j: nat)
    requires ReadFrame(input, maxPayload).Read? && j < |input| - |ReadFrame(input, maxPayload).rest|
    ensures ReadFrame(input[..j], maxPayload) == Failed(Truncated, [])
  {
    var short := input[..j];
    if short != [] && |short| >= HeadSize(short[0]) {
      assert short[1..HeadSize(short[0])] == input[1..HeadSize(input[0])];
    }
  }

  /** The header in bytes: the length itself, or 126 and two bytes, or 127 and eight, with the top bit for binary. */
  lemma HeaderBytes(length: nat, isBinary: bool)
    requires Representable(length)
    ensures var flag := if isBinary then 128 else 0;
            Header(length, isBinary) ==
              if length < 126 then [flag + length]
              else if length < 65536 then [flag + 126, length / 256, length % 256]
              else [flag + 127] + BigEndian(length, 8)
  {
    if 126 <= length < 65536 {
      assert BigEndian(length, 2) == BigEndian(length / 256, 1) + [length % 256];
      assert BigEndian(length / 256, 1) == [] + [length / 256 % 256];
    }
  }

  // ---- What is refused ----

  /** A frame beyond the limit is refused with its body unread, and one whose packet is bad with the stream right after it. */
  lemma RefusedFrames(p: Packet, rest: seq<byte>, maxPayload: int)
    requires Representable(|Body(p)|)
    ensures maxPayload > 0 && |Body(p)| > maxPayload ==>
              ReadFrame(Frame(p) + rest, maxPayload) == Failed(TooLarge, Body(p) + rest)
    ensures (maxPayload <= 0 || |Body(p)| <= maxPayload) && Interpret(p.isBinary, Body(p)) == None ==>
              ReadFrame(Frame(p) + rest, maxPayload) == Failed(BadPacket, rest)
  {
    var h := Header(|Body(p)|, p.isBinary);
    assert Frame(p) + rest == h + (Body(p) + rest);
    HeaderReads(|Body(p)|, p.isBinary, Body(p) + rest);
    assert (Frame(p) + rest)[|h|..] == Body(p) + rest;
    assert (Frame(p) + rest)[|h|..|h| + |Body(p)|] == Body(p);
    assert (Frame(p) + rest)[|h| + |Body(p)|..] == rest;
  }
}
