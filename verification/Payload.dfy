/** The v4 long-polling payload: packets joined by the record separator (payload.go). */
module Payload {
  import opened Basics
  import opened Packets
  import Base64

  const SEPARATOR: byte := 0x1e

  function EncodePayload(ps: seq<Packet>): seq<byte> {
    if ps == [] then []
    else if |ps| == 1 then EncodePacket(ps[0])
    else EncodePacket(ps[0]) + [SEPARATOR] + EncodePayload(ps[1..])
  }

  lemma {:induction false} EncodeAppend(a: seq<Packet>, b: seq<Packet>)
    requires a != [] && b != []
    ensures EncodePayload(a + b) == EncodePayload(a) + [SEPARATOR] + EncodePayload(b)
  {
    assert (a + b)[1..] == a[1..] + b;
    if |a| > 1 {
      EncodeAppend(a[1..], b);
    } else {
      assert a[1..] + b == b;
    }
  }

  /** appendPayload: encodes into dst packet by packet. */
  method AppendPayload(dst: seq<byte>, packets: seq<Packet>) returns (out: seq<byte>)
    ensures out == dst + EncodePayload(packets)
  {
    out := dst;
    for i := 0 to |packets|
      invariant out == dst + EncodePayload(packets[..i])
    {
      if i > 0 {
        out := out + [SEPARATOR];
        EncodeAppend(packets[..i], [packets[i]]);
      }
      out := out + EncodePacket(packets[i]);
      assert packets[..i + 1] == packets[..i] + [packets[i]];
    }
    assert packets[..|packets|] == packets;
  }

  /** Cuts the input at every separator, as bytes.Split does: n separators give n + 1 segments. */
  function Split(input: seq<byte>): (segments: seq<seq<byte>>)
    ensures segments != []
  {
    if input == [] then [[]]
    else
      var rest := Split(input[1..]);
      if input[0] == SEPARATOR then [[]] + rest
      else [[input[0]] + rest[0]] + rest[1..]
  }

  function Join(segments: seq<seq<byte>>): seq<byte>
    requires segments != []
  {
    if |segments| == 1 then segments[0] else segments[0] + [0x1e] + Join(segments[1..])
  }

  /** The segments are what stands between the separators, empty ones included. */
  lemma {:induction false} SplitExactly(input: seq<byte>)
    ensures Join(Split(input)) == input
    ensures forall k :: 0 <= k < |Split(input)| ==> 0x1e !in Split(input)[k]
  {
    if input != [] {
      SplitExactly(input[1..]);
      var rest := Split(input[1..]);
      assert input == [input[0]] + input[1..];
      if input[0] == 0x1e {
        assert ([[]] + rest)[1..] == rest;
      } else {
        assert ([[input[0]] + rest[0]] + rest[1..])[1..] == rest[1..];
      }
    }
  }

  datatype DecodedPayload = Packets(packets: seq<Packet>) | Malformed(error: PacketError)

  /** Decodes segments in order; the first bad one fails the whole. */
  function DecodeSegments(segments: seq<seq<byte>>): DecodedPayload {
    if segments == [] then Packets([])
    else match DecodePacket(segments[0])
      case Err(e) => Malformed(e)
      case Ok(p) =>
        match DecodeSegments(segments[1..])
        case Malformed(e) => Malformed(e)
        case Packets(rest) => Packets([p] + rest)
  }

  function DecodePayload(input: seq<byte>): DecodedPayload {
    DecodeSegments(Split(input))
  }

  lemma {:induction false} DecodePrefix(segments: seq<seq<byte>>, i: nat)
    requires i < |segments|
    ensures match DecodeSegments(segments[..i])
            case Malformed(e) => DecodeSegments(segments) == Malformed(e)
            case Packets(ps) =>
              match DecodePacket(segments[i])
              case Err(e) => DecodeSegments(segments) == Malformed(e)
              case Ok(p) => DecodeSegments(segments[..i + 1]) == Packets(ps + [p])
  {
    if i > 0 {
      DecodePrefix(segments[1..], i - 1);
      assert segments[..i][1..] == segments[1..][..i - 1];
      assert segments[..i + 1][1..] == segments[1..][..i];
    } else {
      assert segments[..1] == [segments[0]];
    }
  }

  /** decodeRecordSeparatorPayload: the loop over the segments. */
  method DecodeRecordSeparatorPayload(input: seq<byte>) returns (r: DecodedPayload)
    ensures r == DecodePayload(input)
  {
    var segments := Split(input);
    var packets: seq<Packet> := [];
    for i := 0 to |segments|
      invariant DecodeSegments(segments[..i]) == Packets(packets)
    {
      DecodePrefix(segments, i);
      match DecodePacket(segments[i]) {
        case Err(e) => return Malformed(e);
        case Ok(p) => packets := packets + [p];
      }
    }
    assert segments[..|segments|] == segments;
    r := Packets(packets);
  }

  /** A payload fails with the error of its first bad segment. */
  lemma {:induction false} FirstBadSegmentFails(segments: seq<seq<byte>>, e: PacketError)
    ensures DecodeSegments(segments) == Malformed(e) <==>
            exists k :: 0 <= k < |segments| && DecodePacket(segments[k]) == Err(e)
                        && forall j :: 0 <= j < k ==> DecodePacket(segments[j]).Ok?
  {
    if segments != [] {
      FirstBadSegmentFails(segments[1..], e);
      if k :| 0 <= k < |segments[1..]| && DecodePacket(segments[1..][k]) == Err(e)
              && forall j :: 0 <= j < k ==> DecodePacket(segments[1..][j]).Ok? {
        if DecodePacket(segments[0]).Ok? {
          assert forall j :: 0 < j < k + 1 ==> segments[j] == segments[1..][j - 1];
          assert DecodePacket(segments[k + 1]) == Err(e);
        }
      }
      if k :| 0 < k < |segments| && DecodePacket(segments[k]) == Err(e)
              && forall j :: 0 <= j < k ==> DecodePacket(segments[j]).Ok? {
        assert segments[1..][k - 1] == segments[k];
        assert forall j :: 0 <= j < k - 1 ==> segments[1..][j] == segments[j + 1];
      }
    }
  }

  // ---- Round trip ----

  /** A packet the payload carries unchanged: well-formed, its text free of separators. */
  predicate Carried(p: Packet) {
    WellFormed(p) && (p.isBinary || SEPARATOR !in p.data)
  }

  predicate AllCarried(ps: seq<Packet>) {
    forall k :: 0 <= k < |ps| ==> Carried(ps[k])
  }

  lemma CarriedHasNoSeparator(p: Packet)
    requires Carried(p)
    ensures SEPARATOR !in EncodePacket(p)
  {
    Base64.EncodePrintable(p.data);
  }

  lemma {:induction false} SplitPrefix(a: seq<byte>, b: seq<byte>)
    requires SEPARATOR !in a
    ensures Split(a + [SEPARATOR] + b) == [a] + Split(b)
    ensures Split(a) == [a]
  {
    var whole := a + [SEPARATOR] + b;
    if a == [] {
      assert whole[1..] == b;
    } else {
      SplitPrefix(a[1..], b);
      assert whole[1..] == a[1..] + [SEPARATOR] + b;
      assert a == [a[0]] + a[1..];
      assert Split(whole[1..])[1..] == Split(b) && Split(a[1..])[1..] == [];
    }
  }

  lemma DecodeCons(p: Packet, segments: seq<seq<byte>>, rest: seq<Packet>)
    requires WellFormed(p) && DecodeSegments(segments) == Packets(rest)
    ensures DecodeSegments([EncodePacket(p)] + segments) == Packets([p] + rest)
  {
    PacketRoundTrip(p);
    assert ([EncodePacket(p)] + segments)[1..] == segments;
  }

  lemma {:induction false} EncodedDecodes(ps: seq<Packet>)
    requires ps != [] && AllCarried(ps)
    ensures DecodePayload(EncodePayload(ps)) == Packets(ps)
  {
    var e := EncodePacket(ps[0]);
    assert Carried(ps[0]);
    CarriedHasNoSeparator(ps[0]);
    if |ps| == 1 {
      SplitPrefix(e, []);
      DecodeCons(ps[0], [], []);
      assert [e] + [] == [e] && ps == [ps[0]] + [];
    } else {
      SplitPrefix(e, EncodePayload(ps[1..]));
      EncodedDecodes(ps[1..]);
      DecodeCons(ps[0], Split(EncodePayload(ps[1..])), ps[1..]);
      assert ps == [ps[0]] + ps[1..];
    }
  }

  lemma {:induction false} SegmentsHaveNoSeparator(input: seq<byte>)
    ensures forall k :: 0 <= k < |Split(input)| ==> SEPARATOR !in Split(input)[k]
  {
    if input != [] {
      SegmentsHaveNoSeparator(input[1..]);
    }
  }

  lemma {:induction false} DecodedIsCarried(segments: seq<seq<byte>>)
    requires forall k :: 0 <= k < |segments| ==> SEPARATOR !in segments[k]
    ensures var r := DecodeSegments(segments); r.Packets? ==> |r.packets| == |segments| && AllCarried(r.packets)
  {
    if segments != [] {
      assert SEPARATOR !in segments[0];
      DecodedIsCarried(segments[1..]);
    }
  }

  /** Exactly the non-empty lists of carried packets survive encoding and decoding. */
  lemma PayloadRoundTrip(ps: seq<Packet>)
    ensures DecodePayload(EncodePayload(ps)) == Packets(ps) <==> ps != [] && AllCarried(ps)
  {
    SegmentsHaveNoSeparator(EncodePayload(ps));
    DecodedIsCarried(Split(EncodePayload(ps)));
    if ps != [] && AllCarried(ps) {
      EncodedDecodes(ps);
    }
  }

  /** Whatever bytes a peer sent, re-encoding what they decoded to loses nothing. */
  lemma ReencodingIsStable(input: seq<byte>)
    requires DecodePayload(input).Packets?
    ensures var ps := DecodePayload(input).packets; DecodePayload(EncodePayload(ps)) == Packets(ps)
  {
    SegmentsHaveNoSeparator(input);
    DecodedIsCarried(Split(input));
    PayloadRoundTrip(DecodePayload(input).packets);
  }
}
