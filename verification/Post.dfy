/** The server's handling of a POST (server.go), and why it takes every chunk the client cuts. */
module PostRequest {
  import opened Basics
  import opened Packets
  import opened Payload
  import opened Chunking

  datatype Reply = Ok200 | TooLarge | BadRequest

  /** The reply, the packets passed to the session, and whether the session is closed. */
  datatype Served = Served(reply: Reply, dispatched: seq<Packet>, closes: bool)

  function Min(a: int, b: int): int {
    if a < b then a else b
  }

  /** What a request is served with; at most one byte more than the limit is read, and reading may break off. */
  function Serve(stream: seq<byte>, octetStream: bool, broken: bool, maxPayload: nat): Served {
    var body := stream[..Min(|stream|, maxPayload + 1)];
    if octetStream then Served(BadRequest, [], true)
    else if broken then Served(BadRequest, [], false)
    else if |body| > maxPayload then Served(TooLarge, [], false)
    else if body == [] then Served(Ok200, [], false)
    else match DecodePayload(body)
      case Malformed(_) => Served(BadRequest, [], true)
      case Packets(ps) => Served(Ok200, ps, false)
  }

  method HandleSend(stream: seq<byte>, octetStream: bool, broken: bool, maxPayload: nat) returns (s: Served)
    ensures s == Serve(stream, octetStream, broken, maxPayload)
  {
    if octetStream {
      return Served(BadRequest, [], true);
    }
    if broken {
      return Served(BadRequest, [], false);
    }
    var body := stream[..Min(|stream|, maxPayload + 1)];
    if |body| > maxPayload {
      return Served(TooLarge, [], false);
    }
    var dispatched: seq<Packet> := [];
    if |body| != 0 {
      var decoded := DecodeRecordSeparatorPayload(body);
      if decoded.Malformed? {
        return Served(BadRequest, [], true);
      }
      for i := 0 to |decoded.packets|
        invariant dispatched == decoded.packets[..i]
      {
        dispatched := dispatched + [decoded.packets[i]];
      }
      assert dispatched == decoded.packets;
    }
    return Served(Ok200, dispatched, false);
  }

  /**
   * What becomes of a POST, by the whole of its body: only an octet stream, or a body within the
   * limit that does not decode, closes the session; only a body within the limit that is empty
   * or decodes is acknowledged, and then dispatched whole.
   */
  lemma ServedExactly(stream: seq<byte>, octetStream: bool, broken: bool, maxPayload: nat)
    ensures var s := Serve(stream, octetStream, broken, maxPayload);
            && (s.reply == TooLarge <==> !octetStream && !broken && |stream| > maxPayload)
            && (s.reply == Ok200 <==> !octetStream && !broken && |stream| <= maxPayload
                                      && (stream == [] || DecodePayload(stream).Packets?))
            && (s.closes <==> octetStream || (!broken && 0 < |stream| <= maxPayload && DecodePayload(stream).Malformed?))
            && s.dispatched == (if s.reply == Ok200 && stream != [] then DecodePayload(stream).packets else [])
  {
    if |stream| <= maxPayload {
      assert stream[..Min(|stream|, maxPayload + 1)] == stream;
    }
  }

  /** A posted chunk is dispatched whole exactly when it is within the limit and survives the codec. */
  lemma ChunkServed(chunk: seq<Packet>, maxPayload: nat)
    requires chunk != []
    ensures Serve(EncodePayload(chunk), false, false, maxPayload) == Served(Ok200, chunk, false) <==>
            Size(chunk) <= maxPayload && AllCarried(chunk)
  {
    var stream := EncodePayload(chunk);
    assert stream != [];
    if |stream| <= maxPayload {
      assert stream[..Min(|stream|, maxPayload + 1)] == stream;
      PayloadRoundTrip(chunk);
    }
  }

  lemma {:induction false} FlatHolds(parts: seq<seq<Packet>>, k: nat, i: nat)
    requires k < |parts| && i < |parts[k]|
    ensures parts[k][i] in Flat(parts)
  {
    if k > 0 {
      FlatHolds(parts[1..], k - 1, i);
    }
  }

  lemma {:induction false} GreedyFilled(current: seq<Packet>, rest: seq<Packet>, maxPayload: int, k: nat)
    requires (current != [] || rest != []) && k < |Greedy(current, rest, maxPayload)|
    ensures Greedy(current, rest, maxPayload)[k] != []
    decreases |rest|
  {
    if rest != [] {
      if current != [] && Size(current + [rest[0]]) > maxPayload {
        if k > 0 {
          GreedyFilled([rest[0]], rest[1..], maxPayload, k - 1);
        }
      } else {
        GreedyFilled(current + [rest[0]], rest[1..], maxPayload, k);
      }
    }
  }

  /**
   * When each packet alone is within the server's limit and survives the codec, every chunk
   * the client cuts to that limit is accepted and dispatched as it was cut.
   */
  lemma ChunksAreServed(ps: seq<Packet>, maxPayload: nat, k: nat)
    requires maxPayload > 0 && ps != [] && AllCarried(ps) && k < |Chunks(ps, maxPayload)|
    requires forall i :: 0 <= i < |ps| ==> Size([ps[i]]) <= maxPayload
    ensures var chunk := Chunks(ps, maxPayload)[k];
            Serve(EncodePayload(chunk), false, false, maxPayload) == Served(Ok200, chunk, false)
  {
    var chunks := Chunks(ps, maxPayload);
    var chunk := chunks[k];
    ChunksCorrect(ps, maxPayload, []);
    if |ps| > 1 {
      GreedyFilled([], ps, maxPayload, k);
    }
    forall i | 0 <= i < |chunk|
      ensures Carried(chunk[i]) && Size([chunk[i]]) <= maxPayload
    {
      FlatHolds(chunks, k, i);
      var j :| 0 <= j < |ps| && ps[j] == chunk[i];
      assert Carried(ps[j]);
    }
    assert Fits(chunk, maxPayload);
    assert |chunk| == 1 ==> chunk == [chunk[0]];
    ChunkServed(chunk, maxPayload);
  }
}
