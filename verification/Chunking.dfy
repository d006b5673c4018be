/** Splitting outbound packets into payloads within the negotiated limit (socket.go). */
module Chunking {
  import opened Basics
  import opened Packets
  import opened Payload

  /** The size of the payload that carries ps. */
  function Size(ps: seq<Packet>): nat {
    |EncodePayload(ps)|
  }

  lemma SizeAppend(a: seq<Packet>, b: seq<Packet>)
    requires a != [] && b != []
    ensures Size(a + b) == Size(a) + 1 + Size(b)
  {
    EncodeAppend(a, b);
  }

  /** A chunk the receiver accepts, unless it is one packet that no split can help; a limit of zero or less is none. */
  predicate Fits(chunk: seq<Packet>, maxPayload: int) {
    maxPayload <= 0 || |chunk| <= 1 || Size(chunk) <= maxPayload
  }

  predicate AllFit(chunks: seq<seq<Packet>>, maxPayload: int) {
    forall k :: 0 <= k < |chunks| ==> Fits(chunks[k], maxPayload)
  }

  /** The chunks cut from `rest` when `current` is being filled: start a new one only when forced to. */
  function Greedy(current: seq<Packet>, rest: seq<Packet>, maxPayload: int): seq<seq<Packet>>
    decreases |rest|
  {
    if rest == [] then [current]
    else if current != [] && Size(current + [rest[0]]) > maxPayload then
      [current] + Greedy([rest[0]], rest[1..], maxPayload)
    else Greedy(current + [rest[0]], rest[1..], maxPayload)
  }

  function Chunks(ps: seq<Packet>, maxPayload: int): seq<seq<Packet>> {
    if maxPayload <= 0 || |ps| <= 1 then [ps] else Greedy([], ps, maxPayload)
  }

  method ChunkPackets(packets: seq<Packet>, maxPayload: int) returns (chunks: seq<seq<Packet>>)
    ensures chunks == Chunks(packets, maxPayload)
  {
    if maxPayload <= 0 || |packets| <= 1 {
      return [packets];
    }
    chunks := [];
    var current: seq<Packet> := [];
    var size := 0;
    for i := 0 to |packets|
      invariant Greedy([], packets, maxPayload) == chunks + Greedy(current, packets[i..], maxPayload)
      invariant size == Size(current)
    {
      var packet := packets[i];
      var addition := |EncodePacket(packet)|;
      if |current| != 0 {
        addition := addition + 1;
        SizeAppend(current, [packet]);
      }
      assert packets[i..][0] == packet && packets[i..][1..] == packets[i + 1..];
      if |current| != 0 && size + addition > maxPayload {
        var next := Greedy([packet], packets[i + 1..], maxPayload);
        assert chunks + ([current] + next) == (chunks + [current]) + next;
        chunks := chunks + [current];
        current := [];
        size := 0;
        addition := |EncodePacket(packet)|;
      }
      assert current == [] ==> current + [packet] == [packet];
      current := current + [packet];
      size := size + addition;
    }
    chunks := chunks + [current];
  }

  lemma {:induction false} GreedyFlat(current: seq<Packet>, rest: seq<Packet>, maxPayload: int)
    ensures Flat(Greedy(current, rest, maxPayload)) == current + rest
    decreases |rest|
  {
    if rest == [] {
      assert [current][1..] == [];
    } else {
      assert rest == [rest[0]] + rest[1..];
      if current != [] && Size(current + [rest[0]]) > maxPayload {
        GreedyFlat([rest[0]], rest[1..], maxPayload);
        FlatCons(current, Greedy([rest[0]], rest[1..], maxPayload));
      } else {
        GreedyFlat(current + [rest[0]], rest[1..], maxPayload);
        Assoc(current, [rest[0]], rest[1..]);
      }
    }
  }

  lemma ChunksFlat(ps: seq<Packet>, maxPayload: int)
    ensures Flat(Chunks(ps, maxPayload)) == ps
  {
    if maxPayload <= 0 || |ps| <= 1 {
      assert [ps][1..] == [];
    } else {
      GreedyFlat([], ps, maxPayload);
    }
  }

  lemma {:induction false} GreedyFits(current: seq<Packet>, rest: seq<Packet>, maxPayload: int)
    requires Fits(current, maxPayload)
    ensures AllFit(Greedy(current, rest, maxPayload), maxPayload)
    decreases |rest|
  {
    if rest != [] {
      if current != [] && Size(current + [rest[0]]) > maxPayload {
        GreedyFits([rest[0]], rest[1..], maxPayload);
      } else {
        GreedyFits(current + [rest[0]], rest[1..], maxPayload);
      }
    }
  }

  lemma PartIsSmaller(before: seq<Packet>, part: seq<Packet>, after: seq<Packet>)
    requires part != []
    ensures Size(part) <= Size(before + part + after)
  {
    if before != [] {
      SizeAppend(before, part);
    } else {
      assert before + part == part;
    }
    if after != [] {
      SizeAppend(before + part, after);
    } else {
      assert before + part + after == before + part;
    }
  }

  /** A part that fits cannot run past a point where the greedy chunk had to stop. */
  lemma PartStopsEarly(before: seq<Packet>, current: seq<Packet>, rest: seq<Packet>, maxPayload: int,
                       part: seq<Packet>, tail: seq<Packet>)
    requires maxPayload > 0 && current != [] && rest != [] && Size(current + [rest[0]]) > maxPayload
    requires part + tail == before + current + rest && Fits(part, maxPayload)
    ensures |part| <= |before| + |current|
  {
    var n := |before| + |current|;
    if |part| > n {
      var after := rest[1..|part| - n];
      assert part == (part + tail)[..|part|] == before + (current + [rest[0]]) + after;
      PartIsSmaller(before, current + [rest[0]], after);
    }
  }

  lemma AfterPart(front: seq<Packet>, rest: seq<Packet>, part: seq<Packet>, tail: seq<Packet>)
    requires part + tail == front + rest && |part| <= |front| && rest != []
    ensures tail == front[|part|..] + [rest[0]] + rest[1..]
  {
    assert tail == (part + tail)[|part|..];
    assert (front + rest)[|part|..] == front[|part|..] + rest;
  }

  lemma Regroup(before: seq<Packet>, current: seq<Packet>, rest: seq<Packet>)
    requires rest != []
    ensures before + current + rest == before + (current + [rest[0]]) + rest[1..]
  {}

  /** Every admissible partition of a list that ends in `current + rest` is at least as long as the greedy one. */
  lemma {:induction false} GreedyIsShortest(before: seq<Packet>, current: seq<Packet>, rest: seq<Packet>,
                                            maxPayload: int, other: seq<seq<Packet>>)
    requires maxPayload > 0 && other != [] && Flat(other) == before + current + rest && AllFit(other, maxPayload)
    ensures |Greedy(current, rest, maxPayload)| <= |other|
    decreases |rest|
  {
    if rest == [] {
    } else if current != [] && Size(current + [rest[0]]) > maxPayload {
      var part, tail := other[0], Flat(other[1..]);
      PartStopsEarly(before, current, rest, maxPayload, part, tail);
      var before' := (before + current)[|part|..];
      AfterPart(before + current, rest, part, tail);
      GreedyIsShortest(before', [rest[0]], rest[1..], maxPayload, other[1..]);
    } else {
      Regroup(before, current, rest);
      GreedyIsShortest(before, current + [rest[0]], rest[1..], maxPayload, other);
    }
  }

  /**
   * The chunks concatenate to the input; each chunk of several packets is within the limit, if
   * there is one; no order-preserving partition within it has fewer parts; and without a limit
   * there is one chunk.
   */
  lemma ChunksCorrect(ps: seq<Packet>, maxPayload: int, other: seq<seq<Packet>>)
    ensures Flat(Chunks(ps, maxPayload)) == ps
    ensures AllFit(Chunks(ps, maxPayload), maxPayload)
    ensures maxPayload <= 0 ==> |Chunks(ps, maxPayload)| == 1
    ensures ps != [] && Flat(other) == ps && AllFit(other, maxPayload) ==> |Chunks(ps, maxPayload)| <= |other|
  {
    ChunksFlat(ps, maxPayload);
    if maxPayload > 0 && |ps| > 1 {
      GreedyFits([], ps, maxPayload);
      if Flat(other) == ps && AllFit(other, maxPayload) {
        assert [] + [] + ps == ps;
        GreedyIsShortest([], [], ps, maxPayload, other);
      }
    }
  }
}
