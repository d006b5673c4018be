/**
 * What a failed POST leads to. One that was served although its acknowledgement was lost is
 * served again; one that the client gave up on can even be served after what came later.
 */
module Retries {
  import opened Basics
  import opened Packets
  import opened Payload
  import opened PostRequest
  import opened Network
  import opened WireProofs
  import opened WireRuns
  import opened WireTheorems
  import NetworkTheorems
  import SF = ServerFields
  import C = ClientSystem
  import CF = ClientFields
  import CP = ClientPolling

  const First := Packet(MESSAGE, [1], false)
  const Second := Packet(MESSAGE, [2], false)

  /** Polling is open, and m is all there is to flush. */
  ghost predicate Flushable(c: C.System, m: Packet) {
    c.f == CF.Opened([m]) && c.pc == C.Idle && c.wants > 0 && c.polling == CP.Open && c.maxPayload == 100
  }

  /** The client of n, while its POST of m is in flight. */
  function Posting(c: C.System, m: Packet): C.System
    requires c.wants > 0
  {
    c.(f := CF.BeginFlush(c.f), wants := c.wants - 1, pc := C.Posting([m], 0))
  }

  lemma Sends(n: Net, m: Packet) returns (n': Net)
    requires Reached(n) && n.client.f == CF.Opened([]) && n.client.pc == C.Idle
    ensures Reached(n')
    ensures n' == n.(client := n.client.(f := CF.Opened([m]), wants := n.client.wants + 1,
                                         log := n.client.log.(accepted := n.client.log.accepted + [m])))
  {
    n' := Step(n, ClientStep(C.Send([m])));
    assert [] + [m] == [m];
  }

  lemma Posts(n: Net, m: Packet) returns (n': Net)
    requires Reached(n) && Flushable(n.client, m) && n.post == NoPost
    ensures Reached(n') && n' == n.(client := Posting(n.client, m), post := Unread) && Chunk(n') == [m]
  {
    n' := Step(n, ClientStep(C.FlushBegins));
    n' := Step(n', ClientStep(C.ChunkStarts(true)));
  }

  lemma OneFits(m: Packet)
    requires m == First || m == Second
    ensures PostRequest.Serve(EncodePayload([m]), false, false, 100) == Served(Ok200, [m], false) && AllCarried([m])
  {
    assert EncodePacket(m) == [TypeByte(MESSAGE)] + m.data;
    assert |EncodePayload([m])| == 2;
    ChunkServed([m], 100);
  }

  lemma Reads(n: Net, m: Packet) returns (n': Net)
    requires Reached(n) && n.post == Unread && Chunk(n) == [m] && (m == First || m == Second)
    ensures Reached(n') && n' == n.(post := Serving([m]), payloads := n.payloads + [[m]])
  {
    OneFits(m);
    n' := Step(n, PostRead);
  }

  lemma Serves(n: Net, m: Packet) returns (n': Net)
    requires Reached(n) && n.post == Unread && Chunk(n) == [m] && (m == First || m == Second)
    ensures Reached(n')
    ensures n' == n.(post := Serving([]), received := n.received + [m], places := n.places + [|n.client.log.posted|],
                     payloads := n.payloads + [[m]])
  {
    n' := Reads(n, m);
    assert [m][1..] == [];
    n' := Step(n', PostDispatch);
  }

  /** The client after its POST failed and another flush is called. */
  function Failed(c: C.System): C.System {
    c.(log := c.log.(failed := true))
  }

  lemma FlushFails(c: C.System, m: Packet)
    requires Flushable(c, m)
    ensures C.Apply(Posting(c, m).(pc := C.Ending([m], 0, true)), C.FlushEnds) == Failed(c).(wants := c.wants - 1)
  {
    assert Flat([[m]][..0]) == [] && [m][..0] == [] && [m][0..] == [m];
    assert c.log.trimmed + [] == c.log.trimmed;
  }

  lemma EndsFailed(n: Net, c: C.System, m: Packet) returns (n': Net)
    requires Reached(n) && Flushable(c, m) && n.client == Posting(c, m).(pc := C.Ending([m], 0, true))
    ensures Reached(n') && n' == n.(client := Failed(c))
  {
    FlushFails(c, m);
    n' := Step(n, ClientStep(C.FlushEnds));
    n' := Step(n', ClientStep(C.FlushCall));
  }

  /** The POST was served, but the client is told that it failed. */
  lemma Unacknowledged(n: Net, c: C.System, m: Packet) returns (n': Net)
    requires Reached(n) && Flushable(c, m) && n.client == Posting(c, m) && n.post == Serving([]) && Chunk(n) == [m]
    ensures Reached(n') && n' == n.(client := Failed(c), post := NoPost, echoes := n'.echoes)
  {
    n' := Step(n, PostUnacked);
    n' := EndsFailed(n', c, m);
  }

  /** A served POST whose acknowledgement is lost is served again. */
  lemma LostAckRepeats() returns (es: seq<Event>)
    ensures var n := Reach([], Ample, es);
            && Clean(n) && SF.CanSend(n.server.f) && n.client.log.failed
            && n.client.log.accepted == [First] && n.received == [First, First]
  {
    var n := Start();
    n := Sends(n, First);
    var c := n.client;
    n := Posts(n, First);
    n := Serves(n, First);
    n := Unacknowledged(n, c, First);
    n := Posts(n, First);
    n := Serves(n, First);
    OneFits(First);
    assert n.received == [First, First] && n.payloads == [[First], [First]];
    es :| n == Reach([], Ample, es);
  }

  lemma PostStrays(n: Net, c: C.System, m: Packet)
    requires c.wants > 0 && n.client == Posting(c, m) && n.post == Unread && Chunk(n) == [m]
    ensures Network.Apply(n, PostGivenUp)
            == n.(client := Posting(c, m).(pc := C.Ending([m], 0, true)), post := NoPost,
                  strays := n.strays + [Stray(|c.log.posted|, [m])], payloads := n.payloads + [[m]])
  {
    assert PostPlace(n) == |c.log.posted|;
    assert C.Apply(n.client, C.PostEnds(false)) == Posting(c, m).(pc := C.Ending([m], 0, true));
  }

  lemma Strays(n: Net, c: C.System, m: Packet) returns (n': Net)
    requires Reached(n) && c.wants > 0 && n.client == Posting(c, m) && n.post == Unread && Chunk(n) == [m]
    requires m == First || m == Second
    ensures Reached(n')
    ensures n' == n.(client := Posting(c, m).(pc := C.Ending([m], 0, true)), post := NoPost,
                     strays := n.strays + [Stray(|c.log.posted|, [m])], payloads := n.payloads + [[m]])
  {
    OneFits(m);
    PostStrays(n, c, m);
    n' := Step(n, PostGivenUp);
  }

  /** The client gives up on a POST that the server has yet to read. */
  lemma GivesUp(n: Net, c: C.System, m: Packet) returns (n': Net)
    requires Reached(n) && Flushable(c, m) && n.client == Posting(c, m) && n.post == Unread && Chunk(n) == [m]
    requires m == First || m == Second
    ensures Reached(n')
    ensures n' == n.(client := Failed(c), post := NoPost, strays := n.strays + [Stray(|c.log.posted|, [m])],
                     payloads := n.payloads + [[m]])
  {
    n' := Strays(n, c, m);
    n' := EndsFailed(n', c, m);
  }

  /** The client after its POST of m was acknowledged. */
  function Done(c: C.System, m: Packet): C.System
    requires c.wants > 0
  {
    c.(f := CF.Opened([]), wants := c.wants - 1,
       log := c.log.(counted := c.log.counted + [m], posted := c.log.posted + [m], trimmed := c.log.trimmed + [m]))
  }

  lemma Acked(n: Net, c: C.System, m: Packet) returns (n': Net)
    requires Reached(n) && Flushable(c, m) && n.client == Posting(c, m) && n.post == Serving([])
    ensures Reached(n') && n' == n.(client := n'.client, post := NoPost)
    ensures n'.client == Posting(c, m).(pc := C.Ending([m], 1, false),
                                        log := c.log.(counted := c.log.counted + [m], posted := c.log.posted + [m]))
  {
    n' := Step(n, PostAcked);
    n' := Step(n', ClientStep(C.ChunkStarts(true)));
  }

  lemma Acknowledged(n: Net, c: C.System, m: Packet) returns (n': Net)
    requires Reached(n) && Flushable(c, m) && n.client == Posting(c, m) && n.post == Serving([])
    ensures Reached(n') && n' == n.(client := Done(c, m), post := NoPost)
  {
    n' := Acked(n, c, m);
    assert [[m]][..1] == [[m]] && Flat([[m]]) == [m] && [m][..1] == [m] && [m][1..] == [];
    n' := Step(n', ClientStep(C.FlushEnds));
  }

  /** A stray whose only packet is left. */
  lemma StrayServed(n: Net, m: Packet) returns (n': Net)
    requires Reached(n) && |n.strays| == 1 && n.strays[0].rest == [m] && IsMessage(m)
    ensures Reached(n') && n'.received == n.received + [m]
    ensures n' == n.(received := n'.received, strays := n'.strays, places := n'.places)
  {
    n' := Step(n, StrayDispatch(0));
  }

  lemma Retried() returns (n: Net)
    ensures Reached(n) && n.post == NoPost && n.received == [First] && n.payloads == [[First], [First]]
    ensures n.strays == [Stray(0, [First])] && n.server == Init([], 100).server
    ensures n.client.f == CF.Opened([]) && n.client.pc == C.Idle && n.client.polling == CP.Open
    ensures n.client.maxPayload == 100 && n.client.log.failed && n.client.log.accepted == [First]
  {
    n := Start();
    n := Sends(n, First);
    var c := n.client;
    n := Posts(n, First);
    n := GivesUp(n, c, First);
    n := Posts(n, First);
    n := Serves(n, First);
    n := Acknowledged(n, Failed(c), First);
    assert n.payloads == [[First], [First]];
  }

  /** A POST that the client gave up on is served once more after what came later. */
  lemma GivenUpReorders() returns (es: seq<Event>)
    ensures var n := Reach([], Ample, es);
            && Clean(n) && SF.CanSend(n.server.f) && n.client.log.failed
            && n.client.log.accepted == [First, Second] && n.received == [First, Second, First]
  {
    var n := Retried();
    n := Sends(n, Second);
    n := Posts(n, Second);
    n := Serves(n, Second);
    n := StrayServed(n, First);
    assert n.payloads == [[First], [First]] + [[Second]];
    TwoAreClean(n);
    es :| n == Reach([], Ample, es);
  }

  lemma TwoAreClean(n: Net)
    requires n.payloads == [[First], [First]] + [[Second]] && n.client.log.accepted == [First, Second]
    requires n.server.w.appended == []
    ensures Clean(n)
  {
    OneFits(First);
    OneFits(Second);
  }

  /**
   * With the server open, or switched to the link while open: in every clean run in which some
   * flush has, or has not, returned an error, the server's application has been given a prefix
   * of what the client accepted.
   */
  ghost predicate PrefixWhen(failed: bool) {
    forall buffered, limits, es ::
      var n := Reach(buffered, limits, es);
      Clean(n) && (NetworkTheorems.SwitchedOpen(n) || SF.CanSend(n.server.f)) && n.client.log.failed == failed ==>
        n.received <= Messages(n.client.log.accepted)
  }

  /** Delivery is exactly once and in order as long as no flush returns an error, and not beyond. */
  lemma OnceUnlessFailed(failed: bool)
    ensures PrefixWhen(failed) <==> !failed
  {
    if failed {
      var es := LostAckRepeats();
      var n := Reach([], Ample, es);
      MessagesOne(First);
      assert !(n.received <= Messages(n.client.log.accepted));
    } else {
      forall buffered, limits, es
        ensures var n := Reach(buffered, limits, es);
                Clean(n) && (NetworkTheorems.SwitchedOpen(n) || SF.CanSend(n.server.f)) && !n.client.log.failed ==>
                  n.received <= Messages(n.client.log.accepted)
      {
        if Clean(Reach(buffered, limits, es)) {
          NothingLostOrReordered(buffered, limits, es);
        }
      }
    }
  }
}
