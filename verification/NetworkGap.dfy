/**
 * A run in which the server dispatches a client message although an earlier one was lost:
 * the server closes during an upgrade, the client flushes onto the polling transport that
 * the close packet has just closed, and the upgraded link still delivers.
 */
module NetworkGap {
  import opened Basics
  import opened Packets
  import opened Network
  import opened Payload
  import opened WireProofs
  import opened WireRuns
  import opened WireTheorems
  import NetworkTheorems
  import WebTransportFraming
  import Wire
  import SF = ServerFields
  import S = ServerSystem
  import C = ClientSystem
  import SX = ServerFacts
  import CF = ClientFields
  import CP = ClientPolling

  const Lost := Packet(MESSAGE, [1], false)
  const Late := Packet(MESSAGE, [2], false)
  const Link := SF.Promotable(7)

  /** A step of the server's own. */
  lemma Serve(n: Net, e: S.Event) returns (n': Net)
    requires Reached(n) && SX.Internal(e)
    ensures Reached(n') && n' == n.(server := S.Apply(n.server, e))
  {
    n' := Step(n, ServerStep(e));
  }

  /** A step of the client's own that starts neither a POST nor a poll. */
  lemma Act(n: Net, e: C.Event) returns (n': Net)
    requires Reached(n) && ClientInternal(e)
    requires !C.Apply(n.client, e).pc.Posting? && (C.Apply(n.client, e).poll.Requesting? ==> n.client.poll.Requesting?)
    ensures Reached(n') && n' == n.(client := C.Apply(n.client, e))
  {
    n' := Step(n, ClientStep(e));
  }

  // ---- The server closes amid an upgrade ----

  ghost predicate Fresh(n: Net) {
    n.post == NoPost && n.upSeen == 0 && n.reader == None && n.received == []
  }

  ghost predicate ServerHeld(s: S.System) {
    && s.f == SF.Fields(SF.Open, Some(Poller), None, false, [], true, false, false, false, None)
    && s.threads == map[0 := S.Doing(S.Flush(false))] && s.flusher == None
    && s.closed == {} && s.probing == {} && s.held == {Poller} && s.w.polls == [] && s.w.appended == [] && Link !in s.u.used
  }

  const Polling := C.Init([], 100).(poll := C.Requesting, finishing := 1)

  lemma PollBegins(n: Net) returns (n': Net)
    requires Reached(n) && n.client == C.Init([], 100).(poll := C.Scheduled, finishing := 1)
    ensures Reached(n') && n' == n.(client := Polling, poll := OnTheWay)
  {
    n' := Step(n, ClientStep(C.PollStarts));
  }

  lemma ClientPolls() returns (n: Net)
    ensures Reached(n) && Fresh(n) && n.server == S.Init(Poller) && n.poll == OnTheWay && n.pollsSeen == 0
    ensures n.client == Polling && n.payloads == []
  {
    n := Start();
    n := Act(n, C.DispatchEnds);
    n := PollBegins(n);
  }

  lemma ServerHolds() returns (n: Net)
    ensures Reached(n) && Fresh(n) && n.client == Polling && ServerHeld(n.server) && n.poll == AtServer && n.pollsSeen == 0
    ensures n.payloads == []
  {
    n := ClientPolls();
    n := Serve(n, S.OpenCall);
    n := Step(n, PollHeld(0));
  }

  /** The close packet is the only thing buffered, and goroutine 1 is in flush. */
  ghost predicate ServerClosing(s: S.System) {
    && s.f == SF.Fields(SF.Closing, Some(Poller), Some(Link), true, [SF.ClosePacket], false, false, false, false, None)
    && s.threads == map[0 := S.Doing(S.Flush(false)), 1 := S.Doing(S.Flush(true))] && s.flusher == Some(1)
    && s.closed == {} && s.probing == {Link} && Link in s.u.owned && s.w.appended == [SF.ClosePacket]
  }

  lemma ProbeAccepted(n: Net) returns (n': Net)
    requires Reached(n) && ServerHeld(n.server)
    ensures Reached(n') && n' == n.(server := n'.server)
    ensures n'.server == n.server.(f := SF.StartUpgrade(n.server.f, Link), probing := {Link}, u := n'.server.u)
    ensures Link in n'.server.u.owned
  {
    n' := Serve(n, S.ProbeStarts(Link));
  }

  lemma ServerCloses(n: Net) returns (n': Net)
    requires Reached(n) && ServerHeld(n.server)
    ensures Reached(n') && n' == n.(server := n'.server)
    ensures ServerClosing(n'.server) && n'.server.pc == S.Head && n'.server.held == {Poller} && n'.server.w.polls == []
  {
    n' := ProbeAccepted(n);
    n' := Serve(n', S.CloseCall(1));
    n' := Serve(n', S.Run(1, true));
  }

  lemma ServerHandsClose(n: Net) returns (n': Net)
    requires Reached(n) && ServerClosing(n.server) && n.server.pc == S.Head && n.server.held == {Poller} && n.server.w.polls == []
    ensures Reached(n') && n' == n.(server := n'.server)
    ensures ServerClosing(n'.server) && n'.server.pc == S.Trimming([SF.ClosePacket]) && n'.server.w.polls == [[SF.ClosePacket]]
  {
    n' := Serve(n, S.Run(1, true));
    n' := Serve(n', S.Run(1, true));
  }

  // ---- The client flushes onto the closed transport and upgrades ----

  lemma Answer(n: Net) returns (n': Net)
    requires Reached(n) && n.poll == AtServer && n.pollsSeen == 0 && n.server.w.polls == [[SF.ClosePacket]]
    requires n.client == Polling
    ensures Reached(n') && n' == n.(client := Polling.(poll := C.Dispatching([SF.ClosePacket])), poll := NoPoll, pollsSeen := 1,
                                    payloads := n.payloads + [[SF.ClosePacket]])
  {
    PayloadRoundTrip([SF.ClosePacket]);
    n' := Step(n, PollAnswered);
  }

  const Closed := Polling.(poll := C.Dispatching([]), polling := CP.Closed, up := C.Probing(7), linkOpen := true, used := {7})

  lemma ClientProbes(n: Net) returns (n': Net)
    requires Reached(n) && n.client == Polling.(poll := C.Dispatching([SF.ClosePacket]))
    ensures Reached(n')
    ensures n' == n.(client := n.client.(up := C.Probing(7), linkOpen := true, used := {7}))
  {
    n' := Act(n, C.ProbeStarts(7));
  }

  lemma ClientHearsClose(n: Net) returns (n': Net)
    requires Reached(n) && Fresh(n) && n.poll == AtServer && n.pollsSeen == 0 && n.server.w.polls == [[SF.ClosePacket]]
    requires n.client == Polling && n.payloads == []
    ensures Reached(n') && Fresh(n') && n'.server == n.server && n'.client == Closed && n'.payloads == [[SF.ClosePacket]]
  {
    n' := Answer(n);
    n' := ClientProbes(n');
    n' := Act(n', C.DispatchOne);
  }

  /** The parts of the client that stay as they are while it loses a message and switches. */
  ghost predicate Steady(c: C.System) {
    c.maxPayload == 100 && !c.log.failed && !c.poll.Requesting? && c.linkOpen && c.polling == CP.Closed && c.log.accepted == [Lost]
  }

  /** The client after losing a message; from here on its link is the one that matters. */
  ghost predicate Unlucky(c: C.System) {
    Steady(c) && c.f == CF.Opened([]) && c.pc == C.Idle && c.log.up == [] && c.up == C.Probing(7)
  }

  /** The flush that loses the message, before its last chunk is counted. */
  ghost predicate Flushing(c: C.System) {
    && Steady(c) && c.f == CF.BeginFlush(CF.Enqueue(CF.Opened([]), [Lost]))
    && c.pc == C.Sending(CF.Poll, [Lost], 0) && c.log.up == [] && c.up == C.Probing(7)
  }

  lemma FlushStarts(n: Net) returns (n': Net)
    requires Reached(n) && n.client == Closed
    ensures Reached(n') && n' == n.(client := n'.client) && Flushing(n'.client)
  {
    n' := Act(n, C.Send([Lost]));
    n' := Act(n', C.FlushBegins);
  }

  lemma ChunkSwallowed(n: Net) returns (n': Net)
    requires Reached(n) && Flushing(n.client)
    ensures Reached(n') && n' == n.(client := n'.client)
    ensures n'.client.pc == C.Ending([Lost], 1, false) && Flushing(n'.client.(pc := n.client.pc))
  {
    n' := Act(n, C.ChunkStarts(true));
    n' := Act(n', C.ChunkStarts(true));
  }

  lemma ClientLoses(n: Net) returns (n': Net)
    requires Reached(n) && n.client == Closed
    ensures Reached(n') && n' == n.(client := n'.client) && Unlucky(n'.client)
  {
    n' := FlushStarts(n);
    n' := ChunkSwallowed(n');
    assert C.ChunksOf(n'.client, [Lost])[..1] == [[Lost]] && Flat([[Lost]]) == [Lost];
    n' := Act(n', C.FlushEnds);
  }

  /** The client after the switch, with its next message on the link. */
  ghost predicate Upgraded(c: C.System) {
    !c.log.failed && c.log.up == [C.UpgradePacket, Late] && c.log.link == 7 && c.log.accepted == [Lost, Late]
  }

  /** The upgrade packet is on the link, which is not adopted yet. */
  ghost predicate Committed(c: C.System) {
    && Steady(c) && c.f == CF.BeginUpgrade(CF.Opened([])) && c.pc == C.Idle && c.up == C.Committed(7)
    && c.log.up == [C.UpgradePacket] && c.log.link == 7
  }

  lemma ClientCommits(n: Net) returns (n': Net)
    requires Reached(n) && Unlucky(n.client)
    ensures Reached(n') && n' == n.(client := n'.client) && Committed(n'.client)
  {
    n' := Act(n, C.PongArrives);
    n' := Act(n', C.Drained);
    n' := Act(n', C.Commit(true));
  }

  lemma ClientAdopts(n: Net) returns (n': Net)
    requires Reached(n) && Committed(n.client)
    ensures Reached(n') && n' == n.(client := n'.client)
    ensures Steady(n'.client) && n'.client.pc == C.Idle && n'.client.f == CF.Adopt(CF.Opened([]), 7)
    ensures n'.client.log.up == [C.UpgradePacket] && n'.client.log.link == 7
  {
    n' := Act(n, C.PauseBegins);
    n' := Act(n', C.AdoptLink);
  }

  lemma ClientSendsOn(n: Net) returns (n': Net)
    requires Reached(n) && n.client.f == CF.Adopt(CF.Opened([]), 7) && n.client.pc == C.Idle && n.client.maxPayload == 100
    requires !n.client.log.failed && !n.client.poll.Requesting? && n.client.linkOpen
    requires n.client.log.up == [C.UpgradePacket] && n.client.log.link == 7 && n.client.log.accepted == [Lost]
    ensures Reached(n') && n' == n.(client := n'.client) && Upgraded(n'.client)
  {
    n' := Act(n, C.Send([Late]));
    n' := Act(n', C.FlushBegins);
    n' := Act(n', C.ChunkStarts(true));
  }

  // ---- The server completes the upgrade while a stale close claims the session ----

  lemma ReadFrame(n: Net, i: nat) returns (n': Net)
    requires Reached(n)
    requires n.upSeen < |n.client.log.up| && WellFormed(n.client.log.up[n.upSeen])
    requires |WebTransportFraming.Body(n.client.log.up[n.upSeen])| <= Ample.up
    ensures Reached(n') && n' == DoFrameUp(n, i)
  {
    FrameHop(n.client.log.up[n.upSeen], Ample.up);
    n' := Step(n, FrameUp(i));
  }

  /** Goroutine 2 has completed the upgrade and still has to promote the link; goroutine 1 is in flush. */
  ghost predicate Completing(s: S.System) {
    && s.flusher == Some(1) && s.pc == S.Trimming([SF.ClosePacket])
    && s.threads.Keys <= {0, 1, 2, 3} && {1, 2} <= s.threads.Keys && s.threads[1] == S.Doing(S.Flush(true))
    && s.threads[2] == S.Thread(Some(Link), None, Some(Poller), None, false, S.Flush(false))
    && s.closed == {} && Link in s.u.owned && s.probing == {Link} && s.u.swaps > 0 && s.u.swappedIn == SF.Closing
    && s.w.appended == [SF.ClosePacket]
  }

  lemma UpgradeRead(n: Net) returns (n': Net)
    requires Reached(n) && Fresh(n) && Upgraded(n.client)
    requires ServerClosing(n.server) && n.server.pc == S.Trimming([SF.ClosePacket])
    ensures Reached(n') && n'.client == n.client && n'.upSeen == 1 && n'.reader == Some(2) && n'.received == []
    ensures Completing(n'.server) && n'.server.f.state == SF.Closing && 3 !in n'.server.threads
    ensures n'.server.f.transport == Some(Link) && n'.server.f.upgradeTransport == None
    ensures n'.payloads == n.payloads
  {
    n' := ReadFrame(n, 2);
  }

  lemma CloseCalled(n: Net) returns (n': Net)
    requires Reached(n) && 3 !in n.server.threads
    ensures Reached(n') && n' == n.(server := n.server.(threads := n.server.threads[3 := S.Doing(S.Teardown)]))
  {
    n' := Serve(n, S.CloseWithReason(3));
  }

  /** Goroutine 3 claims the teardown, and closes nothing yet. */
  lemma TeardownClaimed(n: Net) returns (n': Net)
    requires Reached(n) && Completing(n.server) && n.server.f.state == SF.Closing && 3 !in n.server.threads
    ensures Reached(n') && n' == n.(server := n'.server)
    ensures Completing(n'.server) && n'.server.f == SF.BeginTeardown(n.server.f)
  {
    n' := CloseCalled(n);
    n' := Serve(n', S.Run(3, true));
  }

  lemma FlusherLeaves(n: Net) returns (n': Net)
    requires Reached(n) && Completing(n.server) && n.server.f.state == SF.Closed
    ensures Reached(n') && n' == n.(server := n'.server) && n'.server.flusher == None
    ensures Completing(n'.server.(flusher := Some(1), pc := n.server.pc, threads := n.server.threads))
    ensures n'.server.f.state == SF.Closed && n'.server.threads == n.server.threads[1 := S.Doing(S.Arm)]
  {
    n' := Serve(n, S.Run(1, true));
  }

  /** The flusher leaves, and goroutine 2 promotes the link and closes the polling transport. */
  lemma LinkPromoted(n: Net) returns (n': Net)
    requires Reached(n) && Completing(n.server) && n.server.f.state == SF.Closed
    ensures Reached(n') && n' == n.(server := n'.server)
    ensures n'.server.f.state == SF.Closed && n'.server.flusher == None && n'.server.threads.Keys <= {0, 1, 2, 3}
    ensures 2 in n'.server.threads && n'.server.threads[2] == S.Doing(S.Flush(false))
    ensures Link in n'.server.u.owned && n'.server.probing == {} && n'.server.closed == {Poller}
    ensures n'.server.u.swaps > 0 && n'.server.u.swappedIn == SF.Closing && n'.server.w.appended == [SF.ClosePacket]
  {
    n' := FlusherLeaves(n);
    n' := Serve(n', S.Run(2, true));
    n' := Serve(n', S.Run(2, true));
  }

  lemma ReaderReturns(n: Net) returns (n': Net)
    requires Reached(n) && n.server.f.state == SF.Closed && n.server.flusher == None
    requires n.server.threads.Keys <= {0, 1, 2, 3} && 2 in n.server.threads && n.server.threads[2] == S.Doing(S.Flush(false))
    ensures Reached(n') && n' == n.(server := n'.server)
    ensures n'.server.threads == n.server.threads[2 := S.Doing(S.Return)]
    ensures n'.server.u == n.server.u && n'.server.w.appended == n.server.w.appended && n'.server.probing == n.server.probing && n'.server.closed == n.server.closed
  {
    n' := Serve(n, S.Run(2, true));
    n' := Serve(n', S.Run(2, true));
  }

  lemma ServerFinishes(n: Net) returns (n': Net)
    requires Reached(n) && Fresh(n) && Upgraded(n.client)
    requires ServerClosing(n.server) && n.server.pc == S.Trimming([SF.ClosePacket])
    ensures Reached(n') && n'.client == n.client && n'.received == [Late] && n'.payloads == n.payloads
    ensures n'.server.u.swaps > 0 && n'.server.u.swappedIn == SF.Closing && n'.server.w.appended == [SF.ClosePacket]
  {
    n' := UpgradeRead(n);
    n' := TeardownClaimed(n');
    n' := LinkPromoted(n');
    n' := ReaderReturns(n');
    n' := ReadFrame(n', 4);
  }

  lemma ClientUpgrades(n: Net) returns (n': Net)
    requires Reached(n) && n.client == Closed
    ensures Reached(n') && n' == n.(client := n'.client) && Upgraded(n'.client)
  {
    n' := ClientLoses(n);
    n' := ClientCommits(n');
    n' := ClientAdopts(n');
    n' := ClientSendsOn(n');
  }

  /** The server's application is given the second message without the first. */
  lemma ClosingCanLoseAMessage() returns (es: seq<Event>)
    ensures var n := Reach([], Ample, es);
            && n.client.log.accepted == [Lost, Late] && n.server.w.appended == [SF.ClosePacket] && n.received == [Late]
            && Clean(n) && !n.client.log.failed && n.server.u.swaps > 0 && n.server.u.swappedIn == SF.Closing
            && !(n.received <= Messages(n.client.log.accepted))
  {
    var n := ServerHolds();
    n := ServerCloses(n);
    n := ServerHandsClose(n);
    n := ClientHearsClose(n);
    n := ClientUpgrades(n);
    n := ServerFinishes(n);
    assert Clean(n);
    es :| n == Reach([], Ample, es);
    assert [Lost, Late] == [Lost] + [Late];
    MessagesAppend([Lost], [Late]);
    MessagesOne(Lost);
    MessagesOne(Late);
    assert [Lost, Late][0] != [Late][0];
  }

  /** In every clean run in which the server completes the upgrade in state st, nothing is skipped, and nothing repeated without an error. */
  ghost predicate SafeIn(st: SF.SessionState) {
    forall buffered, limits, es ::
      var n := Reach(buffered, limits, es);
      Clean(n) && n.server.u.swaps > 0 && n.server.u.swappedIn == st ==> NetworkTheorems.Safe(n)
  }

  lemma CompletedInState(buffered: seq<Packet>, limits: Wire.Limits, es: seq<Event>)
    requires Clean(Reach(buffered, limits, es))
    ensures var u := Reach(buffered, limits, es).server.u;
            u.swaps > 0 ==> u.swappedIn == SF.Open || u.swappedIn == SF.Closing
  {
    var plain := Reachable(buffered, limits, es);
    NetworkTheorems.Reachable(buffered, limits.post, plain);
  }

  /** Completing an upgrade is safe in every state of the server session but one: closing. */
  lemma SafeUnlessClosing(st: SF.SessionState)
    ensures SafeIn(st) <==> st != SF.Closing
  {
    if st == SF.Closing {
      var es := ClosingCanLoseAMessage();
      assert !NetworkTheorems.Safe(Reach([], Ample, es));
    } else {
      forall buffered, limits, es
        ensures var n := Reach(buffered, limits, es);
                Clean(n) && n.server.u.swaps > 0 && n.server.u.swappedIn == st ==> NetworkTheorems.Safe(n)
      {
        if Clean(Reach(buffered, limits, es)) {
          CompletedInState(buffered, limits, es);
          NothingLostOrReordered(buffered, limits, es);
        }
      }
    }
  }
}
