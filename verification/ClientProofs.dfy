/** What every step of the client keeps. */
module ClientProofs {
  import opened Basics
  import opened Packets
  import opened Chunking
  import opened ClientSystem
  import F = ClientFields
  import P = ClientPolling

  // ---- Flush and upgrade exclude each other ----

  /** The pong handler has waited out the running flush and not yet finished. */
  predicate Switching(up: UpgradePc) {
    up.Committing? || up.Failing? || up.Committed? || up.PauseLocking? || up.PauseWaiting? || up.Adopting?
  }

  /** The upgrade packet has been handed to the link. */
  predicate AfterCommit(up: UpgradePc) {
    up.Committed? || up.PauseLocking? || up.PauseWaiting? || up.Adopting? || up.Adopted?
  }

  ghost predicate Handshake(s: System) {
    && (s.f.flushing <==> !s.pc.Idle?)
    && s.f.flushWG == (if s.f.flushing then 1 else 0)
    && (Switching(s.up) ==> s.pc.Idle?)
    && (s.f.state == F.Open ==> (s.f.upgrading <==> s.up.Draining? || Switching(s.up)))
    && s.f.transport == (if s.f.state == F.Closed then None
                         else if s.up.Adopted? then Some(F.Link(s.up.id)) else Some(F.Poll))
    && (s.pc.Posting? || (s.pc.Sending? && s.pc.via.Poll?) ==> !AfterCommit(s.up))
    && (s.pc.Sending? && s.pc.via.Link? ==> s.up == Adopted(s.pc.via.id))
    && (s.f.state == F.Closed ==> s.f.writeBuffer == [] && !s.f.upgrading)
    && (s.up.NoProbe? ==> !s.linkOpen)
  }

  // ---- Conservation ----

  function Chunked(s: System): seq<seq<Packet>> {
    if s.pc.Idle? then [] else Chunks(s.pc.packets, s.maxPayload)
  }

  /** What the running flush has written of its packets. */
  function Written(s: System): seq<Packet> {
    if s.pc.Idle? || s.pc.k > |Chunked(s)| then [] else Flat(Chunked(s)[..s.pc.k])
  }

  ghost predicate Conserved(s: System) {
    && (s.f.state == F.Open ==> s.log.accepted == s.log.trimmed + s.f.writeBuffer)
    && s.log.counted <= s.log.accepted
    && (s.pc.Idle? && s.f.state == F.Open ==> s.log.counted == s.log.trimmed)
    && (!s.pc.Idle? ==>
          && s.pc.k <= |Chunked(s)|
          && (s.pc.Posting? ==> s.pc.k < |Chunked(s)|)
          && s.log.counted == s.log.trimmed + Written(s)
          && s.log.trimmed + s.pc.packets <= s.log.accepted
          && (s.f.state == F.Open ==> s.pc.packets <= s.f.writeBuffer))
  }

  // ---- The stream the server sees ----

  /** The frames of the link after the upgrade packet. */
  function Frames(l: Log): seq<Packet> {
    if l.up == [] then [] else l.up[1..]
  }

  /** Packets handed to transports, in order: POSTs, what a closed polling transport swallowed, the link's frames. */
  function Flow(l: Log): seq<Packet> {
    l.posted + l.lost + Frames(l)
  }

  ghost predicate Stream(s: System) {
    && (s.log.up != [] ==> s.log.up[0] == UpgradePacket)
    && (s.log.up != [] ==> AfterCommit(s.up) || s.f.state != F.Open)
    && (s.up.Draining? || s.up.Committing? || s.up.Failing? ==> s.log.up == [])
    && (AfterCommit(s.up) && s.linkOpen ==> s.log.up != [])
    && (s.log.up != [] ==> s.pc.Idle? || s.pc.Ending? || (s.pc.Sending? && s.pc.via.Link?))
    && (AfterCommit(s.up) && s.log.up != [] ==> s.up.id == s.log.link)
    && (s.log.cut ==> || (s.up.Adopted? && !s.linkOpen)
                      || (!s.up.Adopted? && s.f.state != F.Open && s.polling != P.Open && |s.log.up| <= 1 && !s.pc.Posting?))
    && (s.log.lost != [] ==> s.polling != P.Open && !s.pc.Posting?)
    && Flow(s.log) <= s.log.counted
    && (!s.log.cut ==> Flow(s.log) == s.log.counted)
  }

  // ---- Polling stays quiet once paused ----

  ghost predicate Quiet(s: System) {
    && (s.polling == P.Paused || s.polling == P.Closed ==> !s.poll.Requesting?)
    && s.polling != P.Opening
    && (s.polling == P.Pausing ==> s.up.PauseLocking?)
    && (s.polling == P.Paused && s.f.state == F.Open ==> s.up.PauseWaiting? || s.up.Adopting? || s.up.Adopted?)
    && (s.polling == P.Closing ==> s.f.state != F.Open)
    && (s.up.PauseLocking? || s.up.PauseWaiting? || s.up.Adopting? || s.up.Adopted? ==> s.polling != P.Open)
    && (s.up.PauseWaiting? || s.up.Adopted? ==> !s.poll.Requesting?)
    && (s.up.Adopting? && s.f.state == F.Open ==> !s.poll.Requesting?)
    && (s.log.quiesced ==> s.polling != P.Open && (s.poll.Stopped? || s.poll.Scheduled?) && s.finishing == 0)
  }

  /** Buffered packets wait only while a flush is owed, an upgrade is running, or a write failed. */
  ghost predicate Wakeup(s: System) {
    s.f.state == F.Open && !s.f.upgrading && s.pc.Idle? && s.f.writeBuffer != [] ==> s.wants > 0 || s.log.failed
  }

  ghost predicate Inv(s: System) {
    Handshake(s) && Conserved(s) && Stream(s) && Quiet(s) && Wakeup(s)
  }

  predicate IsUpgradeStep(e: Event) {
    e.ProbeStarts? || e.ProbeFails? || e.PongArrives? || e.Drained? || e.Commit? || e.CancelCommit?
    || e.PauseBegins? || e.PauseLocks? || e.PauseReturns? || e.AdoptLink? || e.LinkCloses?
  }

  predicate IsFlushStep(e: Event) {
    e.FlushBegins? || e.ChunkStarts? || e.PostEnds? || e.FlushEnds?
  }

  lemma HandshakeUpgradeStep(s: System, e: Event)
    requires Handshake(s) && IsUpgradeStep(e)
    ensures Handshake(Apply(s, e))
  {}

  lemma HandshakeFlushStep(s: System, e: Event)
    requires Handshake(s) && IsFlushStep(e)
    ensures Handshake(Apply(s, e))
  {}

  lemma HandshakeOtherStep(s: System, e: Event)
    requires Handshake(s) && !IsUpgradeStep(e)
    ensures Handshake(Apply(s, e))
  {
    if IsFlushStep(e) {
      HandshakeFlushStep(s, e);
    }
  }

  lemma HandshakeKept(s: System, e: Event)
    requires Handshake(s)
    ensures Handshake(Apply(s, e))
  {
    if IsUpgradeStep(e) {
      HandshakeUpgradeStep(s, e);
    } else {
      HandshakeOtherStep(s, e);
    }
  }

  lemma QuietUpgradeStep(s: System, e: Event)
    requires Quiet(s) && IsUpgradeStep(e)
    ensures Quiet(Apply(s, e))
  {}

  lemma QuietOtherStep(s: System, e: Event)
    requires Quiet(s) && !IsUpgradeStep(e)
    ensures Quiet(Apply(s, e))
  {}

  lemma QuietKept(s: System, e: Event)
    requires Quiet(s)
    ensures Quiet(Apply(s, e))
  {
    if IsUpgradeStep(e) {
      QuietUpgradeStep(s, e);
    } else {
      QuietOtherStep(s, e);
    }
  }

  lemma WakeupKept(s: System, e: Event)
    requires Handshake(s) && Wakeup(s)
    ensures Wakeup(Apply(s, e))
  {}

  /** The next chunk follows what the flush has written, within its packets. */
  lemma NextChunk(packets: seq<Packet>, maxPayload: int, k: nat)
    requires k <= |Chunks(packets, maxPayload)|
    ensures var chunks := Chunks(packets, maxPayload);
            && Flat(chunks[..k]) <= packets
            && (k < |chunks| ==> Flat(chunks[..k + 1]) == Flat(chunks[..k]) + chunks[k])
  {
    ChunksFlat(packets, maxPayload);
    FlatTake(Chunks(packets, maxPayload), k);
  }

  // ---- Steps that only queue, dispatch or close ----

  /** s' took at most `more` packets into the buffer; nothing was written, and no upgrade moved. */
  ghost predicate Queued(s: System, s': System, more: seq<Packet>) {
    && s'.pc == s.pc && s'.maxPayload == s.maxPayload && s'.up == s.up && s'.linkOpen == s.linkOpen
    && s'.log.accepted == s.log.accepted + more
    && (more != [] ==> s.f.state == F.Open)
    && s'.log.trimmed == s.log.trimmed && s'.log.counted == s.log.counted && s'.log.posted == s.log.posted
    && s'.log.up == s.log.up && s'.log.link == s.log.link && s'.log.lost == s.log.lost && s'.log.cut == s.log.cut
    && (s'.polling == P.Open ==> s.polling == P.Open)
    && (s'.f.state == F.Open ==> s.f.state == F.Open && s'.f.writeBuffer == s.f.writeBuffer + more)
  }

  lemma ReceiveQueues(s: System, p: Packet)
    ensures Queued(s, Receive(s, p), if p.ptype == PING && s.f.state == F.Open then [PongPacket] else [])
  {}

  lemma OtherQueues(s: System, e: Event) returns (more: seq<Packet>)
    requires !IsUpgradeStep(e) && !IsFlushStep(e)
    ensures Queued(s, Apply(s, e), more)
  {
    more := [];
    if e.Send? && s.f.state == F.Open {
      more := e.packets;
    } else if e.FrameArrives? && s.up.Adopted? {
      ReceiveQueues(s, e.p);
      more := if e.p.ptype == PING && s.f.state == F.Open then [PongPacket] else [];
    } else if e.DispatchOne? && s.poll.Dispatching? && s.poll.rest != [] {
      var p := s.poll.rest[0];
      ReceiveQueues(s.(poll := Dispatching(s.poll.rest[1..]),
                       polling := if p.ptype == CLOSE then P.Closed else s.polling), p);
      more := if p.ptype == PING && s.f.state == F.Open then [PongPacket] else [];
    }
  }

  lemma QueuedKeeps(s: System, s': System, more: seq<Packet>)
    requires Conserved(s) && Stream(s) && Queued(s, s', more)
    ensures Conserved(s') && Stream(s')
  {}

  // ---- Flush steps ----

  lemma BeginKeeps(s: System)
    requires Handshake(s) && Conserved(s) && Stream(s)
    ensures Conserved(DoFlushBegins(s)) && Stream(DoFlushBegins(s))
  {}

  /** The flush counted its next chunk as written. */
  ghost predicate Advanced(s: System, s': System) {
    && !s.pc.Idle? && !s'.pc.Idle? && s'.pc.packets == s.pc.packets && s'.maxPayload == s.maxPayload
    && s'.f == s.f && s'.log.accepted == s.log.accepted && s'.log.trimmed == s.log.trimmed
    && (|| (s'.pc.k == s.pc.k && s'.log.counted == s.log.counted && (s'.pc.Posting? ==> s.pc.k < |Chunked(s)|))
        || (s.pc.k < |Chunked(s)| && s'.pc.k == s.pc.k + 1 && !s'.pc.Posting?
            && s'.log.counted == s.log.counted + Chunked(s)[s.pc.k]))
  }

  lemma ChunkAdvances(s: System, e: Event)
    requires !s.pc.Idle? && (e.ChunkStarts? || e.PostEnds?)
    requires s.pc.Posting? ==> s.pc.k < |Chunked(s)|
    ensures Advanced(s, Apply(s, e))
  {}

  lemma AdvanceConserved(s: System, s': System)
    requires Conserved(s) && Advanced(s, s')
    ensures Conserved(s')
  {
    NextChunk(s.pc.packets, s.maxPayload, s.pc.k);
    if s'.pc.k == s.pc.k + 1 {
      NextChunk(s.pc.packets, s.maxPayload, s.pc.k + 1);
    }
  }

  lemma FramesGrow(l: Log, chunk: seq<Packet>)
    ensures l.up != [] ==> Flow(l.(up := l.up + chunk)) == Flow(l) + chunk
    ensures Flow(l) <= l.counted ==> Flow(l) <= l.counted + chunk
  {
    if l.up != [] {
      assert (l.up + chunk)[1..] == l.up[1..] + chunk;
      Assoc(l.posted + l.lost, l.up[1..], chunk);
    }
  }

  lemma LostGrows(l: Log, chunk: seq<Packet>)
    requires l.up == []
    ensures Flow(l.(lost := l.lost + chunk)) == Flow(l) + chunk
    ensures l.lost == [] ==> Flow(l.(posted := l.posted + chunk)) == Flow(l) + chunk
  {}

  lemma PostStream(s: System, ok: bool)
    requires Handshake(s) && Stream(s)
    ensures Stream(DoPostEnds(s, ok))
  {
    if s.pc.Posting? && s.pc.k < |Chunked(s)| {
      LostGrows(s.log, Chunked(s)[s.pc.k]);
    }
  }

  lemma SendStream(s: System, ok: bool)
    requires Handshake(s) && Stream(s)
    ensures Stream(DoChunk(s, ok))
  {
    if s.pc.Sending? && s.pc.k < |Chunked(s)| {
      FramesGrow(s.log, Chunked(s)[s.pc.k]);
      if s.log.up == [] {
        LostGrows(s.log, Chunked(s)[s.pc.k]);
      }
    }
  }

  lemma ChunkStream(s: System, e: Event)
    requires Handshake(s) && Stream(s) && (e.ChunkStarts? || e.PostEnds?)
    ensures Stream(Apply(s, e))
  {
    if e.PostEnds? {
      PostStream(s, e.ok);
    } else {
      SendStream(s, e.ok);
    }
  }

  /** The trimming slice is always in bounds. */
  lemma TrimInBounds(s: System)
    requires Handshake(s) && Conserved(s) && s.pc.Ending?
    ensures F.CanTrim(s.f, SentCount(s)) && SentCount(s) == |Written(s)| && Written(s) <= s.pc.packets
  {
    NextChunk(s.pc.packets, s.maxPayload, s.pc.k);
  }

  lemma EndConserved(s: System)
    requires Handshake(s) && Conserved(s)
    ensures Conserved(DoFlushEnds(s))
  {
    if s.pc.Ending? {
      TrimInBounds(s);
      if s.f.state == F.Open {
        assert s.f.writeBuffer[..SentCount(s)] == Written(s);
        assert s.f.writeBuffer == Written(s) + s.f.writeBuffer[SentCount(s)..];
      }
    }
  }

  lemma EndStream(s: System)
    requires Stream(s)
    ensures Stream(DoFlushEnds(s))
  {}

  // ---- Upgrade steps ----

  lemma UpgradeConserved(s: System, e: Event)
    requires Conserved(s) && IsUpgradeStep(e)
    ensures Conserved(Apply(s, e))
  {}

  lemma CommitStream(s: System, ok: bool)
    requires Handshake(s) && Stream(s)
    ensures Stream(DoCommit(s, ok))
  {}

  lemma AdoptStream(s: System, e: Event)
    requires Handshake(s) && Stream(s) && (e.AdoptLink? || e.PauseBegins? || e.CancelCommit?)
    ensures Stream(Apply(s, e))
  {}

  lemma SwitchStream(s: System, e: Event)
    requires Handshake(s) && Stream(s) && IsUpgradeStep(e) && !e.Commit?
    ensures Stream(Apply(s, e))
  {
    if e.AdoptLink? || e.PauseBegins? || e.CancelCommit? {
      AdoptStream(s, e);
    }
  }

  lemma UpgradeStream(s: System, e: Event)
    requires Handshake(s) && Stream(s) && IsUpgradeStep(e)
    ensures Stream(Apply(s, e))
  {
    if e.Commit? {
      CommitStream(s, e.ok);
    } else {
      SwitchStream(s, e);
    }
  }

  // ---- Every step ----

  lemma ChunkKeeps(s: System, e: Event)
    requires Handshake(s) && Conserved(s) && Stream(s) && (e.ChunkStarts? || e.PostEnds?)
    ensures Conserved(Apply(s, e)) && Stream(Apply(s, e))
  {
    ChunkStream(s, e);
    if !s.pc.Idle? {
      ChunkAdvances(s, e);
      AdvanceConserved(s, Apply(s, e));
    }
  }

  lemma FlowKept(s: System, e: Event)
    requires Handshake(s) && Conserved(s) && Stream(s)
    ensures Conserved(Apply(s, e)) && Stream(Apply(s, e))
  {
    if e.FlushBegins? {
      BeginKeeps(s);
    } else if e.FlushEnds? {
      EndConserved(s);
      EndStream(s);
    } else if e.ChunkStarts? || e.PostEnds? {
      ChunkKeeps(s, e);
    } else if IsUpgradeStep(e) {
      UpgradeConserved(s, e);
      UpgradeStream(s, e);
    } else {
      var more := OtherQueues(s, e);
      QueuedKeeps(s, Apply(s, e), more);
    }
  }

  lemma StepKeepsInv(s: System, e: Event)
    requires Inv(s)
    ensures Inv(Apply(s, e))
  {
    HandshakeKept(s, e);
    QuietKept(s, e);
    WakeupKept(s, e);
    FlowKept(s, e);
  }

  lemma InitInv(buffered: seq<Packet>, maxPayload: int)
    ensures Inv(Init(buffered, maxPayload))
  {}

  lemma {:induction false} RunKeepsInv(s: System, es: seq<Event>)
    requires Inv(s)
    ensures Inv(RunAll(s, es))
    decreases |es|
  {
    if es != [] {
      StepKeepsInv(s, es[0]);
      RunKeepsInv(Apply(s, es[0]), es[1..]);
    }
  }
}

/** What holds of every run of the client socket, from its handshake on, in every interleaving. */
module ClientTheorems {
  import opened Basics
  import opened Packets
  import opened ClientSystem
  import opened ClientProofs
  import F = ClientFields
  import P = ClientPolling

  /** The state reached from a socket that opened with packets already buffered. */
  function Reach(buffered: seq<Packet>, maxPayload: int, es: seq<Event>): System {
    RunAll(Init(buffered, maxPayload), es)
  }

  lemma Reachable(buffered: seq<Packet>, maxPayload: int, es: seq<Event>)
    ensures Inv(Reach(buffered, maxPayload, es))
  {
    InitInv(buffered, maxPayload);
    RunKeepsInv(Init(buffered, maxPayload), es);
  }

  /**
   * While the socket is open every accepted packet is delivered or buffered: the packets
   * the transports took, then the buffer without what the running flush already wrote.
   */
  lemma NothingLostOrRepeated(buffered: seq<Packet>, maxPayload: int, es: seq<Event>)
    ensures var s := Reach(buffered, maxPayload, es);
            && s.log.counted <= s.log.accepted
            && Flow(s.log) <= s.log.accepted
            && (s.f.state == F.Open ==>
                  && Written(s) <= s.f.writeBuffer
                  && s.log.accepted == s.log.counted + s.f.writeBuffer[|Written(s)|..])
            && (s.f.state == F.Open && !s.log.cut ==>
                  s.log.accepted == Flow(s.log) + s.f.writeBuffer[|Written(s)|..])
  {
    Reachable(buffered, maxPayload, es);
    BufferedOrCounted(Reach(buffered, maxPayload, es));
  }

  lemma BufferedOrCounted(s: System)
    requires Conserved(s)
    ensures s.f.state == F.Open ==>
              && Written(s) <= s.f.writeBuffer
              && s.log.accepted == s.log.counted + s.f.writeBuffer[|Written(s)|..]
  {
    if !s.pc.Idle? {
      NextChunk(s.pc.packets, s.maxPayload, s.pc.k);
    }
    if s.f.state == F.Open {
      var rest := s.f.writeBuffer[|Written(s)|..];
      assert s.f.writeBuffer == Written(s) + rest;
      Assoc(s.log.trimmed, Written(s), rest);
    }
  }

  /** The trim after a flush never runs past the buffer. */
  lemma TrimNeverPanics(buffered: seq<Packet>, maxPayload: int, es: seq<Event>)
    ensures var s := Reach(buffered, maxPayload, es); s.pc.Ending? ==> F.CanTrim(s.f, SentCount(s))
  {
    Reachable(buffered, maxPayload, es);
    var s := Reach(buffered, maxPayload, es);
    if s.pc.Ending? {
      TrimInBounds(s);
    }
  }

  lemma UpgradedStep(s: System, e: Event)
    requires Stream(s) && s.log.up != []
    ensures var s' := Apply(s, e);
            s'.log.posted == s.log.posted && s.log.up <= s'.log.up && s'.log.link == s.log.link && s'.log.lost == s.log.lost
  {
    if !IsFlushStep(e) && !IsUpgradeStep(e) {
      var more := OtherQueues(s, e);
    }
  }

  /**
   * The upgrade packet is the first frame of the new transport, and from then on no
   * packet goes over the old one.
   */
  lemma {:induction false} UpgradeSeparates(s: System, es: seq<Event>)
    requires Inv(s) && s.log.up != []
    ensures var s' := RunAll(s, es);
            && s'.log.posted == s.log.posted && s'.log.lost == s.log.lost
            && s.log.up <= s'.log.up && s'.log.up[0] == UpgradePacket
    decreases |es|
  {
    if es != [] {
      StepKeepsInv(s, es[0]);
      UpgradedStep(s, es[0]);
      UpgradeSeparates(Apply(s, es[0]), es[1..]);
    }
  }

  /** Without a failed write, an open socket that is not upgrading leaves packets buffered only while a flush is owed or running. */
  lemma NoLostWakeup(buffered: seq<Packet>, maxPayload: int, es: seq<Event>)
    ensures var s := Reach(buffered, maxPayload, es);
            s.f.state == F.Open && !s.f.upgrading && !s.log.failed && s.wants == 0 && s.pc.Idle? ==> s.f.writeBuffer == []
  {
    Reachable(buffered, maxPayload, es);
  }

  lemma QuiescedStep(s: System, e: Event)
    requires s.log.quiesced
    ensures Apply(s, e).log.quiesced
  {}

  /**
   * Once Pause, called on a running polling transport, has returned, no poll request or
   * dispatch is in progress, now or after any further steps.
   */
  lemma {:induction false} PauseQuiesces(s: System, es: seq<Event>)
    requires Inv(s) && s.log.quiesced
    ensures var s' := RunAll(s, es);
            s'.log.quiesced && !s'.poll.Requesting? && !s'.poll.Dispatching? && s'.finishing == 0 && !P.Running(s'.polling)
    decreases |es|
  {
    if es != [] {
      StepKeepsInv(s, es[0]);
      QuiescedStep(s, es[0]);
      PauseQuiesces(Apply(s, es[0]), es[1..]);
    }
  }

  /** A closed socket has let go of its buffer, its transport and its upgrade, and a probe given up of its link. */
  lemma NothingLeftBehind(buffered: seq<Packet>, maxPayload: int, es: seq<Event>)
    ensures var s := Reach(buffered, maxPayload, es);
            && (s.f.state == F.Closed ==> s.f.writeBuffer == [] && s.f.transport == None && !s.f.upgrading)
            && (s.up.NoProbe? ==> !s.linkOpen)
  {
    Reachable(buffered, maxPayload, es);
  }

  /** What a packet from the server leads to: a ping to a pong while open, a message to a dispatch until closed. */
  ghost predicate Handled(s: System, s': System, p: Packet) {
    && s'.log.accepted == s.log.accepted + (if p.ptype == 2 && s.f.state == F.Open then [Packet(3, [], false)] else [])
    && s'.log.dispatched == s.log.dispatched + (if p.ptype == 4 && s.f.state != F.Closed then [p] else [])
    && s'.f.state == s.f.state
  }

  /** Every packet is handled so, over either transport; and a close packet in a poll answer ends the polling. */
  lemma PacketsAreHandled(buffered: seq<Packet>, maxPayload: int, es: seq<Event>, p: Packet)
    ensures var s := Reach(buffered, maxPayload, es);
            && (s.up.Adopted? ==> Handled(s, Apply(s, FrameArrives(p)), p))
            && (s.poll.Dispatching? && s.poll.rest != [] && s.poll.rest[0] == p ==>
                  var s' := Apply(s, DispatchOne);
                  Handled(s, s', p) && s'.polling == if p.ptype == 1 then P.Closed else s.polling)
            && (s.poll == Dispatching([]) && s.polling == P.Closed ==> Apply(s, DispatchEnds).poll == Stopped)
  {}

  /** What is flushed onto a link that has closed is dropped without an error. */
  lemma ClosedLinkDropsSilently(buffered: seq<Packet>, maxPayload: int, es: seq<Event>, ok: bool)
    requires var s := Reach(buffered, maxPayload, es);
             s.pc.Sending? && s.pc.via.Link? && !s.linkOpen && s.pc.k < |Chunked(s)|
    ensures var s := Reach(buffered, maxPayload, es);
            var s' := Apply(s, ChunkStarts(ok));
            && s'.log.up == s.log.up && s'.log.counted == s.log.counted + Chunked(s)[s.pc.k]
            && s'.pc == Sending(s.pc.via, s.pc.packets, s.pc.k + 1)
  {}

  /** Application packets reach the link only after it was adopted, so after Pause returned or found the transport closed. */
  lemma NothingFlushedWhileSwitching(buffered: seq<Packet>, maxPayload: int, es: seq<Event>)
    ensures var s := Reach(buffered, maxPayload, es);
            && (Switching(s.up) ==> s.pc.Idle?)
            && (s.pc.Sending? && s.pc.via.Link? ==> s.up.Adopted? && s.polling != P.Open && !s.poll.Requesting?)
  {
    Reachable(buffered, maxPayload, es);
  }
}
