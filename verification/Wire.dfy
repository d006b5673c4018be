/**
 * The network with its codecs: POSTs and poll answers travel as payloads, frames as frames,
 * and each is decoded where it arrives.
 */
module Wire {
  import opened Basics
  import opened Packets
  import opened Payload
  import opened PostRequest
  import opened Network
  import WebTransportFraming
  import C = ClientSystem

  /** The server's payload limit, which the handshake announces, and the largest frame that each end reads. */
  datatype Limits = Limits(post: nat, up: nat, down: nat)

  /** What a packet sent as one frame is read back as, if it is no larger than `limit`. */
  function OnFrame(p: Packet, limit: nat): Option<Packet> {
    var body := WebTransportFraming.Body(p);
    if |body| > limit then None else WebTransportFraming.Interpret(p.isBinary, body)
  }

  /** The POST in flight, as the server serves it. */
  function Posting(n: Net, limit: nat): Served {
    Serve(EncodePayload(Chunk(n)), false, false, limit)
  }

  /** A POST is served or refused; a refusal reaches the client as a failed write. */
  function DoPostRead(n: Net, limit: nat): Net {
    if !n.post.Unread? then n
    else if Posting(n, limit).reply == Ok200
    then n.(post := Serving(Posting(n, limit).dispatched), payloads := n.payloads + [Chunk(n)])
    else n.(client := C.Apply(n.client, C.PostEnds(false)), post := NoPost)
  }

  /** A POST that was given up may still have to be read. */
  function DoPostGivenUp(n: Net, limit: nat): Net {
    if !n.post.Unread? then Network.Apply(n, PostGivenUp)
    else if Posting(n, limit).reply == Ok200
    then GiveUp(n.(payloads := n.payloads + [Chunk(n)]), Posting(n, limit).dispatched)
    else n.(client := C.Apply(n.client, C.PostEnds(false)), post := NoPost)
  }

  /** A poll answer is decoded; one that does not decode is a transport error. */
  function DoPollAnswered(n: Net): Net {
    if n.poll != AtServer || |n.server.w.polls| <= n.pollsSeen then n
    else
      var payload := n.server.w.polls[n.pollsSeen];
      var e := match DecodePayload(EncodePayload(payload))
        case Packets(ps) => C.PollReturns(ps)
        case Malformed(_) => C.PollFails;
      n.(client := C.Apply(n.client, e), poll := NoPoll, pollsSeen := n.pollsSeen + 1, payloads := n.payloads + [payload])
  }

  /** A frame for the client; at one that is too large or does not decode, the link closes. */
  function DoFrameDown(n: Net, limit: nat): Net {
    if !CanReadFrame(n) then n
    else match OnFrame(n.server.w.frames[n.framesSeen].packet, limit)
      case Some(p) => n.(client := C.Apply(n.client, C.FrameArrives(p)), framesSeen := n.framesSeen + 1)
      case None => n.(client := C.Apply(n.client, C.LinkCloses))
  }

  /** A frame for the server; at one that is too large or does not decode, the read loop ends. */
  function DoFrameUp(n: Net, i: nat, limit: nat): Net {
    if !CanTakeFrame(n, i) then n
    else match OnFrame(n.client.log.up[n.upSeen], limit)
      case Some(p) => TakeFrame(n, i, p)
      case None => n
  }

  /**
   * One step over the wire. Where the source closes a session on a decoding error, that is a
   * step of the session's own.
   */
  function Apply(n: Net, e: Event, limits: Limits): Net {
    match e
    case PostRead => DoPostRead(n, limits.post)
    case PostGivenUp => DoPostGivenUp(n, limits.post)
    case PollAnswered => DoPollAnswered(n)
    case FrameDown => DoFrameDown(n, limits.down)
    case FrameUp(i) => DoFrameUp(n, i, limits.up)
    case _ => Network.Apply(n, e)
  }

  function RunAll(n: Net, es: seq<Event>, limits: Limits): Net
    decreases |es|
  {
    if es == [] then n else RunAll(Apply(n, es[0], limits), es[1..], limits)
  }

  /** The same step without the codecs: a POST that is refused is simply lost, and a frame that is refused closes the link. */
  function Plain(n: Net, e: Event, limits: Limits): Event {
    if (e.PostRead? || e.PostGivenUp?) && n.post.Unread? && Posting(n, limits.post).reply != Ok200 then PostLost
    else if e.FrameDown? && CanReadFrame(n) && OnFrame(n.server.w.frames[n.framesSeen].packet, limits.down) == None
    then ClientStep(C.LinkCloses)
    else e
  }
}

/** On packets the codecs carry, a run over the wire is a run of the network. */
module WireProofs {
  import opened Basics
  import opened Packets
  import opened Payload
  import opened Chunking
  import opened PostRequest
  import opened Network
  import opened NetworkProofs
  import Wire
  import S = ServerSystem
  import SQ = ServerQueue
  import C = ClientSystem
  import CI = ClientProofs
  import WebTransportFraming

  ghost predicate AllFormed(ps: seq<Packet>) {
    forall k :: 0 <= k < |ps| ==> WellFormed(ps[k])
  }

  /** What either end has accepted is well-formed, and what travelled by POST or poll answer survives the payload codec. */
  ghost predicate Clean(n: Net) {
    && AllFormed(n.client.log.accepted) && AllFormed(n.server.w.appended)
    && forall k :: 0 <= k < |n.payloads| ==> AllCarried(n.payloads[k])
  }

  // ---- One hop at a time ----

  /** A frame carries its packet exactly when the packet is well-formed and within the limit. */
  lemma FrameHop(p: Packet, limit: nat)
    ensures Wire.OnFrame(p, limit) == Some(p) <==> WellFormed(p) && |WebTransportFraming.Body(p)| <= limit
  {
    PacketRoundTrip(p);
  }

  /** A POST is read as it was written exactly when it is within the limit and its packets survive the codec. */
  lemma PostHop(n: Net, limits: Wire.Limits)
    requires n.post.Unread? && Chunk(n) != []
    ensures Wire.Apply(n, PostRead, limits) == Apply(n, PostRead) <==>
            Size(Chunk(n)) <= limits.post && AllCarried(Chunk(n))
  {
    ChunkServed(Chunk(n), limits.post);
    ServedInFull(Chunk(n), limits.post);
  }

  lemma ServedInFull(chunk: seq<Packet>, limit: nat)
    ensures var s := Serve(EncodePayload(chunk), false, false, limit);
            s.reply == Ok200 ==> s == Served(Ok200, s.dispatched, false)
  {}

  /** A poll answer is read as it was written exactly when its packets survive the codec. */
  lemma PollHop(n: Net, limits: Wire.Limits)
    requires n.poll == AtServer && n.client.poll.Requesting? && n.pollsSeen < |n.server.w.polls|
    requires n.server.w.polls[n.pollsSeen] != []
    ensures Wire.Apply(n, PollAnswered, limits) == Apply(n, PollAnswered) <==> AllCarried(n.server.w.polls[n.pollsSeen])
  {
    var ps := n.server.w.polls[n.pollsSeen];
    PayloadRoundTrip(ps);
    ReadAs(n.client, ps);
    match DecodePayload(EncodePayload(ps))
    case Packets(qs) => ReadAs(n.client, qs);
    case Malformed(_) =>
  }

  lemma ReadAs(c: C.System, ps: seq<Packet>)
    requires c.poll.Requesting?
    ensures C.Apply(c, C.PollReturns(ps)).poll == if ps == [] then C.Requesting else C.Dispatching(ps)
    ensures C.Apply(c, C.PollFails).poll == C.Stopped
  {}

  // ---- Frames carry what was accepted ----

  lemma QueuedFormed(p: Packet, w: S.WriteLog)
    requires SQ.FromQueue(p, w) && AllFormed(w.appended)
    ensures WellFormed(p)
  {
    if p in w.appended {
      var j :| 0 <= j < |w.appended| && w.appended[j] == p;
    }
  }

  lemma FrameFormed(l: C.Log, k: nat)
    requires k < |l.up| && l.up[0] == C.UpgradePacket && CI.Flow(l) <= l.accepted && AllFormed(l.accepted)
    ensures WellFormed(l.up[k])
  {
    if k > 0 {
      var i := |l.posted + l.lost| + k - 1;
      assert l.accepted[i] == CI.Flow(l)[i] == l.up[k];
    }
  }

  lemma FrameOrNothing(p: Packet, limit: nat)
    requires WellFormed(p)
    ensures Wire.OnFrame(p, limit) == Some(p) || Wire.OnFrame(p, limit) == None
  {
    FrameHop(p, limit);
  }

  // ---- One step ----

  /** The step over the wire is the step without codecs, or it does nothing. */
  ghost predicate IsPlain(n: Net, e: Event, limits: Wire.Limits) {
    Wire.Apply(n, e, limits) == Apply(n, Wire.Plain(n, e, limits)) || Wire.Apply(n, e, limits) == n
  }

  lemma OkIsWhole(chunk: seq<Packet>, limit: nat)
    requires AllCarried(chunk) && Serve(EncodePayload(chunk), false, false, limit).reply == Ok200
    ensures Serve(EncodePayload(chunk), false, false, limit).dispatched == chunk
  {
    if chunk != [] {
      assert Size(chunk) <= limit;
      ChunkServed(chunk, limit);
    }
  }

  lemma EmptyServed(limit: nat)
    ensures Serve(EncodePayload([]), false, false, limit) == Served(Ok200, [], false)
  {}

  lemma LastCarried(n: Net, payload: seq<Packet>, n': Net)
    requires Clean(n') && n'.payloads == n.payloads + [payload]
    ensures AllCarried(payload)
  {
    assert n'.payloads[|n.payloads|] == payload;
  }

  lemma PostStep(n: Net, e: Event, limits: Wire.Limits)
    requires (e.PostRead? || e.PostGivenUp?) && Clean(Wire.Apply(n, e, limits))
    ensures IsPlain(n, e, limits)
  {
    if n.post.Unread? && Wire.Posting(n, limits.post).reply == Ok200 {
      LastCarried(n, Chunk(n), Wire.Apply(n, e, limits));
      OkIsWhole(Chunk(n), limits.post);
    }
  }

  lemma PollStep(n: Net, limits: Wire.Limits)
    requires PollLink(n) && AnswerFacts(n.server) && Clean(Wire.Apply(n, PollAnswered, limits))
    ensures IsPlain(n, PollAnswered, limits)
  {
    if n.poll == AtServer && n.pollsSeen < |n.server.w.polls| {
      LastCarried(n, n.server.w.polls[n.pollsSeen], Wire.Apply(n, PollAnswered, limits));
      PollHop(n, limits);
    }
  }

  lemma FrameDownStep(n: Net, limits: Wire.Limits)
    requires SQ.OnlyQueued(n.server.w) && AllFormed(n.server.w.appended)
    ensures IsPlain(n, FrameDown, limits)
  {
    if n.framesSeen < |n.server.w.frames| {
      QueuedFormed(n.server.w.frames[n.framesSeen].packet, n.server.w);
      FrameOrNothing(n.server.w.frames[n.framesSeen].packet, limits.down);
    }
  }

  lemma FrameUpStep(n: Net, i: nat, limits: Wire.Limits)
    requires CI.Stream(n.client) && CI.Conserved(n.client) && AllFormed(n.client.log.accepted)
    ensures IsPlain(n, FrameUp(i), limits)
  {
    if n.upSeen < |n.client.log.up| {
      FrameFormed(n.client.log, n.upSeen);
      FrameOrNothing(n.client.log.up[n.upSeen], limits.up);
    }
  }

  /** What WireStep needs of a state. */
  ghost predicate Ready(n: Net) {
    && CI.Conserved(n.client) && CI.Stream(n.client) && PollLink(n) && AnswerFacts(n.server)
    && SQ.OnlyQueued(n.server.w)
  }

  /** A step that stays clean is the step without codecs, refused POSTs being lost and refused frames closing the link. */
  lemma WireStep(n: Net, e: Event, limits: Wire.Limits)
    requires Ready(n) && Clean(n) && Clean(Wire.Apply(n, e, limits))
    ensures IsPlain(n, e, limits)
  {
    if e.PostRead? || e.PostGivenUp? {
      PostStep(n, e, limits);
    } else if e.PollAnswered? {
      PollStep(n, limits);
    } else if e.FrameDown? {
      FrameDownStep(n, limits);
    } else if e.FrameUp? {
      FrameUpStep(n, e.i, limits);
    }
  }

  // ---- Whole runs ----

  /** What both ends have accepted and what was read only grows. */
  ghost predicate Grown(n: Net, n': Net) {
    && n.client.log.accepted <= n'.client.log.accepted && n.server.w.appended <= n'.server.w.appended
    && n.payloads <= n'.payloads
  }

  lemma NextGrown(n: Net, n': Net)
    requires ClientNext(n.client, n'.client) && ServerNext(n.server, n'.server) && n.payloads <= n'.payloads
    ensures Grown(n, n')
  {
    ClientAccepts(n.client, n'.client);
    if n'.server != n.server {
      var e :| n'.server == S.Apply(n.server, e);
      SQ.StepAppends(n.server, e);
    }
  }

  lemma TakeFrameNext(n: Net, i: nat, p: Packet)
    ensures var n' := TakeFrame(n, i, p);
            n'.client == n.client && ServerNext(n.server, n'.server) && n'.payloads == n.payloads
  {}

  lemma PlainNext(n: Net, e: Event)
    requires !e.FrameUp?
    ensures var n' := Apply(n, e);
            ClientNext(n.client, n'.client) && ServerNext(n.server, n'.server) && n.payloads <= n'.payloads
  {
    ClientSide(n, e);
    ServerSide(n, e);
  }

  lemma PostNext(n: Net, e: Event, limits: Wire.Limits)
    requires e.PostRead? || (e.PostGivenUp? && n.post.Unread?)
    ensures var n' := Wire.Apply(n, e, limits);
            ClientNext(n.client, n'.client) && n'.server == n.server && n.payloads <= n'.payloads
  {}

  lemma DownNext(n: Net, e: Event, limits: Wire.Limits)
    requires e.PollAnswered? || e.FrameDown?
    ensures var n' := Wire.Apply(n, e, limits);
            ClientNext(n.client, n'.client) && n'.server == n.server && n.payloads <= n'.payloads
  {}

  lemma FrameUpNext(n: Net, i: nat, limits: Wire.Limits)
    ensures var n' := Wire.Apply(n, FrameUp(i), limits);
            n'.client == n.client && ServerNext(n.server, n'.server) && n'.payloads == n.payloads
  {
    if n.upSeen < |n.client.log.up| && Wire.OnFrame(n.client.log.up[n.upSeen], limits.up).Some? {
      TakeFrameNext(n, i, Wire.OnFrame(n.client.log.up[n.upSeen], limits.up).value);
    }
  }

  lemma WireNext(n: Net, e: Event, limits: Wire.Limits)
    ensures var n' := Wire.Apply(n, e, limits);
            ClientNext(n.client, n'.client) && ServerNext(n.server, n'.server) && n.payloads <= n'.payloads
  {
    if e.FrameUp? {
      FrameUpNext(n, e.i, limits);
    } else if e.PostRead? || (e.PostGivenUp? && n.post.Unread?) {
      PostNext(n, e, limits);
    } else if e.PollAnswered? || e.FrameDown? {
      DownNext(n, e, limits);
    } else {
      PlainNext(n, e);
    }
  }

  lemma {:induction false} WireGrows(n: Net, es: seq<Event>, limits: Wire.Limits)
    ensures Grown(n, Wire.RunAll(n, es, limits))
    decreases |es|
  {
    if es != [] {
      WireNext(n, es[0], limits);
      NextGrown(n, Wire.Apply(n, es[0], limits));
      WireGrows(Wire.Apply(n, es[0], limits), es[1..], limits);
    }
  }

  lemma CleanBefore(n: Net, n': Net)
    requires Grown(n, n') && Clean(n')
    ensures Clean(n)
  {
    assert forall k :: 0 <= k < |n.payloads| ==> n.payloads[k] == n'.payloads[k];
  }

  lemma NetQueued(n: Net, e: Event)
    requires Inv(n) && SQ.OnlyQueued(n.server.w)
    ensures SQ.OnlyQueued(Apply(n, e).server.w)
  {
    ServerSide(n, e);
    if Apply(n, e).server != n.server {
      var se :| Apply(n, e).server == S.Apply(n.server, se);
      SQ.StepQueued(n.server, se);
    }
  }

  lemma InvReady(n: Net)
    requires Inv(n) && SQ.OnlyQueued(n.server.w)
    ensures Ready(n)
  {
    EndsGive(n);
  }

  lemma WireOne(n: Net, e: Event, limits: Wire.Limits)
    requires Inv(n) && SQ.OnlyQueued(n.server.w) && Clean(n) && Clean(Wire.Apply(n, e, limits))
    ensures IsPlain(n, e, limits) && Inv(Wire.Apply(n, e, limits)) && SQ.OnlyQueued(Wire.Apply(n, e, limits).server.w)
  {
    InvReady(n);
    WireStep(n, e, limits);
    StepKeepsInv(n, Wire.Plain(n, e, limits));
    NetQueued(n, Wire.Plain(n, e, limits));
  }

  /** The first step of a run over the wire, and the network step it amounts to. */
  lemma WireHead(n: Net, es: seq<Event>, limits: Wire.Limits) returns (e: Event, n': Net)
    requires Inv(n) && SQ.OnlyQueued(n.server.w) && es != [] && Clean(Wire.RunAll(n, es, limits))
    ensures (n' == Apply(n, e) || n' == n) && Inv(n') && SQ.OnlyQueued(n'.server.w)
    ensures Wire.RunAll(n, es, limits) == Wire.RunAll(n', es[1..], limits)
  {
    e, n' := Wire.Plain(n, es[0], limits), Wire.Apply(n, es[0], limits);
    WireGrows(n, es, limits);
    CleanBefore(n, Wire.RunAll(n, es, limits));
    WireGrows(n', es[1..], limits);
    CleanBefore(n', Wire.RunAll(n', es[1..], limits));
    WireOne(n, es[0], limits);
  }

  /** Some run of the network leads from n to m. */
  ghost predicate LeadsTo(n: Net, m: Net) {
    exists es :: m == RunAll(n, es)
  }

  lemma LeadsFurther(n: Net, e: Event, m: Net)
    requires LeadsTo(Apply(n, e), m)
    ensures LeadsTo(n, m)
  {
    var es :| m == RunAll(Apply(n, e), es);
    assert ([e] + es)[1..] == es;
    assert m == RunAll(n, [e] + es);
  }

  lemma LeadsNowhere(n: Net)
    ensures LeadsTo(n, n)
  {
    assert n == RunAll(n, []);
  }

  /** A run over the wire that stays clean is a run of the network. */
  lemma {:induction false} WireRun(n: Net, es: seq<Event>, limits: Wire.Limits)
    requires Inv(n) && SQ.OnlyQueued(n.server.w) && Clean(Wire.RunAll(n, es, limits))
    ensures LeadsTo(n, Wire.RunAll(n, es, limits))
    decreases |es|
  {
    if es == [] {
      LeadsNowhere(n);
    } else {
      var e, n' := WireHead(n, es, limits);
      WireRun(n', es[1..], limits);
      if n' != n {
        LeadsFurther(n, e, Wire.RunAll(n', es[1..], limits));
      }
    }
  }
}

/** The promise of the upgrade, as applications see it: between what they send and what they are given. */
module WireTheorems {
  import opened Basics
  import opened Packets
  import opened Payload
  import opened Chunking
  import opened PostRequest
  import opened Network
  import opened NetworkProofs
  import opened WireProofs
  import NetworkTheorems
  import Wire
  import SF = ServerFields
  import C = ClientSystem
  import CI = ClientProofs
  import SQ = ServerQueue

  /** A client and a server that agreed on the payload limit. */
  function Reach(buffered: seq<Packet>, limits: Wire.Limits, es: seq<Event>): Net {
    Wire.RunAll(Init(buffered, limits.post), es, limits)
  }

  lemma Reachable(buffered: seq<Packet>, limits: Wire.Limits, es: seq<Event>) returns (plain: seq<Event>)
    requires Clean(Reach(buffered, limits, es))
    ensures Reach(buffered, limits, es) == NetworkTheorems.Reach(buffered, limits.post, plain)
  {
    InitInv(buffered, limits.post);
    WireRun(Init(buffered, limits.post), es, limits);
    plain :| Reach(buffered, limits, es) == RunAll(Init(buffered, limits.post), plain);
  }

  /**
   * With every codec in place, and text free of separators: in every interleaving what an
   * application is given is in order what the other sent, as NetworkTheorems states it.
   */
  lemma NothingLostOrReordered(buffered: seq<Packet>, limits: Wire.Limits, es: seq<Event>)
    requires Clean(Reach(buffered, limits, es))
    ensures var n := Reach(buffered, limits, es);
            && n.client.log.dispatched <= Messages(n.server.w.appended)
            && NetworkTheorems.InStream(n)
            && (SF.CanSend(n.server.f) ==> n.client.log.lost == [])
            && (NetworkTheorems.SwitchedOpen(n) || SF.CanSend(n.server.f) ==> NetworkTheorems.Safe(n))
  {
    var plain := Reachable(buffered, limits, es);
    NetworkTheorems.NothingLostOrReordered(buffered, limits.post, plain);
  }

  /** Once a direction is drained, everything accepted at one end has been delivered at the other. */
  lemma DrainedMeansDelivered(buffered: seq<Packet>, limits: Wire.Limits, es: seq<Event>)
    requires Clean(Reach(buffered, limits, es))
    ensures var n := Reach(buffered, limits, es);
            && (NetworkTheorems.DownDrained(n) ==> n.client.log.dispatched == Messages(n.server.w.appended))
            && (NetworkTheorems.UpDrained(n) ==> NetworkTheorems.Complete(n))
  {
    var plain := Reachable(buffered, limits, es);
    NetworkTheorems.DrainedMeansDelivered(buffered, limits.post, plain);
  }

  lemma {:induction false} RunQueued(n: Net, es: seq<Event>)
    requires Inv(n) && SQ.OnlyQueued(n.server.w)
    ensures SQ.OnlyQueued(RunAll(n, es).server.w)
    decreases |es|
  {
    if es != [] {
      NetQueued(n, es[0]);
      StepKeepsInv(n, es[0]);
      RunQueued(Apply(n, es[0]), es[1..]);
    }
  }

  /** Once the client has sent its upgrade packet to a server that is still open, nothing is ever lost. */
  lemma CommittedIsSafe(buffered: seq<Packet>, limits: Wire.Limits, es: seq<Event>, later: seq<Event>)
    requires var n := Reach(buffered, limits, es);
             SF.CanSend(n.server.f) && n.client.log.up != [] && Clean(Wire.RunAll(n, later, limits))
    ensures var n := Wire.RunAll(Reach(buffered, limits, es), later, limits);
            n.client.log.lost == [] && NetworkTheorems.InStream(n) && NetworkTheorems.Safe(n)
  {
    var n := Reach(buffered, limits, es);
    WireGrows(n, later, limits);
    CleanBefore(n, Wire.RunAll(n, later, limits));
    var plain := Reachable(buffered, limits, es);
    NetworkTheorems.Reachable(buffered, limits.post, plain);
    InitInv(buffered, limits.post);
    RunQueued(Init(buffered, limits.post), plain);
    WireRun(n, later, limits);
    var after :| Wire.RunAll(n, later, limits) == RunAll(n, after);
    NetworkTheorems.CommittedIsSafe(buffered, limits.post, plain, after);
  }

  // ---- POSTs are served ----

  lemma LimitFixed(c: C.System, e: C.Event)
    ensures C.Apply(c, e).maxPayload == c.maxPayload
  {
    if !CI.IsUpgradeStep(e) && !CI.IsFlushStep(e) {
      var more := CI.OtherQueues(c, e);
    }
  }

  lemma {:induction false} LimitKept(n: Net, es: seq<Event>, limits: Wire.Limits)
    ensures Wire.RunAll(n, es, limits).client.maxPayload == n.client.maxPayload
    decreases |es|
  {
    if es != [] {
      var n' := Wire.Apply(n, es[0], limits);
      WireNext(n, es[0], limits);
      if n'.client != n.client {
        var e :| n'.client == C.Apply(n.client, e);
        LimitFixed(n.client, e);
      }
      LimitKept(n', es[1..], limits);
    }
  }

  lemma FlushedFits(c: C.System, limit: nat)
    requires CI.Conserved(c) && !c.pc.Idle? && AllCarried(c.log.accepted)
    requires forall k :: 0 <= k < |c.log.accepted| ==> Size([c.log.accepted[k]]) <= limit
    ensures AllCarried(c.pc.packets)
    ensures forall k :: 0 <= k < |c.pc.packets| ==> Size([c.pc.packets[k]]) <= limit
  {
    var n := |c.log.trimmed|;
    forall k | 0 <= k < |c.pc.packets|
      ensures Carried(c.pc.packets[k]) && Size([c.pc.packets[k]]) <= limit
    {
      assert c.log.accepted[n + k] == (c.log.trimmed + c.pc.packets)[n + k] == c.pc.packets[k];
    }
  }

  lemma ChunkFits(c: C.System, limit: nat)
    requires CI.Conserved(c) && c.pc.Posting? && c.maxPayload == limit && AllCarried(c.log.accepted)
    requires forall k :: 0 <= k < |c.log.accepted| ==> Size([c.log.accepted[k]]) <= limit
    ensures var chunk := CI.Chunked(c)[c.pc.k];
            Serve(EncodePayload(chunk), false, false, limit) == Served(Ok200, chunk, false)
  {
    FlushedFits(c, limit);
    if c.pc.packets == [] {
      EmptyServed(limit);
    } else {
      assert |EncodePacket(c.pc.packets[0])| > 0 && Size([c.pc.packets[0]]) <= limit;
      ChunksAreServed(c.pc.packets, limit, c.pc.k);
    }
  }

  lemma PostFits(n: Net, limits: Wire.Limits)
    requires CI.Conserved(n.client) && PostLink(n) && n.post.Unread? && n.client.maxPayload == limits.post
    requires AllCarried(n.client.log.accepted)
    requires forall k :: 0 <= k < |n.client.log.accepted| ==> Size([n.client.log.accepted[k]]) <= limits.post
    ensures Wire.Apply(n, PostRead, limits) == n.(post := Serving(Chunk(n)), payloads := n.payloads + [Chunk(n)])
  {
    ChunkFits(n.client, limits.post);
  }

  /** With every packet within the limit and free of separators, each POST is dispatched whole, as it was cut. */
  lemma PostsAreServed(buffered: seq<Packet>, limits: Wire.Limits, es: seq<Event>)
    requires var n := Reach(buffered, limits, es);
             && Clean(n) && n.post.Unread? && AllCarried(n.client.log.accepted)
             && forall k :: 0 <= k < |n.client.log.accepted| ==> Size([n.client.log.accepted[k]]) <= limits.post
    ensures var n := Reach(buffered, limits, es);
            Wire.Apply(n, PostRead, limits) == n.(post := Serving(Chunk(n)), payloads := n.payloads + [Chunk(n)])
  {
    var plain := Reachable(buffered, limits, es);
    NetworkTheorems.Reachable(buffered, limits.post, plain);
    LimitKept(Init(buffered, limits.post), es, limits);
    PostFits(Reach(buffered, limits, es), limits);
  }

  // ---- Text with a separator ----

  /** Limits that no packet of the concrete runs comes near. */
  const Ample := Wire.Limits(100, 100, 100)

  /** "a", the separator, "4b": one message whose payload reads as two. */
  const Torn := Packet(MESSAGE, [97, 0x1e, 52, 98], false)

  lemma TornPayload()
    ensures DecodePayload(EncodePayload([Torn])) == Packets([Packet(MESSAGE, [97], false), Packet(MESSAGE, [98], false)])
  {
    var first: seq<byte> := [52, 97];
    var second: seq<byte> := [52, 98];
    assert EncodePayload([Torn]) == first + [SEPARATOR] + second;
    SplitPrefix(first, second);
    SplitPrefix(second, []);
    DecodeCons(Packet(MESSAGE, [98], false), [], []);
    DecodeCons(Packet(MESSAGE, [97], false), [second], [Packet(MESSAGE, [98], false)]);
    assert EncodePacket(Packet(MESSAGE, [97], false)) == first && EncodePacket(Packet(MESSAGE, [98], false)) == second;
  }

  lemma TornIsServed()
    ensures Serve(EncodePayload([Torn]), false, false, 100)
            == Served(Ok200, [Packet(MESSAGE, [97], false), Packet(MESSAGE, [98], false)], false)
  {
    TornPayload();
    var stream := EncodePayload([Torn]);
    assert |stream| == 5 && stream[..Min(|stream|, 101)] == stream;
  }

  /** The client has begun to post its one message. */
  lemma TornPosted() returns (n: Net)
    ensures n == Reach([Torn], Ample, [ClientStep(C.FlushBegins), ClientStep(C.ChunkStarts(true))])
    ensures n.post == Unread && Chunk(n) == [Torn] && n.received == [] && n.client.log.accepted == [Torn]
  {
    var n0 := Init([Torn], 100);
    var n1 := Wire.Apply(n0, ClientStep(C.FlushBegins), Ample);
    n := Wire.Apply(n1, ClientStep(C.ChunkStarts(true)), Ample);
    var es := [ClientStep(C.FlushBegins), ClientStep(C.ChunkStarts(true))];
    assert es[1..] == [ClientStep(C.ChunkStarts(true))] && es[1..][1..] == [];
    assert Wire.RunAll(n0, es, Ample) == Wire.RunAll(n1, es[1..], Ample) == Wire.RunAll(n, [], Ample);
  }

  const FirstHalf := Packet(MESSAGE, [97], false)
  const SecondHalf := Packet(MESSAGE, [98], false)

  lemma DispatchesOne(n: Net, m: Packet, rest: seq<Packet>)
    requires n.post == Serving([m] + rest) && IsMessage(m)
    ensures var n' := Wire.Apply(n, PostDispatch, Ample);
            n'.post == Serving(rest) && n'.received == n.received + [m] && n'.client == n.client
  {
    assert ([m] + rest)[1..] == rest;
  }

  lemma RunTwo(n: Net, a: Event, b: Event)
    ensures Wire.RunAll(n, [a, b], Ample) == Wire.Apply(Wire.Apply(n, a, Ample), b, Ample)
  {
    assert [a, b][1..] == [b] && [b][1..] == [];
    var n' := Wire.Apply(n, a, Ample);
    assert Wire.RunAll(n', [b], Ample) == Wire.RunAll(Wire.Apply(n', b, Ample), [], Ample);
  }

  lemma Dispatches(n: Net)
    requires n.post == Serving([FirstHalf, SecondHalf])
    ensures var n' := Wire.RunAll(n, [PostDispatch, PostDispatch], Ample);
            n'.received == n.received + [FirstHalf] + [SecondHalf] && n'.client == n.client
  {
    assert [FirstHalf, SecondHalf] == [FirstHalf] + [SecondHalf] && [SecondHalf] == [SecondHalf] + [];
    RunTwo(n, PostDispatch, PostDispatch);
    DispatchesOne(n, FirstHalf, [SecondHalf]);
    DispatchesOne(Wire.Apply(n, PostDispatch, Ample), SecondHalf, []);
  }

  /** The server dispatches what it read. */
  lemma TornDispatched(n: Net)
    requires n.post == Unread && Chunk(n) == [Torn] && n.received == []
    ensures var n' := Wire.RunAll(n, [PostRead, PostDispatch, PostDispatch], Ample);
            n'.received == [FirstHalf, SecondHalf] && n'.client == n.client
  {
    TornIsServed();
    var es := [PostRead, PostDispatch, PostDispatch];
    var n1 := n.(post := Serving([FirstHalf, SecondHalf]), payloads := n.payloads + [[Torn]]);
    assert Wire.Apply(n, PostRead, Ample) == n1;
    assert es[1..] == [PostDispatch, PostDispatch];
    Dispatches(n1);
  }

  /** A text with a separator arrives as two messages that were never sent. */
  lemma SeparatorTearsAMessage() returns (n: Net, later: seq<Event>)
    ensures n == Reach([Torn], Ample, [ClientStep(C.FlushBegins), ClientStep(C.ChunkStarts(true))])
    ensures var n' := Wire.RunAll(n, later, Ample);
            && n'.client.log.accepted == [Torn]
            && n'.received == [FirstHalf, SecondHalf]
  {
    n := TornPosted();
    later := [PostRead, PostDispatch, PostDispatch];
    TornDispatched(n);
  }
}

/** Concrete runs over the wire, step by step. */
module WireRuns {
  import opened Network
  import opened WireTheorems
  import Wire

  ghost predicate Reached(n: Net) {
    exists es :: n == Reach([], Ample, es)
  }

  lemma {:induction false} RunAppend(n: Net, es: seq<Event>, e: Event)
    ensures Wire.RunAll(n, es + [e], Ample) == Wire.Apply(Wire.RunAll(n, es, Ample), e, Ample)
    decreases |es|
  {
    if es == [] {
      assert Wire.RunAll(n, [e], Ample) == Wire.RunAll(Wire.Apply(n, e, Ample), [e][1..], Ample);
    } else {
      assert (es + [e])[1..] == es[1..] + [e];
      RunAppend(Wire.Apply(n, es[0], Ample), es[1..], e);
    }
  }

  lemma Step(n: Net, e: Event) returns (n': Net)
    requires Reached(n)
    ensures Reached(n') && n' == Wire.Apply(n, e, Ample)
  {
    var es :| n == Reach([], Ample, es);
    RunAppend(Init([], 100), es, e);
    n' := Wire.Apply(n, e, Ample);
    assert n' == Reach([], Ample, es + [e]);
  }

  lemma Start() returns (n: Net)
    ensures Reached(n) && n == Init([], 100)
  {
    n := Init([], 100);
    assert n == Reach([], Ample, []);
  }
}
