/** Deliveries that are repeated because their acknowledgement was lost. */
module Echoes {
  import opened Packets

  /** `packets` were delivered when `at` packets had been delivered for good, and again later. */
  datatype Echo = Echo(at: nat, packets: seq<Packet>)

  /** Every echo lies within the first n packets, and they are in order. */
  ghost predicate Within(echoes: seq<Echo>, n: nat) {
    && (forall k :: 0 <= k < |echoes| ==> echoes[k].at <= n)
    && (forall j, k :: 0 <= j < k < |echoes| ==> echoes[j].at <= echoes[k].at)
  }

  /** The stream with every echo in its place. */
  function Weave(base: seq<Packet>, echoes: seq<Echo>): seq<Packet>
    decreases |echoes|
  {
    if echoes == [] then base
    else
      var e, earlier := echoes[|echoes| - 1], echoes[..|echoes| - 1];
      if e.at > |base| then Weave(base, earlier)
      else Weave(base[..e.at], earlier) + e.packets + base[e.at..]
  }

  lemma WeaveAppend(base: seq<Packet>, more: seq<Packet>, echoes: seq<Echo>)
    requires Within(echoes, |base|)
    ensures Weave(base + more, echoes) == Weave(base, echoes) + more
  {
    if echoes != [] {
      var e, earlier := echoes[|echoes| - 1], echoes[..|echoes| - 1];
      assert (base + more)[..e.at] == base[..e.at] && (base + more)[e.at..] == base[e.at..] + more;
    }
  }

  /** Packets at the end of the stream may as well be an echo there. */
  lemma BecomesEcho(base: seq<Packet>, packets: seq<Packet>, echoes: seq<Echo>)
    requires Within(echoes, |base|)
    ensures Weave(base + packets, echoes) == Weave(base, echoes + [Echo(|base|, packets)])
    ensures Within(echoes + [Echo(|base|, packets)], |base|)
  {
    WeaveAppend(base, packets, echoes);
    WeaveEcho(base, packets, echoes);
  }

  lemma WeaveEcho(base: seq<Packet>, packets: seq<Packet>, echoes: seq<Echo>)
    ensures Weave(base, echoes + [Echo(|base|, packets)]) == Weave(base, echoes) + packets
  {
    var all := echoes + [Echo(|base|, packets)];
    assert all[..|all| - 1] == echoes && base[..|base|] == base && base[|base|..] == [];
  }
}

/**
 * Client and server together over their links: a POST may be lost, its acknowledgement may be
 * lost, and the client may give it up while it is on its way or being served; a held poll is
 * answered at most once and its answer arrives; frames arrive in order.
 */
module Network {
  import opened Basics
  import opened Packets
  import opened Echoes
  import SF = ServerFields
  import S = ServerSystem
  import C = ClientSystem
  import ClientProofs
  import ServerFacts

  /** Where the client's poll request is. */
  datatype PollPhase = NoPoll | OnTheWay | AtServer

  /** Where the client's POST is: not yet read, or being dispatched with `rest` left. */
  datatype PostPhase = NoPost | Unread | Serving(rest: seq<Packet>)

  /** A POST the client gave up, still being served: `rest` is left of it, from place `at` of the packets accepted on. */
  datatype Stray = Stray(at: int, rest: seq<Packet>)

  datatype Net = Net(
    server: S.System,
    client: C.System,
    poll: PollPhase,
    pollsSeen: nat,          // poll answers the client has read
    framesSeen: nat,         // frames the client has read
    post: PostPhase,
    upSeen: nat,             // frames of the upgraded link the server has read
    reader: Option<nat>,     // goroutine of that link's read loop, once it handled the upgrade packet
    dead: bool,              // the upgrade packet came too late
    received: seq<Packet>,   // messages dispatched at the server
    places: seq<int>,        // for every packet its session was given, its place among those the client accepted
    echoes: seq<Echo>,       // POSTs served whose acknowledgement was lost
    strays: seq<Stray>,      // POSTs given up before they were served whole
    payloads: seq<seq<Packet>>) // POSTs and poll answers that were read

  datatype Event =
    | ServerStep(se: S.Event)
    | ClientStep(ce: C.Event)
    | PollHeld(i: nat)
    | PollRefused
    | PollAnswered
    | FrameDown
    | PostRead
    | PostDispatch
    | PostAcked
    | PostLost
    | PostUnacked
    | PostGivenUp
    | StrayDispatch(k: nat)
    | FrameUp(i: nat)

  const Poller := SF.Polling(0)

  function Init(buffered: seq<Packet>, maxPayload: int): Net {
    Net(S.Init(Poller), C.Init(buffered, maxPayload), NoPoll, 0, 0, NoPost, 0, None, false, [], [], [], [], [])
  }

  /** Steps the client takes by itself; the others are driven by the links. */
  predicate ClientInternal(e: C.Event) {
    !e.PostEnds? && !e.PollReturns? && !e.PollFails? && !e.FrameArrives?
  }

  function StepClient(n: Net, e: C.Event): Net {
    var c := C.Apply(n.client, e);
    n.(client := c,
       post := if c.pc.Posting? && !n.client.pc.Posting? then Unread else n.post,
       poll := if c.poll.Requesting? && !n.client.poll.Requesting? then OnTheWay else n.poll)
  }

  /** ServerSocket.handlePacket, as far as messages and the heartbeat go. */
  function Handle(n: Net, p: Packet): Net {
    if IsMessage(p) then n.(received := n.received + [p])
    else if p.ptype == PONG then n.(server := S.Apply(n.server, S.PongArrives))
    else n
  }

  /** The chunk the client is posting. */
  function Chunk(n: Net): seq<Packet> {
    if n.client.pc.Posting? && n.client.pc.k < |ClientProofs.Chunked(n.client)|
    then ClientProofs.Chunked(n.client)[n.client.pc.k] else []
  }

  function Upgraded(n: Net): SF.Transport {
    SF.Promotable(n.client.log.link)
  }

  predicate ReaderIdle(n: Net) {
    n.reader.None? || (n.reader.value in n.server.threads && n.server.threads[n.reader.value] == S.Doing(S.Return))
  }

  /** A frame for the client is there to be read. */
  predicate CanReadFrame(n: Net) {
    && n.framesSeen < |n.server.w.frames| && n.client.up.Adopted?
    && n.server.w.frames[n.framesSeen].via == SF.Promotable(n.client.up.id)
  }

  /** The server's read loop can take the next frame of the upgraded link. */
  predicate CanTakeFrame(n: Net, i: nat) {
    && n.upSeen < |n.client.log.up| && Upgraded(n) in n.server.u.owned && Upgraded(n) !in n.server.closed
    && ReaderIdle(n) && i !in n.server.threads
  }

  /** Where the next packet of the POST being served, and of the upgraded link, stands among those accepted. */
  function PostPlace(n: Net): int {
    |n.client.log.posted| + |Chunk(n)| - |if n.post.Serving? then n.post.rest else Chunk(n)|
  }

  function FramePlace(n: Net): int {
    |n.client.log.posted| + |n.client.log.lost| + n.upSeen - 1
  }

  /** It takes the frame, which carries p. */
  function TakeFrame(n: Net, i: nat, p: Packet): Net {
    var t, n1 := Upgraded(n), n.(upSeen := n.upSeen + 1);
    if t !in n.server.probing then Handle(n1.(places := n.places + [FramePlace(n)]), p)
    else if p.ptype != UPGRADE then n1
    else if SF.Probing(n.server.f, t)
    then n1.(server := S.Apply(n.server, S.UpgradeArrives(i, t)), reader := Some(i))
    else n1.(dead := true)
  }

  function DoFrameUp(n: Net, i: nat): Net {
    if CanTakeFrame(n, i) then TakeFrame(n, i, n.client.log.up[n.upSeen]) else n
  }

  /** The client's context ends; the server goes on with the POST, of which `rest` is left. */
  function GiveUp(n: Net, rest: seq<Packet>): Net {
    n.(client := C.Apply(n.client, C.PostEnds(false)), post := NoPost,
       strays := n.strays + [Stray(PostPlace(n), rest)])
  }

  function DispatchStray(n: Net, k: nat): Net
    requires k < |n.strays| && n.strays[k].rest != []
  {
    var at, rest := n.strays[k].at, n.strays[k].rest;
    Handle(n.(strays := n.strays[k := Stray(at + 1, rest[1..])], places := n.places + [at]), rest[0])
  }

  function Apply(n: Net, e: Event): Net {
    match e
    case ServerStep(se) => if ServerFacts.Internal(se) then n.(server := S.Apply(n.server, se)) else n
    case ClientStep(ce) => if ClientInternal(ce) then StepClient(n, ce) else n
    case PollHeld(i) =>
      if n.poll != OnTheWay || i in n.server.threads || Poller in n.server.closed then n
      else n.(server := S.Apply(n.server, S.HoldPoll(i, Poller)), poll := AtServer)
    case PollRefused =>
      if n.poll != OnTheWay then n
      else n.(client := C.Apply(n.client, C.PollFails), poll := NoPoll)
    case PollAnswered =>
      if n.poll != AtServer || |n.server.w.polls| <= n.pollsSeen then n
      else n.(client := C.Apply(n.client, C.PollReturns(n.server.w.polls[n.pollsSeen])),
              poll := NoPoll, pollsSeen := n.pollsSeen + 1, payloads := n.payloads + [n.server.w.polls[n.pollsSeen]])
    case FrameDown =>
      if !CanReadFrame(n) then n
      else n.(client := C.Apply(n.client, C.FrameArrives(n.server.w.frames[n.framesSeen].packet)),
              framesSeen := n.framesSeen + 1)
    case PostRead => if n.post.Unread? then n.(post := Serving(Chunk(n)), payloads := n.payloads + [Chunk(n)]) else n
    case PostDispatch =>
      if !n.post.Serving? || n.post.rest == [] then n
      else Handle(n.(post := Serving(n.post.rest[1..]), places := n.places + [PostPlace(n)]), n.post.rest[0])
    case PostAcked =>
      if n.post != Serving([]) then n
      else n.(client := C.Apply(n.client, C.PostEnds(true)), post := NoPost)
    case PostLost =>
      if !n.post.Unread? then n
      else n.(client := C.Apply(n.client, C.PostEnds(false)), post := NoPost)
    case PostUnacked =>
      if n.post != Serving([]) then n
      else n.(client := C.Apply(n.client, C.PostEnds(false)), post := NoPost,
              echoes := n.echoes + [Echo(|n.client.log.posted|, Chunk(n))])
    case PostGivenUp =>
      if n.post.Unread? then GiveUp(n.(payloads := n.payloads + [Chunk(n)]), Chunk(n))
      else if n.post.Serving? && n.post.rest != [] then GiveUp(n, n.post.rest)
      else n
    case StrayDispatch(k) =>
      if k >= |n.strays| || n.strays[k].rest == [] then n else DispatchStray(n, k)
    case FrameUp(i) => DoFrameUp(n, i)
  }

  function RunAll(n: Net, es: seq<Event>): Net
    decreases |es|
  {
    if es == [] then n else RunAll(Apply(n, es[0]), es[1..])
  }
}

/** The invariants that tie the two ends and the links together. */
module NetworkProofs {
  import opened Basics
  import opened Packets
  import opened Echoes
  import opened Network
  import SF = ServerFields
  import S = ServerSystem
  import SW = ServerWrites
  import SL = ServerLinks
  import ST = ServerTheorems
  import SX = ServerFacts
  import C = ClientSystem
  import CF = ClientFields
  import CP = ClientPolling
  import CI = ClientProofs

  ghost predicate Ends(n: Net) {
    ST.Inv(n.server) && CI.Inv(n.client) && n.server.u.first == Poller
  }

  /** The poll request is in one place, and every answer given is read or on its way. */
  ghost predicate PollLink(n: Net) {
    && (n.client.poll.Requesting? <==> n.poll != NoPoll)
    && n.pollsSeen <= |n.server.w.polls|
    && (n.poll == AtServer ==> |n.server.w.polls| == n.pollsSeen + (if Poller in n.server.held then 0 else 1))
    && (n.poll != AtServer ==> |n.server.w.polls| == n.pollsSeen && Poller !in n.server.held)
  }

  // ---- Server to client ----

  /** Packets of a poll answer not yet dispatched. */
  function Rest(c: C.System): seq<Packet> {
    if c.poll.Dispatching? then c.poll.rest else []
  }

  function Seen(n: Net): seq<Packet>
    requires n.pollsSeen <= |n.server.w.polls| && n.framesSeen <= |n.server.w.frames|
  {
    Messages(Flat(n.server.w.polls[..n.pollsSeen])) + Messages(SW.FramePackets(n.server.w.frames[..n.framesSeen]))
  }

  ghost predicate Down(n: Net) {
    && n.pollsSeen <= |n.server.w.polls| && n.framesSeen <= |n.server.w.frames|
    && (n.client.f.state != CF.Closed ==> n.client.log.dispatched + Messages(Rest(n.client)) == Seen(n))
    && (n.framesSeen > 0 ==> n.client.up.Adopted?)
    && SW.CloseAtEnd(Rest(n.client))
    && (n.client.polling == CP.Closed && n.client.f.state == CF.Open ==> Rest(n.client) == [])
    && (n.client.up.Adopted? || (n.client.up.Adopting? && n.client.f.state == CF.Open) ==> Rest(n.client) == [])
    && n.client.log.dispatched <= Messages(n.server.w.handed)
  }

  // ---- Client to server ----

  /** The part of the POST in flight that the server has dispatched. */
  function Served(n: Net): seq<Packet> {
    if n.post.Serving? && |n.post.rest| <= |Chunk(n)| then Chunk(n)[..|Chunk(n)| - |n.post.rest|] else []
  }

  ghost predicate PostLink(n: Net) {
    && (n.client.pc.Posting? <==> n.post != NoPost)
    && (n.post.Serving? ==> Chunk(n) == Served(n) + n.post.rest)
  }

  /** The frames of the upgraded link that reached the session. */
  function Read(n: Net): seq<Packet> {
    if n.upSeen == 0 || n.dead || n.upSeen > |n.client.log.up| then [] else n.client.log.up[1..n.upSeen]
  }

  /** What reached the server over polling for good: acknowledged POSTs, and the part served of the one in flight. */
  function Posted(n: Net): seq<Packet> {
    n.client.log.posted + Served(n)
  }

  /** Unless a POST was given up early, the messages dispatched at the server are those that reached it for good, and the echoes. */
  ghost predicate Received(n: Net) {
    n.strays == [] ==>
      && Within(n.echoes, |n.client.log.posted|)
      && n.received == Messages(Weave(Posted(n) + Read(n), n.echoes))
  }

  ghost predicate Up(n: Net) {
    var l, t := n.client.log, Upgraded(n);
    && PostLink(n)
    && Received(n)
    && n.upSeen <= |l.up|
    && (n.upSeen == 0 ==> !n.dead && n.reader == None && n.server.u.swaps == 0)
    && (n.upSeen > 0 ==> n.post == NoPost && t in n.server.u.resolved)
    && (n.upSeen > 0 && !n.dead ==>
          && n.server.u.resolved[t] == S.Completed && n.server.u.swaps > 0
          && n.reader == Some(n.server.u.completer)
          && (t in n.server.probing ==> n.upSeen == 1))
    && (n.upSeen > 0 && n.dead ==> n.reader == None && n.server.u.swaps == 0)
  }

  /**
   * Packets are lost to a closed polling transport only when the server has begun to close,
   * and never once it has completed the upgrade while open.
   */
  ghost predicate Gap(n: Net) {
    && (n.client.log.lost != [] ==> !SF.CanSend(n.server.f))
    && (n.server.u.swaps > 0 && n.server.u.swappedIn == SF.Open ==> n.client.log.lost == [])
    && (SF.CanSend(n.server.f) && n.server.u.swaps == 0 ==>
          SL.NoClose(Rest(n.client)) && !(n.client.polling == CP.Closed && n.client.f.state == CF.Open))
  }

  ghost predicate Links(n: Net) {
    PollLink(n) && Down(n) && Up(n) && Gap(n)
  }

  /** Every echo repeats a stretch of what the client accepted, from where the stream then stood. */
  ghost predicate Echoed(n: Net) {
    forall k :: 0 <= k < |n.echoes| ==> EchoOf(n.echoes[k], n.client.log.accepted)
  }

  ghost predicate EchoOf(e: Echo, accepted: seq<Packet>) {
    e.at + |e.packets| <= |accepted| && accepted[e.at..e.at + |e.packets|] == e.packets
  }

  ghost predicate Inv(n: Net) {
    Ends(n) && Links(n) && Echoed(n)
  }

  // ---- What the two ends contribute ----

  ghost predicate ClientFacts(c: C.System) {
    CI.Handshake(c) && CI.Stream(c) && CI.Quiet(c) && (c.pc.Posting? ==> c.pc.k < |CI.Chunked(c)|)
  }

  /** Where a probe stands: while unresolved or refused it only probes; once completed it dispatches after promotion. */
  ghost predicate ProbeFacts(s: S.System, t: SF.Transport) {
    && (t in s.u.resolved ==> t in s.u.used)
    && (t in s.u.owned && s.u.swaps == 0 ==> t in s.probing)
    && (t in s.u.owned && s.u.swaps == 0 && !SF.Probing(s.f, t) ==> t in s.u.resolved)
    && (t in s.u.resolved ==> !SF.Probing(s.f, t))
    && (t in s.u.resolved && s.u.resolved[t] == S.Completed ==>
          && s.u.completer in s.threads
          && (t in s.probing ==> s.threads[s.u.completer].promote.Some?))
    && s.u.first == Poller && Poller in s.u.used
  }

  /** s' is the server after a step of its own, seen from the network. */
  ghost predicate Moved(n: Net, s': S.System) {
    && SX.Grows(n.server, s') && SL.AtMostOneAnswer(n.server, s')
    && (SF.CanSend(s'.f) ==> SF.CanSend(n.server.f))
    && ST.SameOutcome(n.server, s', Upgraded(n))
  }

  lemma ServerMoves(n: Net, e: S.Event)
    requires ST.Inv(n.server) && SX.Internal(e)
    ensures Moved(n, S.Apply(n.server, e))
  {
    SX.InternalGrows(n.server, e);
    SL.StepKeepsPolls(n.server, e);
    ST.OutcomeStep(n.server, e, Upgraded(n));
    if !SF.CanSend(n.server.f) {
      ST.ClosingStep(n.server, e);
    }
  }

  /** What the server puts into its poll answers. */
  ghost predicate AnswerFacts(s: S.System) {
    && SW.Split(s.w)
    && (forall k :: 0 <= k < |s.w.polls| ==> s.w.polls[k] != [] && SW.CloseAtEnd(s.w.polls[k]))
    && (SF.CanSend(s.f) && s.u.swaps == 0 ==> forall k :: 0 <= k < |s.w.polls| ==> SL.NoClose(s.w.polls[k]))
  }

  ghost predicate Facts(n: Net) {
    && ClientFacts(n.client) && ProbeFacts(n.server, Upgraded(n)) && AnswerFacts(n.server)
    && Moved(n, S.Apply(n.server, S.PongArrives))
  }

  lemma EndsGive(n: Net)
    requires Ends(n)
    ensures Facts(n)
  {
    ServerMoves(n, S.PongArrives);
  }

  // ---- Server steps ----

  lemma PrefixTake<T>(a: seq<T>, b: seq<T>, k: nat)
    requires a <= b && k <= |a|
    ensures a[..k] == b[..k]
  {}

  lemma ServerDown(n: Net, s': S.System)
    requires Down(n) && SX.Grows(n.server, s')
    ensures Down(n.(server := s'))
  {
    PrefixTake(n.server.w.polls, s'.w.polls, n.pollsSeen);
    PrefixTake(n.server.w.frames, s'.w.frames, n.framesSeen);
    MessagesPrefix(n.server.w.handed, s'.w.handed);
  }

  lemma ServerUp(n: Net, s': S.System)
    requires Up(n) && ProbeFacts(n.server, Upgraded(n))
    requires SX.Grows(n.server, s') && ST.SameOutcome(n.server, s', Upgraded(n))
    ensures Up(n.(server := s'))
  {
    var n' := n.(server := s');
    assert Served(n') == Served(n) && Chunk(n') == Chunk(n) && Read(n') == Read(n);
  }

  lemma ServerLinks(n: Net, s': S.System)
    requires Links(n) && ProbeFacts(n.server, Upgraded(n)) && Moved(n, s')
    ensures Links(n.(server := s'))
  {
    ServerDown(n, s');
    ServerUp(n, s');
  }

  /** s' is s with its first transport's poll held. */
  ghost predicate HeldNow(s: S.System, s': S.System) {
    && s'.held == s.held + {Poller} && s'.w == s.w.(waker := s'.w.waker) && s'.f == s.f && s'.u == s.u
    && s'.probing == s.probing
    && (s.u.completer in s.threads ==> s.u.completer in s'.threads && s'.threads[s.u.completer] == s.threads[s.u.completer])
  }

  lemma HoldHolds(s: S.System, i: nat)
    requires i !in s.threads && Poller !in s.closed && Poller !in s.held && Poller in s.u.used
    ensures HeldNow(s, S.Apply(s, S.HoldPoll(i, Poller)))
  {}

  lemma HeldDown(n: Net, n': Net)
    requires Down(n) && Gap(n) && HeldNow(n.server, n'.server) && n' == n.(server := n'.server, poll := n'.poll)
    ensures Down(n') && Gap(n')
  {
    assert Seen(n') == Seen(n);
  }

  lemma HeldUp(n: Net, n': Net)
    requires Up(n) && HeldNow(n.server, n'.server) && n' == n.(server := n'.server, poll := n'.poll)
    ensures Up(n')
  {
    assert Chunk(n') == Chunk(n) && Served(n') == Served(n) && Posted(n') == Posted(n) && Read(n') == Read(n);
  }

  lemma HeldLinks(n: Net, i: nat)
    requires Links(n) && ProbeFacts(n.server, Upgraded(n)) && n.poll == OnTheWay && i !in n.server.threads && Poller !in n.server.closed
    ensures Links(Apply(n, PollHeld(i)))
  {
    HoldHolds(n.server, i);
    HeldDown(n, Apply(n, PollHeld(i)));
    HeldUp(n, Apply(n, PollHeld(i)));
  }

  // ---- What only concerns the way up ----

  /** n' differs from n at most in what the server has read from the client. */
  ghost predicate OnlyUp(n: Net, n': Net) {
    n' == n.(post := n'.post, upSeen := n'.upSeen, reader := n'.reader, dead := n'.dead, received := n'.received,
             places := n'.places, strays := n'.strays, payloads := n'.payloads)
  }

  /** m is n with p recorded if it is a message; the heartbeat may move the server as well. */
  lemma HandleLinks(n0: Net, n: Net, p: Packet, m: Net)
    requires Links(n0) && Facts(n0) && OnlyUp(n0, m) && Up(m)
    requires m == n.(received := if IsMessage(p) then n.received + [p] else n.received)
    ensures Links(Handle(n, p))
  {
    assert Links(m);
    if !IsMessage(p) && p.ptype == PONG {
      ServerLinks(m, S.Apply(m.server, S.PongArrives));
    }
  }

  lemma PostReadUp(n: Net, n': Net)
    requires Up(n) && n.post.Unread? && n' == n.(post := Serving(Chunk(n)), payloads := n'.payloads)
    ensures Up(n')
  {
    assert Chunk(n') == Chunk(n) && Served(n') == Served(n);
    assert Posted(n') == Posted(n) && Read(n') == Read(n);
  }

  lemma PostReadLinks(n: Net)
    requires Links(n) && n.post.Unread?
    ensures Links(Apply(n, PostRead))
  {
    PostReadUp(n, Apply(n, PostRead));
  }

  /** One more packet p has reached the session. */
  lemma ReceivedOne(n: Net, m: Net, p: Packet)
    requires Received(n) && Posted(m) + Read(m) == Posted(n) + Read(n) + [p]
    requires m.echoes == n.echoes && m.client == n.client && m.strays == n.strays
    requires m.received == if IsMessage(p) then n.received + [p] else n.received
    ensures Received(m)
  {
    if n.strays == [] {
      var base := Posted(n) + Read(n);
      WeaveAppend(base, [p], n.echoes);
      MessagesAppend(Weave(base, n.echoes), [p]);
      MessagesOne(p);
    }
  }

  lemma ServesOne(n: Net, m: Net)
    requires PostLink(n) && n.post.Serving? && n.post.rest != [] && n.upSeen == 0
    requires m == n.(post := Serving(n.post.rest[1..]), received := m.received, places := m.places)
    ensures PostLink(m) && Posted(m) + Read(m) == Posted(n) + Read(n) + [n.post.rest[0]]
  {
    var p := n.post.rest[0];
    assert Chunk(m) == Chunk(n);
    assert Served(m) == Served(n) + [p];
    assert Read(m) == [] && Read(n) == [];
  }

  lemma PostDispatchUp(n: Net, m: Net)
    requires Up(n) && n.post.Serving? && n.post.rest != []
    requires var p := n.post.rest[0];
             m == n.(post := Serving(n.post.rest[1..]), places := m.places,
                     received := if IsMessage(p) then n.received + [p] else n.received)
    ensures Up(m)
  {
    ServesOne(n, m);
    ReceivedOne(n, m, n.post.rest[0]);
  }

  lemma PostDispatchLinks(n: Net)
    requires Links(n) && Facts(n) && n.post.Serving? && n.post.rest != []
    ensures Links(Apply(n, PostDispatch))
  {
    var p := n.post.rest[0];
    var n1 := n.(post := Serving(n.post.rest[1..]), places := n.places + [PostPlace(n)]);
    var m := n1.(received := if IsMessage(p) then n.received + [p] else n.received);
    PostDispatchUp(n, m);
    HandleLinks(n, n1, p, m);
  }

  // ---- Frames of the upgraded link ----

  lemma ReadsOne(n: Net, m: Net)
    requires 0 < n.upSeen < |n.client.log.up| && !n.dead && n.post == NoPost
    requires m == n.(upSeen := n.upSeen + 1, received := m.received, places := m.places)
    ensures Posted(m) + Read(m) == Posted(n) + Read(n) + [n.client.log.up[n.upSeen]]
  {
    var l := n.client.log;
    assert Posted(m) == Posted(n);
    assert l.up[1..n.upSeen + 1] == l.up[1..n.upSeen] + [l.up[n.upSeen]];
  }

  lemma FrameReadUp(n: Net, m: Net)
    requires Up(n) && 0 < n.upSeen < |n.client.log.up| && !n.dead
    requires Upgraded(n) !in n.server.probing
    requires var p := n.client.log.up[n.upSeen];
             m == n.(upSeen := n.upSeen + 1, received := if IsMessage(p) then n.received + [p] else n.received,
                     places := m.places)
    ensures Up(m)
  {
    ReadsOne(n, m);
    ReceivedOne(n, m, n.client.log.up[n.upSeen]);
  }

  /** A frame after the upgrade packet: dispatched once promoted, ignored on a probe that lost. */
  lemma LaterFrameLinks(n: Net, i: nat)
    requires Links(n) && Facts(n) && n.upSeen > 0 && DoFrameUp(n, i) != n
    ensures Links(DoFrameUp(n, i))
  {
    var p := n.client.log.up[n.upSeen];
    if n.dead {
      var n1 := n.(upSeen := n.upSeen + 1);
      assert Posted(n1) == Posted(n) && Read(n1) == Read(n) && PostLink(n1) && Up(n1);
    } else {
      var n1 := n.(upSeen := n.upSeen + 1, places := n.places + [FramePlace(n)]);
      var m := n1.(received := if IsMessage(p) then n.received + [p] else n.received);
      FrameReadUp(n, m);
      HandleLinks(n, n1, p, m);
    }
  }

  lemma CompleteFacts(s: S.System, i: nat, t: SF.Transport)
    requires SF.Probing(s.f, t) && i !in s.threads
    ensures var s' := S.Apply(s, S.UpgradeArrives(i, t));
            && s'.w.handed == s.w.handed && s'.w.polls == s.w.polls && s'.w.frames == s.w.frames
            && s'.held == s.held && s'.f.state == s.f.state
            && s'.u.swaps == s.u.swaps + 1 && s'.u.completer == i && s'.u.swappedIn == s.f.state
            && s'.u.resolved == s.u.resolved[t := S.Completed]
  {}

  /** The upgrade packet itself: completes the switch, or comes too late. */
  lemma UpgradeFrameLinks(n: Net, i: nat)
    requires Links(n) && ClientFacts(n.client) && ProbeFacts(n.server, Upgraded(n)) && n.upSeen == 0 && DoFrameUp(n, i) != n
    ensures Links(DoFrameUp(n, i))
  {
    var m := DoFrameUp(n, i);
    assert n.post == NoPost && Posted(m) == Posted(n);
    assert n.client.log.up[1..1] == [] && Read(m) == [] && Read(n) == [];
    if SF.Probing(n.server.f, Upgraded(n)) {
      CompleteFacts(n.server, i, Upgraded(n));
    }
    assert PostLink(m) && Up(m);
  }

  // ---- Client steps ----

  /** c' has written nothing more than c, and has the same POST in flight. */
  ghost predicate SameUp(c: C.System, c': C.System) {
    && c'.log.posted == c.log.posted && c'.log.up == c.log.up && c'.log.link == c.log.link
    && c'.maxPayload == c.maxPayload && c'.pc.Posting? == c.pc.Posting? && (c.pc.Posting? ==> c'.pc == c.pc)
  }

  /** c' has dispatched nothing more than c and has the same packets left to dispatch. */
  ghost predicate SameDown(c: C.System, c': C.System) {
    && c'.log.dispatched == c.log.dispatched && Rest(c') == Rest(c) && c'.log.lost == c.log.lost
    && (c'.f.state != CF.Closed ==> c.f.state != CF.Closed) && (c'.f.state == CF.Open ==> c.f.state == CF.Open)
    && (c.up.Adopted? ==> c'.up.Adopted?)
    && (c'.polling == CP.Closed && c'.f.state == CF.Open ==> c.polling == CP.Closed)
    && (c'.up.Adopted? || (c'.up.Adopting? && c'.f.state == CF.Open) ==>
          || Rest(c) == [] || c.up.Adopted? || (c.up.Adopting? && c.f.state == CF.Open)
          || (c.polling == CP.Closed && c.f.state == CF.Open))
  }

  lemma SameUpKeeps(n: Net, n': Net)
    requires Up(n) && SameUp(n.client, n'.client) && n'.server == n.server && n'.post == n.post
    requires n'.upSeen == n.upSeen && n'.reader == n.reader && n'.dead == n.dead
    requires n'.received == n.received && n'.echoes == n.echoes && n'.strays == n.strays
    ensures Up(n')
  {
    assert Chunk(n') == Chunk(n) && Served(n') == Served(n);
    assert Posted(n') == Posted(n) && Read(n') == Read(n);
  }

  lemma SameDownKeeps(n: Net, n': Net)
    requires Down(n) && Gap(n) && SameDown(n.client, n'.client) && n'.server == n.server
    requires n'.pollsSeen == n.pollsSeen && n'.framesSeen == n.framesSeen
    ensures Down(n') && Gap(n')
  {}

  /** c' is c after a step that neither writes nor dispatches. */
  ghost predicate SameFlow(c: C.System, c': C.System) {
    SameUp(c, c') && SameDown(c, c') && (c.poll.Requesting? ==> c'.poll.Requesting?)
  }

  lemma SwitchIsSame(c: C.System, e: C.Event)
    requires ClientFacts(c) && CI.IsUpgradeStep(e) && !e.Commit?
    ensures SameFlow(c, C.Apply(c, e))
  {}

  lemma FlushIsSame(c: C.System, e: C.Event)
    requires ClientFacts(c) && (e.FlushBegins? || e.FlushEnds?)
    ensures SameFlow(c, C.Apply(c, e))
  {}

  lemma OtherIsSame(c: C.System, e: C.Event)
    requires ClientFacts(c) && ClientInternal(e) && !CI.IsUpgradeStep(e) && !e.DispatchOne? && !e.ChunkStarts?
    ensures SameFlow(c, C.Apply(c, e))
  {
    if e.FlushBegins? || e.FlushEnds? {
      FlushIsSame(c, e);
    }
  }

  lemma SameFlowLinks(n: Net, n': Net)
    requires Links(n) && SameFlow(n.client, n'.client)
    requires n' == n.(client := n'.client,
                      poll := if n'.client.poll.Requesting? && !n.client.poll.Requesting? then OnTheWay else n.poll)
    ensures Links(n')
  {
    SameUpKeeps(n, n');
    SameDownKeeps(n, n');
  }

  lemma OtherLinks(n: Net, e: C.Event)
    requires Links(n) && ClientFacts(n.client)
    requires ClientInternal(e) && !e.DispatchOne? && !e.ChunkStarts? && !e.Commit?
    ensures Links(StepClient(n, e))
  {
    if CI.IsUpgradeStep(e) {
      SwitchIsSame(n.client, e);
    } else {
      OtherIsSame(n.client, e);
    }
    SameFlowLinks(n, StepClient(n, e));
  }

  /** What has been read is a prefix of what was handed off: no frame is read before the last poll answer. */
  lemma SeenIsPrefix(n: Net)
    requires n.pollsSeen <= |n.server.w.polls| && n.framesSeen <= |n.server.w.frames| && SW.Split(n.server.w)
    requires n.framesSeen > 0 ==> n.pollsSeen == |n.server.w.polls|
    ensures Seen(n) <= Messages(n.server.w.handed)
  {
    var w := n.server.w;
    if n.framesSeen > 0 {
      assert w.polls[..n.pollsSeen] == w.polls;
      FramesTake(w.frames, n.framesSeen);
    } else {
      FlatTake(w.polls, n.pollsSeen);
      MessagesPrefix(Flat(w.polls[..n.pollsSeen]), Flat(w.polls));
      assert w.frames[..0] == [] && Seen(n) == Messages(Flat(w.polls[..n.pollsSeen])) + [];
    }
  }

  lemma FramesTake(frames: seq<S.Frame>, k: nat)
    requires k <= |frames|
    ensures Messages(SW.FramePackets(frames[..k])) <= Messages(SW.FramePackets(frames))
  {
    Halves(frames, k);
    FramesPrefix(frames[..k], frames[k..], frames);
  }

  lemma FramesPrefix(a: seq<S.Frame>, b: seq<S.Frame>, frames: seq<S.Frame>)
    requires a + b == frames
    ensures Messages(SW.FramePackets(a)) <= Messages(SW.FramePackets(frames))
  {
    FrameMessages(a, b);
  }

  lemma FrameMessages(a: seq<S.Frame>, b: seq<S.Frame>)
    ensures Messages(SW.FramePackets(a + b)) == Messages(SW.FramePackets(a)) + Messages(SW.FramePackets(b))
  {
    SW.FramePacketsAppend(a, b);
    MessagesAppend(SW.FramePackets(a), SW.FramePackets(b));
  }

  /** Receiving p changes nothing the links read, except that a message is dispatched. */
  lemma ReceiveFacts(c: C.System, p: Packet)
    ensures var c' := C.Receive(c, p);
            && SameUp(c, c') && c'.f.state == c.f.state && c'.up == c.up && c'.polling == c.polling
            && c'.poll == c.poll && c'.log.lost == c.log.lost
            && c'.log.dispatched == (if c.f.state != CF.Closed && IsMessage(p) then c.log.dispatched + [p]
                                     else c.log.dispatched)
  {}

  /** c' dispatched the next packet of its poll answer. */
  ghost predicate DispatchedOne(c: C.System, c': C.System)
    requires c.poll.Dispatching? && c.poll.rest != []
  {
    var p := c.poll.rest[0];
    && c'.poll == C.Dispatching(c.poll.rest[1..]) && c'.f.state == c.f.state && c'.up == c.up
    && c'.polling == (if p.ptype == CLOSE then CP.Closed else c.polling) && c'.log.lost == c.log.lost
    && c'.log.dispatched == (if c.f.state != CF.Closed && IsMessage(p) then c.log.dispatched + [p] else c.log.dispatched)
  }

  lemma DispatchFacts(c: C.System)
    requires c.poll.Dispatching? && c.poll.rest != []
    ensures DispatchedOne(c, C.Apply(c, C.DispatchOne)) && SameUp(c, C.Apply(c, C.DispatchOne))
  {
    var p := c.poll.rest[0];
    ReceiveFacts(c.(poll := C.Dispatching(c.poll.rest[1..]), polling := if p.ptype == CLOSE then CP.Closed else c.polling), p);
  }

  /** Dispatching a packet moves its message from what is left to what was delivered. */
  lemma DispatchMoves(c: C.System, c': C.System)
    requires c.poll.Dispatching? && c.poll.rest != [] && c.f.state != CF.Closed && DispatchedOne(c, c')
    ensures c'.log.dispatched + Messages(Rest(c')) == c.log.dispatched + Messages(Rest(c))
  {
    var p, rest := c.poll.rest[0], c.poll.rest;
    MessagesAppend([p], rest[1..]);
    MessagesOne(p);
    assert rest == [p] + rest[1..];
    Assoc(c.log.dispatched, Messages([p]), Messages(rest[1..]));
  }

  lemma DispatchShape(c: C.System, c': C.System)
    requires c.poll.Dispatching? && c.poll.rest != [] && DispatchedOne(c, c') && SW.CloseAtEnd(Rest(c))
    ensures SW.CloseAtEnd(Rest(c')) && (SL.NoClose(Rest(c)) ==> SL.NoClose(Rest(c')))
    ensures c.poll.rest[0].ptype == CLOSE ==> Rest(c') == []
  {}

  lemma DispatchDown(n: Net, n': Net)
    requires Down(n) && Gap(n) && n.client.poll.Dispatching? && n.client.poll.rest != []
    requires n'.server == n.server && n'.pollsSeen == n.pollsSeen && n'.framesSeen == n.framesSeen
    requires SW.Split(n.server.w) && (n.framesSeen > 0 ==> n.pollsSeen == |n.server.w.polls|)
    requires DispatchedOne(n.client, n'.client)
    ensures Down(n') && Gap(n')
  {
    DispatchShape(n.client, n'.client);
    if n.client.f.state != CF.Closed {
      DispatchMoves(n.client, n'.client);
    }
    SeenIsPrefix(n');
  }

  lemma DispatchLinks(n: Net)
    requires Links(n) && CI.Quiet(n.client) && SW.Split(n.server.w)
    requires n.client.poll.Dispatching? && n.client.poll.rest != []
    ensures Links(StepClient(n, C.DispatchOne))
  {
    var n' := StepClient(n, C.DispatchOne);
    DispatchFacts(n.client);
    DispatchDown(n, n');
    SameUpKeeps(n, n');
  }

  lemma OneMoreFrame(frames: seq<S.Frame>, k: nat)
    requires k < |frames|
    ensures Messages(SW.FramePackets(frames[..k + 1]))
         == Messages(SW.FramePackets(frames[..k])) + Messages([frames[k].packet])
  {
    assert frames[..k + 1] == frames[..k] + [frames[k]];
    SW.FramePacketsAppend(frames[..k], [frames[k]]);
    assert SW.FramePackets([frames[k]]) == [frames[k].packet];
    MessagesAppend(SW.FramePackets(frames[..k]), [frames[k].packet]);
  }

  lemma SeenGrows(n: Net, n': Net)
    requires n.pollsSeen <= |n.server.w.polls| && n.framesSeen < |n.server.w.frames|
    requires n'.server == n.server && n'.pollsSeen == n.pollsSeen && n'.framesSeen == n.framesSeen + 1
    ensures Seen(n') == Seen(n) + Messages([n.server.w.frames[n.framesSeen].packet])
  {
    var w, k := n.server.w, n.framesSeen;
    OneMoreFrame(w.frames, k);
    Assoc(Messages(Flat(w.polls[..n.pollsSeen])), Messages(SW.FramePackets(w.frames[..k])), Messages([w.frames[k].packet]));
  }

  /** c' has handled packet p from its link. */
  ghost predicate HandledFrame(c: C.System, c': C.System, p: Packet) {
    && c'.poll == c.poll && c'.f.state == c.f.state && c'.up == c.up && c'.polling == c.polling && c'.log.lost == c.log.lost
    && c'.log.dispatched == if c.f.state != CF.Closed then c.log.dispatched + Messages([p]) else c.log.dispatched
  }

  lemma FrameHandled(c: C.System, p: Packet)
    ensures HandledFrame(c, C.Receive(c, p), p)
  {
    MessagesOne(p);
  }

  lemma FrameDispatched(n: Net, n': Net, p: Packet)
    requires Down(n) && n.client.up.Adopted? && n.client.f.state != CF.Closed
    requires n.framesSeen < |n.server.w.frames| && p == n.server.w.frames[n.framesSeen].packet
    requires n'.server == n.server && n'.pollsSeen == n.pollsSeen && n'.framesSeen == n.framesSeen + 1
    requires HandledFrame(n.client, n'.client, p)
    ensures n'.client.log.dispatched + Messages(Rest(n'.client)) == Seen(n')
  {
    SeenGrows(n, n');
    assert Rest(n.client) == [] && Rest(n'.client) == [] && Messages([]) == [];
    assert n.client.log.dispatched + [] == n.client.log.dispatched;
    assert n'.client.log.dispatched + [] == n'.client.log.dispatched;
  }

  lemma FrameDownDown(n: Net, n': Net)
    requires Down(n) && Gap(n) && n.framesSeen < |n.server.w.frames| && n.client.up.Adopted?
    requires SW.Split(n.server.w) && n.pollsSeen == |n.server.w.polls|
    requires n' == n.(framesSeen := n.framesSeen + 1, client := n'.client)
    requires HandledFrame(n.client, n'.client, n.server.w.frames[n.framesSeen].packet)
    ensures Down(n') && Gap(n')
  {
    SeenIsPrefix(n');
    if n.client.f.state != CF.Closed {
      FrameDispatched(n, n', n.server.w.frames[n.framesSeen].packet);
      assert Messages(Rest(n'.client)) == [] && n'.client.log.dispatched + [] == n'.client.log.dispatched;
    }
  }

  lemma FrameDownLinks(n: Net, n': Net)
    requires Links(n) && CI.Quiet(n.client) && SW.Split(n.server.w)
    requires n.framesSeen < |n.server.w.frames| && n.client.up.Adopted?
    requires n' == n.(framesSeen := n.framesSeen + 1,
                      client := C.Receive(n.client, n.server.w.frames[n.framesSeen].packet))
    ensures Links(n')
  {
    ReceiveFacts(n.client, n.server.w.frames[n.framesSeen].packet);
    FrameHandled(n.client, n.server.w.frames[n.framesSeen].packet);
    FrameDownDown(n, n');
    SameUpKeeps(n, n');
  }

  lemma AnsweredDown(n: Net, n': Net)
    requires Down(n) && Gap(n) && n.client.poll.Requesting? && n.pollsSeen < |n.server.w.polls| && n.framesSeen == 0
    requires AnswerFacts(n.server) && CI.Quiet(n.client)
    requires n' == n.(client := n.client.(poll := C.Dispatching(n.server.w.polls[n.pollsSeen])),
                      poll := NoPoll, pollsSeen := n.pollsSeen + 1, payloads := n.payloads + [n.server.w.polls[n.pollsSeen]])
    ensures Down(n') && Gap(n')
  {
    SeenAnswer(n, n');
    assert Messages(Rest(n.client)) == [];
  }

  lemma SeenAnswer(n: Net, n': Net)
    requires n.pollsSeen < |n.server.w.polls| && n.framesSeen == 0
    requires n'.server == n.server && n'.pollsSeen == n.pollsSeen + 1 && n'.framesSeen == 0
    ensures Seen(n') == Seen(n) + Messages(n.server.w.polls[n.pollsSeen])
  {
    var k, polls := n.pollsSeen, n.server.w.polls;
    FlatTake(polls, k);
    MessagesAppend(Flat(polls[..k]), polls[k]);
    assert n.server.w.frames[..0] == [] && SW.FramePackets(n.server.w.frames[..0]) == [];
  }

  lemma AnsweredLinks(n: Net, n': Net)
    requires Links(n) && CI.Quiet(n.client) && AnswerFacts(n.server)
    requires n.poll == AtServer && n.pollsSeen < |n.server.w.polls|
    requires n' == n.(client := n.client.(poll := C.Dispatching(n.server.w.polls[n.pollsSeen])),
                      poll := NoPoll, pollsSeen := n.pollsSeen + 1, payloads := n.payloads + [n.server.w.polls[n.pollsSeen]])
    ensures Links(n')
  {
    AnsweredDown(n, n');
    SameUpKeeps(n, n');
  }

  lemma AnswerStepLinks(n: Net)
    requires Links(n) && CI.Quiet(n.client) && AnswerFacts(n.server)
    ensures Links(Apply(n, PollAnswered))
  {
    if n.poll == AtServer && n.pollsSeen < |n.server.w.polls| {
      AnswerIs(n);
      AnsweredLinks(n, Apply(n, PollAnswered));
    }
  }

  lemma AnswerIs(n: Net)
    requires n.poll == AtServer && n.client.poll.Requesting?
    requires n.pollsSeen < |n.server.w.polls| && n.server.w.polls[n.pollsSeen] != []
    ensures Apply(n, PollAnswered) == n.(client := n.client.(poll := C.Dispatching(n.server.w.polls[n.pollsSeen])),
                                         poll := NoPoll, pollsSeen := n.pollsSeen + 1, payloads := n.payloads + [n.server.w.polls[n.pollsSeen]])
  {}

  lemma RefusedLinks(n: Net)
    requires Links(n) && n.poll == OnTheWay
    ensures Links(Apply(n, PollRefused))
  {
    var n' := Apply(n, PollRefused);
    SameDownKeeps(n, n');
    SameUpKeeps(n, n');
  }

  // ---- Writes of the client ----

  /** What a commit changes: at most the first frame of a link is written. */
  ghost predicate CommitShape(c: C.System, c': C.System) {
    && SameDown(c, c') && c'.poll == c.poll && c'.pc == c.pc && c'.maxPayload == c.maxPayload
    && c'.log.posted == c.log.posted
    && (SameUp(c, c') || (c.log.up == [] && |c'.log.up| == 1))
  }

  lemma CommitChanges(c: C.System, ok: bool)
    requires CI.Stream(c)
    ensures CommitShape(c, C.Apply(c, C.Commit(ok)))
  {}

  lemma CommitUp(n: Net, n': Net)
    requires Up(n) && CommitShape(n.client, n'.client) && n' == n.(client := n'.client)
    ensures Up(n')
  {
    if SameUp(n.client, n'.client) {
      SameUpKeeps(n, n');
    } else {
      assert Chunk(n') == Chunk(n) && Served(n') == Served(n) && Read(n') == Read(n);
    }
  }

  lemma CommitLinks(n: Net, ok: bool)
    requires Links(n) && ClientFacts(n.client)
    ensures Links(StepClient(n, C.Commit(ok)))
  {
    var n' := StepClient(n, C.Commit(ok));
    CommitChanges(n.client, ok);
    SameDownKeeps(n, n');
    CommitUp(n, n');
  }

  /** What the start of a chunk changes: it becomes a POST, or frames, or is swallowed. */
  ghost predicate ChunkStarted(c: C.System, c': C.System) {
    && c'.f == c.f && c'.up == c.up && c'.polling == c.polling && c'.poll == c.poll && c'.maxPayload == c.maxPayload
    && c'.log.dispatched == c.log.dispatched && c'.log.posted == c.log.posted && c'.log.link == c.log.link
    && c.log.up <= c'.log.up && (c'.log.up != c.log.up ==> !c'.pc.Posting?)
    && (c.pc.Posting? ==> c' == c)
    && (c'.pc.Posting? && !c.pc.Posting? ==> c.pc.Sending? && c.pc.via.Poll?)
    && (c'.log.lost != [] && c.log.lost == [] ==>
          c.f.state == CF.Open && c.pc.Sending? && c.pc.via.Poll? && c.polling != CP.Open && !c'.pc.Posting?)
  }

  lemma ChunkStarts(c: C.System, ok: bool)
    ensures ChunkStarted(c, C.Apply(c, C.ChunkStarts(ok)))
  {}

  lemma ChunkUp(n: Net, n': Net)
    requires Up(n) && CI.Stream(n.client) && ChunkStarted(n.client, n'.client) && n'.server == n.server
    requires n'.upSeen == n.upSeen && n'.reader == n.reader && n'.dead == n.dead
    requires n'.received == n.received && n'.echoes == n.echoes && n'.strays == n.strays
    requires n'.post == if n'.client.pc.Posting? && !n.client.pc.Posting? then Unread else n.post
    ensures Up(n')
  {
    var up, up' := n.client.log.up, n'.client.log.up;
    assert n.upSeen > 0 ==> up[1..n.upSeen] == up'[1..n.upSeen];
    assert Read(n') == Read(n);
    if n.client.pc.Posting? {
      assert n'.client == n.client;
      assert Chunk(n') == Chunk(n) && Served(n') == Served(n);
    } else {
      assert n.post == NoPost;
      assert Served(n) == [] && Served(n') == [];
    }
  }

  /** A chunk is lost by an open socket only after the server began to close. */
  lemma ChunkGap(n: Net, n': Net)
    requires Links(n) && ClientFacts(n.client) && ChunkStarted(n.client, n'.client) && n'.server == n.server
    ensures Gap(n')
  {}

  lemma ChunkLinks(n: Net, ok: bool)
    requires Links(n) && ClientFacts(n.client)
    ensures Links(StepClient(n, C.ChunkStarts(ok)))
  {
    var n' := StepClient(n, C.ChunkStarts(ok));
    ChunkStarts(n.client, ok);
    ChunkUp(n, n');
    ChunkGap(n, n');
  }

  /** The end of a POST changes only the flush and its history. */
  lemma PostEndsShape(c: C.System, ok: bool)
    ensures var c' := C.Apply(c, C.PostEnds(ok));
            && c'.f == c.f && c'.up == c.up && c'.polling == c.polling && c'.poll == c.poll
            && c'.log.dispatched == c.log.dispatched && c'.log.up == c.log.up && c'.log.link == c.log.link
            && c'.log.lost == c.log.lost && !c'.pc.Posting?
            && (!ok ==> c'.log.posted == c.log.posted)
            && (ok && c.pc.Posting? && c.pc.k < |CI.Chunked(c)| ==>
                  c'.log.posted == c.log.posted + CI.Chunked(c)[c.pc.k])
  {}

  lemma PostEndsUp(n: Net, n': Net, ok: bool)
    requires Up(n) && ClientFacts(n.client) && n.post == (if ok then Serving([]) else Unread)
    requires n' == n.(client := C.Apply(n.client, C.PostEnds(ok)), post := NoPost)
    ensures Up(n')
  {
    PostEndsShape(n.client, ok);
    assert n.client.log.up == [];
    if ok {
      assert Served(n) == Chunk(n);
    }
    assert Posted(n') == Posted(n) && Read(n') == Read(n);
  }

  lemma PostEndsLinks(n: Net, n': Net, ok: bool)
    requires Links(n) && ClientFacts(n.client) && n.post == (if ok then Serving([]) else Unread)
    requires n' == n.(client := C.Apply(n.client, C.PostEnds(ok)), post := NoPost)
    ensures Links(n')
  {
    PostEndsShape(n.client, ok);
    SameDownKeeps(n, n');
    PostEndsUp(n, n', ok);
  }

  /** The acknowledgement of a POST is lost: what it delivered becomes an echo. */
  lemma UnackedReceived(n: Net, n': Net)
    requires Received(n) && n.post == Serving([]) && PostLink(n) && n.client.log.up == []
    requires n'.client.log.posted == n.client.log.posted && n'.client.log.up == [] && n'.post == NoPost
    requires n'.echoes == n.echoes + [Echo(|n.client.log.posted|, Chunk(n))] && n'.received == n.received
    requires n'.strays == n.strays
    ensures Received(n')
  {
    if n.strays == [] {
      var posted := n.client.log.posted;
      assert Served(n) == Chunk(n) && Read(n) == [] && Posted(n) + Read(n) == posted + Chunk(n);
      assert Served(n') == [] && Read(n') == [] && Posted(n') + Read(n') == posted;
      BecomesEcho(posted, Chunk(n), n.echoes);
    }
  }

  lemma UnackedUp(n: Net, n': Net)
    requires Up(n) && CI.Stream(n.client) && n.post == Serving([])
    requires n'.client.log.posted == n.client.log.posted && n'.client.log.up == n.client.log.up
    requires n'.client.log.link == n.client.log.link && !n'.client.pc.Posting?
    requires n' == n.(client := n'.client, post := NoPost, echoes := n.echoes + [Echo(|n.client.log.posted|, Chunk(n))])
    ensures Up(n')
  {
    assert n.client.log.up == [];
    UnackedReceived(n, n');
  }

  lemma UnackedLinks(n: Net, n': Net)
    requires Links(n) && CI.Stream(n.client) && n.post == Serving([])
    requires n' == n.(client := C.Apply(n.client, C.PostEnds(false)), post := NoPost,
                      echoes := n.echoes + [Echo(|n.client.log.posted|, Chunk(n))])
    ensures Links(n')
  {
    PostEndsShape(n.client, false);
    SameDownKeeps(n, n');
    UnackedUp(n, n');
  }

  // ---- POSTs given up ----

  lemma GivenUpUp(n: Net, n': Net)
    requires Up(n) && CI.Stream(n.client) && n.post != NoPost && n'.strays != []
    requires n'.client.log.posted == n.client.log.posted && n'.client.log.up == n.client.log.up
    requires n'.client.log.link == n.client.log.link && !n'.client.pc.Posting?
    requires n' == n.(client := n'.client, post := NoPost, strays := n'.strays, payloads := n'.payloads)
    ensures Up(n')
  {
    assert n.client.log.up == [];
  }

  lemma GivenUpLinks(n: Net, n': Net)
    requires Links(n) && CI.Stream(n.client) && n.post != NoPost && n'.strays != []
    requires n' == n.(client := C.Apply(n.client, C.PostEnds(false)), post := NoPost, strays := n'.strays, payloads := n'.payloads)
    ensures Links(n')
  {
    PostEndsShape(n.client, false);
    SameDownKeeps(n, n');
    GivenUpUp(n, n');
  }

  lemma StrayLinks(n: Net, k: nat)
    requires Links(n) && Facts(n) && k < |n.strays| && n.strays[k].rest != []
    ensures Links(DispatchStray(n, k))
  {
    var n1, p := StrayGives(n, k);
    StrayHandled(n, n1, p);
  }

  lemma StrayGives(n: Net, k: nat) returns (n1: Net, p: Packet)
    requires k < |n.strays| && n.strays[k].rest != []
    ensures DispatchStray(n, k) == Handle(n1, p)
    ensures n1 == n.(strays := n1.strays, places := n1.places) && n1.strays != []
  {
    var at, rest := n.strays[k].at, n.strays[k].rest;
    n1, p := n.(strays := n.strays[k := Stray(at + 1, rest[1..])], places := n.places + [at]), rest[0];
  }

  lemma StrayHandled(n: Net, n1: Net, p: Packet)
    requires Links(n) && Facts(n) && n1 == n.(strays := n1.strays, places := n1.places) && n1.strays != []
    ensures Links(Handle(n1, p))
  {
    var m := n1.(received := if IsMessage(p) then n.received + [p] else n.received);
    StrayUp(n, m);
    HandleLinks(n, n1, p, m);
  }

  lemma StrayUp(n: Net, m: Net)
    requires Up(n) && m == n.(strays := m.strays, places := m.places, received := m.received) && m.strays != []
    ensures Up(m)
  {
    assert Chunk(m) == Chunk(n) && Served(m) == Served(n) && Upgraded(m) == Upgraded(n);
  }

  // ---- Every step ----

  /** s' is the server after at most one event. */
  ghost predicate ServerNext(s: S.System, s': S.System) {
    s' == s || exists e: S.Event :: s' == S.Apply(s, e)
  }

  ghost predicate ClientNext(c: C.System, c': C.System) {
    c' == c || exists e: C.Event :: c' == C.Apply(c, e)
  }

  lemma ServerSide(n: Net, e: Event)
    ensures ServerNext(n.server, Apply(n, e).server)
  {
    if e.FrameUp? {
      FrameUpSide(n, e.i);
    }
  }

  lemma FrameUpSide(n: Net, i: nat)
    ensures ServerNext(n.server, DoFrameUp(n, i).server)
  {}

  lemma ClientSide(n: Net, e: Event)
    ensures ClientNext(n.client, Apply(n, e).client)
  {}

  lemma ServerEnd(s: S.System, s': S.System)
    requires ST.Inv(s) && s.u.first == Poller && ServerNext(s, s')
    ensures ST.Inv(s') && s'.u.first == Poller
  {
    if s' != s {
      var e :| s' == S.Apply(s, e);
      ST.StepKeepsInv(s, e);
      ST.FirstStep(s, e);
    }
  }

  lemma ClientEnd(c: C.System, c': C.System)
    requires CI.Inv(c) && ClientNext(c, c')
    ensures CI.Inv(c')
  {
    if c' != c {
      var e :| c' == C.Apply(c, e);
      CI.StepKeepsInv(c, e);
    }
  }

  lemma StepKeepsEnds(n: Net, n': Net)
    requires Ends(n) && ServerNext(n.server, n'.server) && ClientNext(n.client, n'.client)
    ensures Ends(n')
  {
    ServerEnd(n.server, n'.server);
    ClientEnd(n.client, n'.client);
  }

  lemma DispatchOneLinks(n: Net)
    requires Links(n) && ClientFacts(n.client) && SW.Split(n.server.w)
    ensures Links(StepClient(n, C.DispatchOne))
  {
    if n.client.poll.Dispatching? && n.client.poll.rest != [] {
      DispatchLinks(n);
    } else {
      assert StepClient(n, C.DispatchOne) == n;
    }
  }

  lemma ClientStepLinks(n: Net, e: C.Event)
    requires Links(n) && ClientFacts(n.client) && SW.Split(n.server.w) && ClientInternal(e)
    ensures Links(StepClient(n, e))
  {
    if e.ChunkStarts? {
      ChunkLinks(n, e.ok);
    } else if e.Commit? {
      CommitLinks(n, e.ok);
    } else if e.DispatchOne? {
      DispatchOneLinks(n);
    } else {
      OtherLinks(n, e);
    }
  }

  lemma FrameUpLinks(n: Net, i: nat)
    requires Links(n) && Facts(n)
    ensures Links(DoFrameUp(n, i))
  {
    if DoFrameUp(n, i) != n {
      if n.upSeen == 0 {
        UpgradeFrameLinks(n, i);
      } else {
        LaterFrameLinks(n, i);
      }
    }
  }

  lemma FrameDownIs(n: Net)
    requires n.framesSeen < |n.server.w.frames| && Apply(n, FrameDown).framesSeen > n.framesSeen
    ensures n.client.up.Adopted?
    ensures Apply(n, FrameDown) == n.(framesSeen := n.framesSeen + 1,
                                      client := C.Receive(n.client, n.server.w.frames[n.framesSeen].packet))
  {}

  lemma FrameStepLinks(n: Net)
    requires Links(n) && CI.Quiet(n.client) && SW.Split(n.server.w)
    ensures Links(Apply(n, FrameDown))
  {
    var n' := Apply(n, FrameDown);
    if n.framesSeen < |n.server.w.frames| && n'.framesSeen > n.framesSeen {
      FrameDownIs(n);
      FrameDownLinks(n, n');
    } else {
      assert n' == n;
    }
  }

  lemma PollEventLinks(n: Net, e: Event)
    requires Links(n) && Facts(n) && (e.PollHeld? || e.PollRefused? || e.PollAnswered?)
    ensures Links(Apply(n, e))
  {
    if e.PollHeld? {
      if n.poll == OnTheWay && e.i !in n.server.threads && Poller !in n.server.closed {
        HeldLinks(n, e.i);
      }
    } else if e.PollRefused? {
      if n.poll == OnTheWay {
        RefusedLinks(n);
      }
    } else {
      AnswerStepLinks(n);
    }
  }

  predicate IsPostEvent(e: Event) {
    e.PostRead? || e.PostDispatch? || e.PostAcked? || e.PostLost? || e.PostUnacked? || e.PostGivenUp? || e.StrayDispatch?
  }

  lemma PostEventLinks(n: Net, e: Event)
    requires Links(n) && Facts(n) && IsPostEvent(e)
    ensures Links(Apply(n, e))
  {
    var n' := Apply(n, e);
    if n' != n {
      match e
      case PostRead => PostReadLinks(n);
      case PostDispatch => PostDispatchLinks(n);
      case PostAcked => PostEndsLinks(n, n', true);
      case PostLost => PostEndsLinks(n, n', false);
      case PostUnacked => UnackedLinks(n, n');
      case PostGivenUp => GivenUpLinks(n, n');
      case StrayDispatch(k) => StrayLinks(n, k);
    }
  }

  lemma StepKeepsLinks(n: Net, e: Event)
    requires Links(n) && Facts(n) && (e.ServerStep? && SX.Internal(e.se) ==> Moved(n, S.Apply(n.server, e.se)))
    ensures Links(Apply(n, e))
  {
    if e.ServerStep? {
      if SX.Internal(e.se) {
        ServerLinks(n, S.Apply(n.server, e.se));
      }
    } else if e.ClientStep? {
      if ClientInternal(e.ce) {
        ClientStepLinks(n, e.ce);
      }
    } else if e.FrameUp? {
      FrameUpLinks(n, e.i);
    } else if IsPostEvent(e) {
      PostEventLinks(n, e);
    } else if e.FrameDown? {
      FrameStepLinks(n);
    } else {
      PollEventLinks(n, e);
    }
  }

  lemma ClientAccepts(c: C.System, c': C.System)
    requires ClientNext(c, c')
    ensures c.log.accepted <= c'.log.accepted
  {
    if c' != c {
      var e :| c' == C.Apply(c, e);
      AcceptStep(c, e);
    }
  }

  lemma AcceptStep(c: C.System, e: C.Event)
    ensures c.log.accepted <= C.Apply(c, e).log.accepted
  {
    if CI.IsUpgradeStep(e) {
      AcceptNothing(c, e);
    } else if CI.IsFlushStep(e) {
      AcceptNothing(c, e);
    } else {
      var more := CI.OtherQueues(c, e);
    }
  }

  lemma AcceptNothing(c: C.System, e: C.Event)
    requires CI.IsUpgradeStep(e) || CI.IsFlushStep(e)
    ensures C.Apply(c, e).log.accepted == c.log.accepted
  {}

  /** The echoes of a step: those there were, and the POST in flight if its acknowledgement is lost. */
  lemma StepEchoes(n: Net, e: Event)
    ensures var n' := Apply(n, e);
            || n'.echoes == n.echoes
            || (n.post == Serving([]) && n'.echoes == n.echoes + [Echo(|n.client.log.posted|, Chunk(n))])
  {
    if e.FrameUp? {
      FrameUpEchoes(n, e.i);
    }
  }

  lemma FrameUpEchoes(n: Net, i: nat)
    ensures DoFrameUp(n, i).echoes == n.echoes
  {}

  lemma EchoGrows(e: Echo, a: seq<Packet>, b: seq<Packet>)
    requires EchoOf(e, a) && a <= b
    ensures EchoOf(e, b)
  {}

  lemma EchoStays(n: Net, n': Net)
    requires Echoed(n) && n.client.log.accepted <= n'.client.log.accepted
    requires || n'.echoes == n.echoes
             || (exists e :: n'.echoes == n.echoes + [e] && EchoOf(e, n.client.log.accepted))
    ensures Echoed(n')
  {
    forall k | 0 <= k < |n'.echoes|
      ensures EchoOf(n'.echoes[k], n'.client.log.accepted)
    {
      EchoGrows(n'.echoes[k], n.client.log.accepted, n'.client.log.accepted);
    }
  }

  /** What a POST in flight has had dispatched lies within the flush it belongs to. */
  lemma ServedPrefix(n: Net)
    requires CI.Conserved(n.client) && CI.Stream(n.client) && CI.Handshake(n.client) && PostLink(n) && n.post.Serving?
    ensures n.client.log.lost == [] && n.client.log.up == [] && n.client.log.posted + Served(n) <= n.client.log.accepted
  {
    var c, l := n.client, n.client.log;
    NextPrefix(c);
    assert l.posted == CI.Flow(l) == l.counted;
  }

  lemma NextPrefix(c: C.System)
    requires CI.Conserved(c) && c.pc.Posting?
    ensures c.log.counted + CI.Chunked(c)[c.pc.k] <= c.log.accepted
  {
    var chunk := CI.Chunked(c)[c.pc.k];
    CI.NextChunk(c.pc.packets, c.maxPayload, c.pc.k);
    CI.NextChunk(c.pc.packets, c.maxPayload, c.pc.k + 1);
    Assoc(c.log.trimmed, CI.Written(c), chunk);
    assert CI.Written(c) + chunk <= c.pc.packets;
  }

  lemma PostIsEcho(n: Net)
    requires CI.Conserved(n.client) && CI.Stream(n.client) && CI.Handshake(n.client) && PostLink(n) && n.post == Serving([])
    ensures EchoOf(Echo(|n.client.log.posted|, Chunk(n)), n.client.log.accepted)
  {
    ServedPrefix(n);
    assert Served(n) == Chunk(n);
  }

  lemma StepKeepsEchoes(n: Net, e: Event)
    requires Ends(n) && Up(n) && Echoed(n) && ClientNext(n.client, Apply(n, e).client)
    ensures Echoed(Apply(n, e))
  {
    StepEchoes(n, e);
    ClientAccepts(n.client, Apply(n, e).client);
    if n.post == Serving([]) {
      PostIsEcho(n);
    }
    EchoStays(n, Apply(n, e));
  }

  lemma StepKeepsInv(n: Net, e: Event)
    requires Inv(n)
    ensures Inv(Apply(n, e))
  {
    EndsGive(n);
    if e.ServerStep? && SX.Internal(e.se) {
      ServerMoves(n, e.se);
    }
    ServerSide(n, e);
    ClientSide(n, e);
    StepKeepsEnds(n, Apply(n, e));
    StepKeepsEchoes(n, e);
    StepKeepsLinks(n, e);
  }

  lemma InitInv(buffered: seq<Packet>, maxPayload: int)
    ensures Inv(Init(buffered, maxPayload))
  {
    var n := Init(buffered, maxPayload);
    ST.InitInv(Poller);
    CI.InitInv(buffered, maxPayload);
    assert n.server.w.polls[..0] == [] && n.server.w.frames[..0] == [];
    assert Served(n) == [] && n.client.log.posted + Served(n) == [];
  }

  lemma {:induction false} RunKeepsInv(n: Net, es: seq<Event>)
    requires Inv(n)
    ensures Inv(RunAll(n, es))
    decreases |es|
  {
    if es != [] {
      StepKeepsInv(n, es[0]);
      RunKeepsInv(Apply(n, es[0]), es[1..]);
    }
  }
}

/** The promise of the upgrade: nothing is lost or reordered, wherever the switch falls. */
module NetworkTheorems {
  import opened Packets
  import opened Echoes
  import opened Network
  import opened NetworkProofs
  import opened Places
  import opened DeliveryProofs
  import SF = ServerFields
  import SW = ServerWrites
  import C = ClientSystem
  import CF = ClientFields
  import CI = ClientProofs
  import CT = ClientTheorems

  function Reach(buffered: seq<Packet>, maxPayload: int, es: seq<Event>): Net {
    RunAll(Init(buffered, maxPayload), es)
  }

  lemma Reachable(buffered: seq<Packet>, maxPayload: int, es: seq<Event>)
    ensures Inv(Reach(buffered, maxPayload, es)) && Placed(Reach(buffered, maxPayload, es))
  {
    InitInv(buffered, maxPayload);
    InitPlaced(buffered, maxPayload);
    RunKeepsInv(Init(buffered, maxPayload), es);
    RunKeepsPlaces(Init(buffered, maxPayload), es);
  }

  lemma ReadPrefix(n: Net)
    requires n.upSeen <= |n.client.log.up|
    ensures n.client.log.posted + n.client.log.lost + Read(n) <= CI.Flow(n.client.log)
  {
    if Read(n) != [] {
      assert n.client.log.up[1..][..n.upSeen - 1] == Read(n);
    }
  }

  /** The packets that reached the server and those lost, in order, are a prefix of the packets accepted. */
  lemma BlockOfLost(n: Net)
    requires CI.Conserved(n.client) && CI.Stream(n.client) && CI.Handshake(n.client) && Up(n)
    ensures Posted(n) + n.client.log.lost + Read(n) <= n.client.log.accepted
  {
    var l := n.client.log;
    ReadPrefix(n);
    if n.post.Serving? {
      ServedPrefix(n);
      assert Posted(n) + l.lost + Read(n) == Posted(n);
    } else {
      assert Posted(n) == l.posted;
    }
  }

  /** The server has not completed an upgrade, or was open when it did. */
  predicate SwitchedOpen(n: Net) {
    n.server.u.swaps == 0 || n.server.u.swappedIn == SF.Open
  }

  lemma DownInOrder(n: Net)
    requires Down(n) && SW.Conserved(n.server)
    ensures n.client.log.dispatched <= Messages(n.server.w.appended)
  {
    MessagesPrefix(n.server.w.handed, n.server.w.appended);
  }

  lemma NoBlock(a: seq<Packet>, lost: seq<Packet>, b: seq<Packet>, all: seq<Packet>)
    requires a + lost + b <= all && (lost == [] || b == [])
    ensures a + b <= all && Messages(a + b) <= Messages(all)
  {
    if b == [] {
      assert a + b == a <= a + lost + b;
    } else {
      assert a + lost + b == a + b;
    }
    MessagesPrefix(a + b, all);
  }

  /** No packet is skipped, and without a flush that failed none is repeated. */
  ghost predicate Safe(n: Net) {
    && Posted(n) + Read(n) <= n.client.log.accepted
    && InOrder(n.places)
    && (!n.client.log.failed ==> Consecutive(n.places) && n.received <= Messages(n.client.log.accepted))
    && (n.strays == [] && n.echoes == [] ==> n.received <= Messages(n.client.log.accepted))
  }

  lemma UnbrokenIsSafe(n: Net)
    requires CI.Conserved(n.client) && CI.Stream(n.client) && CI.Handshake(n.client) && Up(n) && Placed(n) && Unbroken(n)
    ensures Safe(n)
  {
    BlockOfLost(n);
    NoBlock(Posted(n), n.client.log.lost, Read(n), n.client.log.accepted);
    if !n.client.log.failed {
      GivenOnce(n);
    }
  }

  lemma GivenOnce(n: Net)
    requires Given(n) && Consecutive(n.places)
    ensures |n.places| <= |n.client.log.accepted| && n.received == Messages(n.client.log.accepted[..|n.places|])
    ensures n.received <= Messages(n.client.log.accepted)
  {
    PickConsecutive(n.client.log.accepted, n.places);
    MessagesPrefix(n.client.log.accepted[..|n.places|], n.client.log.accepted);
  }

  lemma OpenIsUnbroken(n: Net)
    requires Up(n) && Gap(n) && (SwitchedOpen(n) || SF.CanSend(n.server.f))
    ensures Unbroken(n)
  {}

  /** What the server's application has been given, in terms of what the client accepted. */
  ghost predicate InStream(n: Net) {
    && Given(n)
    && Posted(n) + n.client.log.lost + Read(n) <= n.client.log.accepted
    && (n.strays == [] ==>
          n.received == Messages(Weave(Posted(n) + Read(n), n.echoes)) && Within(n.echoes, |Posted(n)|) && Echoed(n))
  }

  /**
   * In every interleaving of client, server and links. Down: what the client's application
   * has been given is a prefix of what the server queued. Up: the server's application has
   * been given only what the client accepted; what reached it for good is in order a prefix of
   * that, with at most the block of lost packets left out; and unless a POST was given up while
   * it was served, each echo stands in its place and repeats a stretch of what was accepted.
   * Nothing is left out while the server is open, nor unless it completed the upgrade while
   * closing: then no packet is given before those accepted before it, and none is given twice
   * unless a flush returned an error.
   */
  lemma NothingLostOrReordered(buffered: seq<Packet>, maxPayload: int, es: seq<Event>)
    ensures var n := Reach(buffered, maxPayload, es);
            && n.client.log.dispatched <= Messages(n.server.w.appended)
            && InStream(n)
            && (SF.CanSend(n.server.f) ==> n.client.log.lost == [])
            && (SwitchedOpen(n) || SF.CanSend(n.server.f) ==> Safe(n))
  {
    Reachable(buffered, maxPayload, es);
    StateInStream(Reach(buffered, maxPayload, es));
    OpenIsSafe(Reach(buffered, maxPayload, es));
  }

  lemma StateInStream(n: Net)
    requires Inv(n) && Placed(n)
    ensures n.client.log.dispatched <= Messages(n.server.w.appended) && InStream(n)
    ensures SF.CanSend(n.server.f) ==> n.client.log.lost == []
  {
    assert SW.Conserved(n.server) by {
      assert ST.Inv(n.server);
    }
    DownInOrder(n);
    InvGives(n);
    UpInStream(n);
  }

  lemma UpInStream(n: Net)
    requires CI.Conserved(n.client) && CI.Stream(n.client) && CI.Handshake(n.client) && Up(n) && Given(n) && Echoed(n)
    ensures InStream(n)
  {
    BlockOfLost(n);
    assert |n.client.log.posted| <= |Posted(n)|;
  }

  lemma OpenIsSafe(n: Net)
    requires Inv(n) && Placed(n)
    ensures SwitchedOpen(n) || SF.CanSend(n.server.f) ==> Safe(n)
  {
    if SwitchedOpen(n) || SF.CanSend(n.server.f) {
      OpenIsUnbroken(n);
      UnbrokenIsSafe(n);
    }
  }

  lemma {:induction false} LossStops(n: Net, later: seq<Event>)
    requires Inv(n) && n.client.log.up != [] && n.client.log.lost == []
    ensures RunAll(n, later).client.log.lost == [] && Inv(RunAll(n, later))
    decreases |later|
  {
    if later != [] {
      StepLosesNothing(n, later[0]);
      StepKeepsInv(n, later[0]);
      LossStops(Apply(n, later[0]), later[1..]);
    }
  }

  lemma StepLosesNothing(n: Net, e: Event)
    requires CI.Stream(n.client) && n.client.log.up != [] && n.client.log.lost == []
    ensures Apply(n, e).client.log.up != [] && Apply(n, e).client.log.lost == []
  {
    ClientSide(n, e);
    var c, c' := n.client, Apply(n, e).client;
    if c' != c {
      var ce :| c' == C.Apply(c, ce);
      CT.UpgradedStep(c, ce);
    }
  }

  lemma LosslessIsSafe(n: Net)
    requires Inv(n) && Placed(n) && n.client.log.lost == []
    ensures InStream(n) && Safe(n)
  {
    StateInStream(n);
    InvGives(n);
    UnbrokenIsSafe(n);
  }

  /** Once the client has sent its upgrade packet to a server that is still open, nothing is ever lost. */
  lemma CommittedIsSafe(buffered: seq<Packet>, maxPayload: int, es: seq<Event>, later: seq<Event>)
    requires var n := Reach(buffered, maxPayload, es); SF.CanSend(n.server.f) && n.client.log.up != []
    ensures var n := RunAll(Reach(buffered, maxPayload, es), later);
            n.client.log.lost == [] && InStream(n) && Safe(n)
  {
    Reachable(buffered, maxPayload, es);
    var n := Reach(buffered, maxPayload, es);
    StateInStream(n);
    LossStops(n, later);
    RunKeepsPlaces(n, later);
    LosslessIsSafe(RunAll(n, later));
  }

  ghost predicate PongHeard(n: Net, n': Net) {
    !n'.server.f.pongTimer && n'.server.f.pingTimer && !n'.server.w.pinged && n'.received == n.received
  }

  lemma HandleHears(n: Net, p: Packet)
    requires n.server.f.state == SF.Open && p.ptype == 3
    ensures PongHeard(n, Handle(n, p))
  {
    assert S.Apply(n.server, S.PongArrives).f == SF.OnPong(n.server.f);
  }

  /** A pong the client sent ends the deadline of an open session when it is dispatched, whichever transport carried it. */
  lemma PongIsHeard(n: Net, i: nat)
    requires n.server.f.state == SF.Open
    ensures n.post.Serving? && n.post.rest != [] && n.post.rest[0].ptype == 3 ==> PongHeard(n, Apply(n, PostDispatch))
    ensures CanTakeFrame(n, i) && Upgraded(n) !in n.server.probing && n.client.log.up[n.upSeen].ptype == 3 ==>
              PongHeard(n, Apply(n, FrameUp(i)))
  {
    if n.post.Serving? && n.post.rest != [] && n.post.rest[0].ptype == 3 {
      HandleHears(n.(post := Serving(n.post.rest[1..]), places := n.places + [PostPlace(n)]), n.post.rest[0]);
    }
    if CanTakeFrame(n, i) && Upgraded(n) !in n.server.probing && n.client.log.up[n.upSeen].ptype == 3 {
      HandleHears(n.(upSeen := n.upSeen + 1, places := n.places + [FramePlace(n)]), n.client.log.up[n.upSeen]);
    }
  }

  /** The server has nothing buffered or in flight, and the client has read everything. */
  ghost predicate DownDrained(n: Net) {
    && n.server.f.state != SF.Closed && n.server.flusher.None? && n.server.f.writeBuffer == []
    && n.pollsSeen == |n.server.w.polls| && n.framesSeen == |n.server.w.frames|
    && n.client.f.state != CF.Closed && Rest(n.client) == []
  }

  /**
   * The client has nothing buffered or in flight and the server has read everything; the
   * server is open, or completed the upgrade while it was; the upgrade packet, if any, did
   * not come too late; and the link, once adopted, is open.
   */
  ghost predicate UpDrained(n: Net) {
    && n.client.f.state == CF.Open && n.client.pc.Idle? && n.client.f.writeBuffer == []
    && n.upSeen == |n.client.log.up| && !n.dead
    && (SF.CanSend(n.server.f) || (n.server.u.swaps > 0 && n.server.u.swappedIn == SF.Open))
    && (n.client.up.Adopted? ==> n.client.linkOpen)
  }

  lemma DownDelivered(n: Net)
    requires Down(n) && SW.Conserved(n.server) && SW.Split(n.server.w) && DownDrained(n)
    ensures n.client.log.dispatched == Messages(n.server.w.appended)
  {
    assert n.server.w.polls[..n.pollsSeen] == n.server.w.polls;
    assert n.server.w.frames[..n.framesSeen] == n.server.w.frames;
    assert n.server.w.handed == n.server.w.appended;
  }

  lemma UpDelivered(n: Net)
    requires CI.Conserved(n.client) && CI.Stream(n.client) && CI.Handshake(n.client) && Up(n) && Gap(n) && UpDrained(n)
    ensures Posted(n) + Read(n) == n.client.log.accepted
  {
    var l := n.client.log;
    assert l.accepted == l.counted == CI.Flow(l);
    assert Served(n) == [] && l.lost == [];
    assert l.up != [] ==> l.up[1..n.upSeen] == l.up[1..];
    assert Read(n) == CI.Frames(l);
  }

  /** Every packet accepted was given; once, in order, unless a flush returned an error, and then with the echoes. */
  ghost predicate Complete(n: Net) {
    && Covers(n.places, |n.client.log.accepted|)
    && (!n.client.log.failed ==> n.received == Messages(n.client.log.accepted))
    && (n.strays == [] ==> n.received == Messages(Weave(n.client.log.accepted, n.echoes)))
  }

  lemma DrainedComplete(n: Net)
    requires Posted(n) + Read(n) == n.client.log.accepted && Placed(n) && Unbroken(n) && Received(n) && n.client.pc.Idle?
    ensures Complete(n)
  {
    if !n.client.log.failed {
      GivenOnce(n);
      assert n.client.log.accepted[..|n.places|] == n.client.log.accepted;
    }
  }

  /** Once a direction is drained, everything accepted at one end has been delivered at the other. */
  lemma DrainedMeansDelivered(buffered: seq<Packet>, maxPayload: int, es: seq<Event>)
    ensures var n := Reach(buffered, maxPayload, es);
            && (DownDrained(n) ==> n.client.log.dispatched == Messages(n.server.w.appended))
            && (UpDrained(n) ==> Complete(n))
  {
    Reachable(buffered, maxPayload, es);
    var n := Reach(buffered, maxPayload, es);
    if DownDrained(n) {
      DownDelivered(n);
    }
    if UpDrained(n) {
      UpDelivered(n);
      OpenIsUnbroken(n);
      DrainedComplete(n);
    }
  }
}
