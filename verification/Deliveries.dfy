/** Packets a session was given, by their places among those accepted at the other end. */
module Places {
  import opened Packets

  ghost predicate Valid(places: seq<int>, n: nat) {
    forall k :: 0 <= k < |places| ==> 0 <= places[k] < n
  }

  function Pick(all: seq<Packet>, places: seq<int>): seq<Packet>
    requires Valid(places, |all|)
  {
    seq(|places|, k requires 0 <= k < |places| => all[places[k]])
  }

  /** Each place up to h was filled at least once. */
  ghost predicate Covers(places: seq<int>, h: int) {
    forall i :: 0 <= i < h ==> i in places
  }

  /** No packet is given before all those accepted before it have been given. */
  ghost predicate InOrder(places: seq<int>) {
    forall k, i :: 0 <= k < |places| && 0 <= i < places[k] ==> i in places[..k]
  }

  /** Every packet is given once, in order, from the first on. */
  ghost predicate Consecutive(places: seq<int>) {
    forall k :: 0 <= k < |places| ==> places[k] == k
  }

  lemma CoversMore(places: seq<int>, p: int, h: int)
    requires Covers(places, h)
    ensures Covers(places + [p], h)
  {}

  lemma NextInOrder(places: seq<int>, p: int)
    requires InOrder(places) && Covers(places, p)
    ensures InOrder(places + [p]) && Covers(places + [p], p + 1)
  {
    var more := places + [p];
    forall k, i | 0 <= k < |more| && 0 <= i < more[k]
      ensures i in more[..k]
    {
      assert more[..k] == places[..k];
      assert k == |places| ==> places[..k] == places;
    }
    forall i | 0 <= i < p + 1
      ensures i in more
    {
      assert more[|places|] == p;
    }
  }

  lemma NextConsecutive(places: seq<int>, p: int)
    requires Consecutive(places) && p == |places|
    ensures Consecutive(places + [p])
  {}

  lemma PickMore(all: seq<Packet>, more: seq<Packet>, places: seq<int>)
    requires all <= more && Valid(places, |all|)
    ensures Valid(places, |more|) && Pick(more, places) == Pick(all, places)
  {}

  lemma PickNext(all: seq<Packet>, places: seq<int>, p: int)
    requires Valid(places, |all|) && 0 <= p < |all|
    ensures Valid(places + [p], |all|) && Pick(all, places + [p]) == Pick(all, places) + [all[p]]
  {}

  lemma PickConsecutive(all: seq<Packet>, places: seq<int>)
    requires Valid(places, |all|) && Consecutive(places)
    ensures |places| <= |all| && Pick(all, places) == all[..|places|]
  {
    if places != [] {
      assert places[|places| - 1] < |all|;
    }
  }
}

/** What every step keeps of the places, POSTs given up included. */
module DeliveryProofs {
  import opened Packets
  import opened Places
  import opened Network
  import opened NetworkProofs
  import C = ClientSystem
  import CI = ClientProofs

  /** The messages dispatched are those of the packets given. */
  ghost predicate Given(n: Net) {
    Valid(n.places, |n.client.log.accepted|) && n.received == Messages(Pick(n.client.log.accepted, n.places))
  }

  ghost predicate StrayOf(s: Stray, accepted: seq<Packet>) {
    0 <= s.at && s.at + |s.rest| <= |accepted| && accepted[s.at..s.at + |s.rest|] == s.rest
  }

  ghost predicate StraysOf(n: Net) {
    forall k :: 0 <= k < |n.strays| ==> StrayOf(n.strays[k], n.client.log.accepted)
  }

  /** No packet that was lost is followed by one that was given. */
  ghost predicate Unbroken(n: Net) {
    n.client.log.lost == [] || Read(n) == []
  }

  /** How much of the stream has reached the session for good. */
  function Base(n: Net): nat {
    |Posted(n)| + |Read(n)|
  }

  ghost predicate Ordered(n: Net) {
    && InOrder(n.places) && Covers(n.places, Base(n))
    && forall k :: 0 <= k < |n.strays| ==> Covers(n.places, n.strays[k].at)
  }

  /** A POST has failed, and its flush has not returned yet. */
  predicate Failing(c: C.System) {
    c.pc.Ending? && c.pc.failed && c.log.up == []
  }

  /** Every packet was given once, and the only POST that can still be served is the first that failed. */
  ghost predicate Once(n: Net) {
    && Consecutive(n.places)
    && (|| (n.strays == [] && |n.places| == Base(n))
        || (Failing(n.client) && (n.strays == [] || (|n.strays| == 1 && n.strays[0].at == |n.places|))))
  }

  ghost predicate Placed(n: Net) {
    && Given(n) && StraysOf(n)
    && (Unbroken(n) ==> Ordered(n))
    && (Unbroken(n) && !n.client.log.failed ==> Once(n))
  }

  /** What the client contributes. */
  ghost predicate Fine(c: C.System) {
    CI.Handshake(c) && CI.Conserved(c) && CI.Stream(c)
  }

  // ---- Steps that give nothing ----

  /** What the client had accepted and lost, and whether a flush returned an error, only grows. */
  ghost predicate Later(c: C.System, c': C.System) {
    c.log.accepted <= c'.log.accepted && c.log.lost <= c'.log.lost && (c.log.failed ==> c'.log.failed)
  }

  /** n' is n after a step that gives the session nothing. */
  ghost predicate Idle(n: Net, n': Net) {
    && n'.places == n.places && n'.received == n.received && n'.strays == n.strays
    && Later(n.client, n'.client) && Base(n') == Base(n) && Read(n') == Read(n)
    && (Failing(n.client) ==> Failing(n'.client) || n'.client.log.failed)
  }

  lemma StrayLater(n: Net, n': Net)
    requires StraysOf(n) && n'.strays == n.strays && n.client.log.accepted <= n'.client.log.accepted
    ensures StraysOf(n')
  {
    forall k | 0 <= k < |n'.strays|
      ensures StrayOf(n'.strays[k], n'.client.log.accepted)
    {
      StrayGrows(n.strays[k], n.client.log.accepted, n'.client.log.accepted);
    }
  }

  lemma StrayGrows(s: Stray, a: seq<Packet>, b: seq<Packet>)
    requires StrayOf(s, a) && a <= b
    ensures StrayOf(s, b)
  {}

  lemma IdlePlaced(n: Net, n': Net)
    requires Placed(n) && Idle(n, n')
    ensures Placed(n')
  {
    PickMore(n.client.log.accepted, n'.client.log.accepted, n.places);
    StrayLater(n, n');
  }

  /** What a step of the client other than the end of a POST leaves as it was. */
  ghost predicate Writes(c: C.System, c': C.System) {
    && c'.log.posted == c.log.posted && c.log.up <= c'.log.up && c'.maxPayload == c.maxPayload
    && (c.pc.Posting? ==> c'.pc == c.pc)
    && c.log.lost <= c'.log.lost && (c.log.failed ==> c'.log.failed)
    && (Failing(c) ==> Failing(c') || c'.log.failed)
  }

  lemma UpgradeWrites(c: C.System, e: C.Event)
    requires CI.Handshake(c) && CI.IsUpgradeStep(e)
    ensures Writes(c, C.Apply(c, e))
  {}

  lemma FlushWrites(c: C.System, e: C.Event)
    requires CI.Handshake(c) && CI.Stream(c) && CI.IsFlushStep(e) && !e.PostEnds?
    ensures Writes(c, C.Apply(c, e))
  {}

  lemma OtherWrites(c: C.System, e: C.Event)
    requires !CI.IsUpgradeStep(e) && !CI.IsFlushStep(e)
    ensures Writes(c, C.Apply(c, e))
  {}

  lemma StepWrites(c: C.System, e: C.Event)
    requires CI.Handshake(c) && CI.Stream(c) && !e.PostEnds?
    ensures Writes(c, C.Apply(c, e))
  {
    if CI.IsUpgradeStep(e) {
      UpgradeWrites(c, e);
    } else if CI.IsFlushStep(e) {
      FlushWrites(c, e);
    } else {
      OtherWrites(c, e);
    }
  }

  lemma ClientPlaced(n: Net, n': Net, e: C.Event)
    requires Placed(n) && CI.Handshake(n.client) && CI.Stream(n.client) && PostLink(n) && n.upSeen <= |n.client.log.up|
    requires !e.PostEnds? && n'.client == C.Apply(n.client, e)
    requires n'.post == n.post || (n.post == NoPost && n'.post == Unread)
    requires n'.upSeen == n.upSeen && n'.dead == n.dead && n'.strays == n.strays
    requires n'.places == n.places && n'.received == n.received
    ensures Placed(n')
  {
    StepWrites(n.client, e);
    AcceptStep(n.client, e);
    SameBase(n, n');
    IdlePlaced(n, n');
  }

  lemma SameBase(n: Net, n': Net)
    requires Writes(n.client, n'.client) && PostLink(n) && n.upSeen <= |n.client.log.up|
    requires n'.post == n.post || (n.post == NoPost && n'.post == Unread)
    requires n'.upSeen == n.upSeen && n'.dead == n.dead
    ensures Posted(n') == Posted(n) && Read(n') == Read(n)
  {
    var up, up' := n.client.log.up, n'.client.log.up;
    assert n.upSeen > 0 ==> up[1..n.upSeen] == up'[1..n.upSeen];
    if n.post.Serving? {
      assert Chunk(n') == Chunk(n);
    }
  }

  // ---- Steps that give a packet ----

  /** m is n after the packet at place `at` was given. */
  ghost predicate Gave(n: Net, m: Net, at: int) {
    && 0 <= at < |n.client.log.accepted| && m.client == n.client && m.places == n.places + [at]
    && m.received == n.received + Messages([n.client.log.accepted[at]])
  }

  lemma GaveGiven(n: Net, m: Net, at: int)
    requires Given(n) && Gave(n, m, at)
    ensures Given(m)
  {
    var all := n.client.log.accepted;
    PickNext(all, n.places, at);
    MessagesAppend(Pick(all, n.places), [all[at]]);
  }

  lemma GaveOrdered(n: Net, m: Net, at: int)
    requires Ordered(n) && Gave(n, m, at) && Covers(n.places, at)
    requires Base(m) <= Base(n) || Base(m) <= at + 1
    requires |m.strays| == |n.strays|
    requires forall k :: 0 <= k < |n.strays| ==> m.strays[k].at == n.strays[k].at || m.strays[k].at == at + 1
    ensures Ordered(m)
  {
    NextInOrder(n.places, at);
    CoversMore(n.places, at, Base(n));
    forall k | 0 <= k < |m.strays|
      ensures Covers(m.places, m.strays[k].at)
    {
      CoversMore(n.places, at, n.strays[k].at);
    }
  }

  /** The packet of the stream that comes next was given. */
  lemma StreamGave(n: Net, m: Net, at: int)
    requires Placed(n) && Gave(n, m, at) && m.strays == n.strays && Base(m) == Base(n) + 1
    requires (n.client.log.lost == [] ==> at == Base(n)) && (Unbroken(m) ==> n.client.log.lost == [])
    requires !Failing(n.client)
    ensures Placed(m)
  {
    GaveGiven(n, m, at);
    if Unbroken(m) {
      GaveOrdered(n, m, at);
      if !n.client.log.failed {
        NextConsecutive(n.places, at);
      }
    }
  }

  lemma PostStands(n: Net)
    requires Fine(n.client) && n.client.pc.Posting?
    ensures n.client.log.lost == [] && n.client.log.up == [] && n.client.log.posted + Chunk(n) <= n.client.log.accepted
  {
    NextPrefix(n.client);
    assert n.client.log.posted == CI.Flow(n.client.log) == n.client.log.counted;
  }

  lemma PostGave(n: Net, m: Net, p: Packet)
    requires Fine(n.client) && Up(n) && Placed(n) && n.post.Serving? && n.post.rest != [] && p == n.post.rest[0]
    requires m.client == n.client && m.post == Serving(n.post.rest[1..]) && m.upSeen == n.upSeen && m.dead == n.dead
    requires m.places == n.places + [PostPlace(n)] && m.strays == n.strays && m.received == n.received + Messages([p])
    ensures Placed(m)
  {
    PostStands(n);
    assert n.upSeen == 0 && Read(n) == [] && Read(m) == [];
    PostAt(n, m);
    StreamGave(n, m, PostPlace(n));
  }

  lemma PostAt(n: Net, m: Net)
    requires PostLink(n) && n.post.Serving? && n.post.rest != []
    requires m.client == n.client && m.post == Serving(n.post.rest[1..])
    requires n.client.log.posted + Chunk(n) <= n.client.log.accepted
    ensures PostPlace(n) == |Posted(n)| < |n.client.log.accepted| && |Posted(m)| == |Posted(n)| + 1
    ensures n.client.log.accepted[PostPlace(n)] == n.post.rest[0]
  {
    var at := PostPlace(n);
    assert Chunk(m) == Chunk(n);
    assert n.post.rest[0] == Chunk(n)[|Served(n)|];
    assert n.client.log.accepted[at] == (n.client.log.posted + Chunk(n))[at];
  }

  lemma FrameGave(n: Net, m: Net, p: Packet)
    requires Fine(n.client) && Up(n) && Placed(n) && 0 < n.upSeen < |n.client.log.up| && !n.dead && p == n.client.log.up[n.upSeen]
    requires m.client == n.client && m.post == n.post && m.upSeen == n.upSeen + 1 && m.dead == n.dead
    requires m.places == n.places + [FramePlace(n)] && m.strays == n.strays && m.received == n.received + Messages([p])
    ensures Placed(m)
  {
    FrameAt(n.client.log, n.upSeen);
    assert |Read(n)| == n.upSeen - 1 && |Read(m)| == n.upSeen && Posted(m) == Posted(n) == n.client.log.posted;
    StreamGave(n, m, FramePlace(n));
  }

  lemma FrameAt(l: C.Log, k: nat)
    requires 0 < k < |l.up| && CI.Flow(l) <= l.accepted
    ensures var at := |l.posted| + |l.lost| + k - 1; at < |l.accepted| && l.accepted[at] == l.up[k]
  {
    var at := |l.posted + l.lost| + k - 1;
    assert l.accepted[at] == CI.Flow(l)[at] == l.up[k];
  }

  lemma StrayStays(n: Net, m: Net, k: nat)
    requires StraysOf(n) && k < |n.strays| && n.strays[k].rest != [] && m.client == n.client
    requires m.strays == n.strays[k := Stray(n.strays[k].at + 1, n.strays[k].rest[1..])]
    ensures StraysOf(m) && 0 <= n.strays[k].at < |n.client.log.accepted|
    ensures n.client.log.accepted[n.strays[k].at] == n.strays[k].rest[0]
  {
    var all, s := n.client.log.accepted, n.strays[k];
    assert StrayOf(s, all) && all[s.at] == all[s.at..s.at + |s.rest|][0];
    assert all[s.at + 1..s.at + |s.rest|] == s.rest[1..];
  }

  lemma StrayGave(n: Net, m: Net, k: nat)
    requires Placed(n) && k < |n.strays| && n.strays[k].rest != []
    requires m.client == n.client && m.post == n.post && m.upSeen == n.upSeen && m.dead == n.dead
    requires m.strays == n.strays[k := Stray(n.strays[k].at + 1, n.strays[k].rest[1..])]
    requires m.places == n.places + [n.strays[k].at] && m.received == n.received + Messages([n.strays[k].rest[0]])
    ensures Placed(m)
  {
    var at := n.strays[k].at;
    StrayStays(n, m, k);
    GaveGiven(n, m, at);
    assert Chunk(m) == Chunk(n) && Posted(m) == Posted(n) && Read(m) == Read(n);
    if Unbroken(m) {
      GaveOrdered(n, m, at);
      if !n.client.log.failed {
        NextConsecutive(n.places, at);
      }
    }
  }

  // ---- Steps that end a POST ----

  lemma PostEndsLater(c: C.System, ok: bool)
    ensures var c' := C.Apply(c, C.PostEnds(ok));
            && c'.log.accepted == c.log.accepted && c'.log.lost == c.log.lost && c'.log.failed == c.log.failed
            && c'.log.up == c.log.up
            && (!ok && c.pc.Posting? ==> c'.pc.Ending? && c'.pc.failed)
  {}

  lemma AckedPlaced(n: Net, n': Net, ok: bool)
    requires Fine(n.client) && Up(n) && Placed(n) && n.post == (if ok then Serving([]) else Unread)
    requires n' == n.(client := C.Apply(n.client, C.PostEnds(ok)), post := NoPost)
    ensures Placed(n')
  {
    PostEndsLater(n.client, ok);
    PostEndsShape(n.client, ok);
    if ok {
      assert Served(n) == Chunk(n);
    }
    assert Posted(n') == Posted(n) && Read(n') == Read(n) == [];
    IdlePlaced(n, n');
  }

  /** The POST fails with `rest` of it still to be served. */
  lemma FailedPlaced(n: Net, n': Net)
    requires Fine(n.client) && Up(n) && Placed(n) && n.post != NoPost
    requires n'.client == C.Apply(n.client, C.PostEnds(false)) && n'.post == NoPost
    requires n'.upSeen == n.upSeen && n'.dead == n.dead && n'.places == n.places && n'.received == n.received
    requires || (n'.strays == n.strays && n.post == Serving([]))
             || n'.strays == n.strays + [Stray(PostPlace(n), if n.post.Serving? then n.post.rest else Chunk(n))]
    ensures Placed(n')
  {
    PostEndsLater(n.client, false);
    PostEndsShape(n.client, false);
    PostStands(n);
    RestStands(n);
    assert n.upSeen == 0 && Read(n) == Read(n') == [] && Posted(n') == n.client.log.posted;
    assert forall k :: 0 <= k < |n.strays| ==> n'.strays[k] == n.strays[k];
    FailedStrays(n, n');
    FailedOrdered(n, n');
  }

  lemma RestStands(n: Net)
    requires PostLink(n) && n.post != NoPost && n.client.log.posted + Chunk(n) <= n.client.log.accepted
    ensures PostPlace(n) == |Posted(n)|
    ensures StrayOf(Stray(PostPlace(n), if n.post.Serving? then n.post.rest else Chunk(n)), n.client.log.accepted)
  {
    var l, at := n.client.log, PostPlace(n);
    var rest := if n.post.Serving? then n.post.rest else Chunk(n);
    assert l.posted + Chunk(n) == Posted(n) + rest;
    assert l.accepted[at..at + |rest|] == (Posted(n) + rest)[at..];
  }

  lemma FailedStrays(n: Net, n': Net)
    requires StraysOf(n) && n'.client.log.accepted == n.client.log.accepted
    requires n'.strays == n.strays || (exists s :: n'.strays == n.strays + [s] && StrayOf(s, n.client.log.accepted))
    ensures StraysOf(n')
  {}

  lemma FailedOrdered(n: Net, n': Net)
    requires Ordered(n) && n'.places == n.places && Base(n') <= Base(n)
    requires n'.strays == n.strays || (exists s :: n'.strays == n.strays + [s] && s.at <= Base(n))
    ensures Ordered(n')
  {}

  // ---- Every step ----

  lemma HandleGives(n: Net, p: Packet)
    ensures var n' := Handle(n, p);
            && n' == n.(received := n'.received, server := n'.server) && n'.received == n.received + Messages([p])
  {
    MessagesOne(p);
  }

  lemma FramePlaced(n: Net, i: nat)
    requires Up(n) && ProbeFacts(n.server, Upgraded(n)) && Fine(n.client) && Placed(n)
    ensures Placed(DoFrameUp(n, i))
  {
    if CanTakeFrame(n, i) {
      if Upgraded(n) !in n.server.probing {
        var n1, p := FrameGives(n, i);
        HandleGives(n1, p);
        FrameGave(n, DoFrameUp(n, i), p);
      } else {
        FrameQuiet(n, i);
        QuietFrame(n, DoFrameUp(n, i));
      }
    }
  }

  /** A frame of the promoted link. */
  lemma FrameGives(n: Net, i: nat) returns (n1: Net, p: Packet)
    requires CanTakeFrame(n, i) && Upgraded(n) !in n.server.probing
    ensures p == n.client.log.up[n.upSeen] && DoFrameUp(n, i) == Handle(n1, p)
    ensures n1 == n.(upSeen := n.upSeen + 1, places := n.places + [FramePlace(n)])
  {
    n1, p := n.(upSeen := n.upSeen + 1, places := n.places + [FramePlace(n)]), n.client.log.up[n.upSeen];
  }

  lemma FrameQuiet(n: Net, i: nat)
    requires CanTakeFrame(n, i) && Upgraded(n) in n.server.probing
    ensures var n' := DoFrameUp(n, i);
            && n'.client == n.client && n'.post == n.post && n'.upSeen == n.upSeen + 1 && (n.dead ==> n'.dead)
            && n'.places == n.places && n'.received == n.received && n'.strays == n.strays
  {}

  /** A frame that only moves the upgrade on. */
  lemma QuietFrame(n: Net, n': Net)
    requires Placed(n) && n.upSeen < |n.client.log.up| && (n.upSeen == 0 || n.dead)
    requires n'.client == n.client && n'.post == n.post && n'.upSeen == n.upSeen + 1 && (n.dead ==> n'.dead)
    requires n'.places == n.places && n'.received == n.received && n'.strays == n.strays
    ensures Placed(n')
  {
    assert n.client.log.up[1..1] == [];
    assert Chunk(n') == Chunk(n) && Posted(n') == Posted(n) && Read(n') == Read(n) == [];
    IdlePlaced(n, n');
  }

  lemma ReadPlaced(n: Net)
    requires Placed(n) && n.post.Unread?
    ensures Placed(Apply(n, PostRead))
  {
    var n' := Apply(n, PostRead);
    assert Chunk(n') == Chunk(n) && Posted(n') == Posted(n) && Read(n') == Read(n);
    IdlePlaced(n, n');
  }

  lemma DispatchPlaced(n: Net)
    requires Fine(n.client) && Up(n) && Placed(n) && n.post.Serving? && n.post.rest != []
    ensures Placed(Apply(n, PostDispatch))
  {
    HandleGives(n.(post := Serving(n.post.rest[1..]), places := n.places + [PostPlace(n)]), n.post.rest[0]);
    PostGave(n, Apply(n, PostDispatch), n.post.rest[0]);
  }

  lemma GivenUpPlaced(n: Net)
    requires Fine(n.client) && Up(n) && Placed(n) && (n.post.Unread? || (n.post.Serving? && n.post.rest != []))
    ensures Placed(Apply(n, PostGivenUp))
  {
    assert PostPlace(n.(payloads := n.payloads + [Chunk(n)])) == PostPlace(n);
    FailedPlaced(n, Apply(n, PostGivenUp));
  }

  lemma PostEventPlaced(n: Net, e: Event)
    requires Fine(n.client) && Up(n) && Placed(n) && IsPostEvent(e) && Apply(n, e) != n
    ensures Placed(Apply(n, e))
  {
    match e
    case PostRead => ReadPlaced(n);
    case PostDispatch => DispatchPlaced(n);
    case PostAcked => AckedPlaced(n, Apply(n, e), true);
    case PostLost => AckedPlaced(n, Apply(n, e), false);
    case PostUnacked => FailedPlaced(n, Apply(n, e));
    case PostGivenUp => GivenUpPlaced(n);
    case StrayDispatch(k) => StrayPlaced(n, k);
  }

  lemma StrayPlaced(n: Net, k: nat)
    requires Placed(n) && k < |n.strays| && n.strays[k].rest != []
    ensures Placed(DispatchStray(n, k))
  {
    var at, rest := n.strays[k].at, n.strays[k].rest;
    HandleGives(n.(strays := n.strays[k := Stray(at + 1, rest[1..])], places := n.places + [at]), rest[0]);
    StrayGave(n, DispatchStray(n, k), k);
  }

  lemma InvGives(n: Net)
    requires Inv(n)
    ensures Up(n) && ProbeFacts(n.server, Upgraded(n)) && Fine(n.client)
  {
    EndsGive(n);
  }

  lemma OtherPlaced(n: Net, e: Event)
    requires Fine(n.client) && Up(n) && Placed(n) && !IsPostEvent(e) && !e.FrameUp?
    ensures Placed(Apply(n, e))
  {
    if Apply(n, e).client == n.client {
      ServerOnly(n, e);
      SamePlaces(n, Apply(n, e));
    } else {
      var ce := ClientEvent(n, e);
      ClientPlaced(n, Apply(n, e), ce);
    }
  }

  lemma ServerOnly(n: Net, e: Event)
    requires !IsPostEvent(e) && !e.FrameUp? && Apply(n, e).client == n.client
    ensures var n' := Apply(n, e);
            && n'.post == n.post && n'.upSeen == n.upSeen && n'.dead == n.dead
            && n'.strays == n.strays && n'.places == n.places && n'.received == n.received
  {}

  lemma StepKeepsPlaces(n: Net, e: Event)
    requires Inv(n) && Placed(n)
    ensures Placed(Apply(n, e))
  {
    InvGives(n);
    PlacesKept(n, e);
  }

  lemma PlacesKept(n: Net, e: Event)
    requires Up(n) && ProbeFacts(n.server, Upgraded(n)) && Fine(n.client) && Placed(n)
    ensures Placed(Apply(n, e))
  {
    if e.FrameUp? {
      FramePlaced(n, e.i);
    } else if !IsPostEvent(e) {
      OtherPlaced(n, e);
    } else if Apply(n, e) != n {
      PostEventPlaced(n, e);
    }
  }

  lemma SamePlaces(n: Net, n': Net)
    requires Placed(n) && n'.client == n.client && n'.post == n.post && n'.upSeen == n.upSeen && n'.dead == n.dead
    requires n'.strays == n.strays && n'.places == n.places && n'.received == n.received
    ensures Placed(n')
  {
    assert Chunk(n') == Chunk(n) && Posted(n') == Posted(n) && Read(n') == Read(n);
  }

  /** The step of the client behind a step of the network. */
  lemma ClientEvent(n: Net, e: Event) returns (ce: C.Event)
    requires !IsPostEvent(e) && !e.FrameUp? && Apply(n, e).client != n.client && PostLink(n)
    ensures var n' := Apply(n, e);
            && !ce.PostEnds? && n'.client == C.Apply(n.client, ce)
            && (n'.post == n.post || (n.post == NoPost && n'.post == Unread))
            && n'.upSeen == n.upSeen && n'.dead == n.dead && n'.strays == n.strays
            && n'.places == n.places && n'.received == n.received
  {
    if e.ClientStep? {
      ce := e.ce;
    } else if e.PollRefused? {
      ce := C.PollFails;
    } else if e.PollAnswered? {
      ce := C.PollReturns(n.server.w.polls[n.pollsSeen]);
    } else {
      ce := C.FrameArrives(n.server.w.frames[n.framesSeen].packet);
    }
  }

  lemma {:induction false} RunKeepsPlaces(n: Net, es: seq<Event>)
    requires Inv(n) && Placed(n)
    ensures Placed(RunAll(n, es))
    decreases |es|
  {
    if es != [] {
      StepKeepsPlaces(n, es[0]);
      StepKeepsInv(n, es[0]);
      RunKeepsPlaces(Apply(n, es[0]), es[1..]);
    }
  }

  lemma InitPlaced(buffered: seq<Packet>, maxPayload: int)
    ensures Placed(Init(buffered, maxPayload))
  {
    var n := Init(buffered, maxPayload);
    assert Pick(buffered, []) == [];
    assert Posted(n) == [] && Read(n) == [];
  }
}
