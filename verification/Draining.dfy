/** From every reachable state an open client can hand over everything it has accepted. */
module Draining {
  import opened Basics
  import opened Packets
  import opened Chunking
  import opened ClientSystem
  import opened ClientProofs
  import ClientTheorems
  import CP = ClientProgress
  import F = ClientFields
  import P = ClientPolling

  /** A step in which nothing fails or closes: what is written is taken, and polls are answered. */
  predicate Smooth(e: Event) {
    || CP.Own(e) || e.FlushCall? || e.FlushBegins? || e == ChunkStarts(true) || e == PostEnds(true) || e.FlushEnds?
    || e.Drained? || e == Commit(true) || e.CancelCommit? || e.PollReturns?
  }

  ghost predicate AllSmooth(es: seq<Event>) {
    forall k :: 0 <= k < |es| ==> Smooth(es[k])
  }

  ghost predicate Leads(s: System, s': System) {
    exists es :: AllSmooth(es) && s' == RunAll(s, es)
  }

  lemma Stay(s: System)
    ensures Leads(s, s)
  {
    assert s == RunAll(s, []);
  }

  /** An open socket of which the invariant holds, reached from s0. */
  ghost predicate At(s0: System, s: System) {
    Leads(s0, s) && Inv(s) && s.f.state == F.Open && s0.log.accepted <= s.log.accepted
  }

  lemma Go(s0: System, s: System, e: Event) returns (s': System)
    requires Leads(s0, s) && Inv(s) && Smooth(e)
    ensures Leads(s0, s') && Inv(s') && s' == Apply(s, e)
  {
    var es :| AllSmooth(es) && s == RunAll(s0, es);
    CP.RunAppend(s0, es, e);
    StepKeepsInv(s, e);
    s' := Apply(s, e);
    assert AllSmooth(es + [e]) && s' == RunAll(s0, es + [e]);
  }

  // ---- The running flush ends ----

  function Left(s: System): nat {
    match s.pc
    case Idle => 0
    case Ending(_, _, _) => 1
    case Posting(_, k) => if k <= |Chunked(s)| then 2 * (|Chunked(s)| - k) + 2 else 2
    case Sending(_, _, k) => if k <= |Chunked(s)| then 2 * (|Chunked(s)| - k) + 3 else 3
  }

  function Next(s: System): Event {
    if s.pc.Sending? then ChunkStarts(true) else if s.pc.Posting? then PostEnds(true) else FlushEnds
  }

  /** The flush moves on by one step; if it was writing all there is, it still is. */
  lemma FlushMoves(s: System)
    requires Inv(s) && s.f.state == F.Open && !s.pc.Idle?
    ensures var s' := Apply(s, Next(s));
            && Left(s') < Left(s) && s'.f.state == F.Open && s'.up == s.up && s'.log.accepted == s.log.accepted
            && s'.poll == s.poll && (!s'.pc.Idle? ==> s'.f.writeBuffer == s.f.writeBuffer)
  {
    if s.pc.Ending? {
      TrimInBounds(s);
    }
  }

  lemma {:induction false} FlushFinishes(s0: System, s: System) returns (s': System)
    requires At(s0, s)
    ensures At(s0, s') && s'.pc.Idle? && s'.up == s.up && s'.poll == s.poll
    decreases Left(s)
  {
    s' := s;
    if !s.pc.Idle? {
      FlushMoves(s);
      s' := Go(s0, s, Next(s));
      s' := FlushFinishes(s0, s');
    }
  }

  // ---- A flush of the whole buffer ----

  /** The flush is writing all there is, and nothing has failed. */
  ghost predicate Whole(s: System) {
    !s.pc.Idle? && s.pc.packets == s.f.writeBuffer && (s.pc.Ending? ==> !s.pc.failed && s.pc.k == |Chunked(s)|)
  }

  lemma WholeMoves(s: System)
    requires Inv(s) && s.f.state == F.Open && Whole(s)
    ensures var s' := Apply(s, Next(s)); if s'.pc.Idle? then s'.f.writeBuffer == [] else Whole(s')
  {
    if s.pc.Ending? {
      TrimInBounds(s);
      ChunksFlat(s.pc.packets, s.maxPayload);
      assert Chunked(s)[..|Chunked(s)|] == Chunked(s);
    }
  }

  lemma {:induction false} WholeFlushEnds(s0: System, s: System) returns (s': System)
    requires At(s0, s) && Whole(s)
    ensures At(s0, s') && s'.pc.Idle? && s'.f.writeBuffer == []
    decreases Left(s)
  {
    FlushMoves(s);
    WholeMoves(s);
    s' := Go(s0, s, Next(s));
    if !s'.pc.Idle? {
      s' := WholeFlushEnds(s0, s');
    }
  }

  lemma BufferWritten(s0: System, s: System) returns (s': System)
    requires At(s0, s) && s.pc.Idle? && !s.f.upgrading
    ensures At(s0, s') && s'.pc.Idle? && s'.f.writeBuffer == []
  {
    s' := s;
    if s.f.writeBuffer != [] {
      s' := Go(s0, s', FlushCall);
      s' := Go(s0, s', FlushBegins);
      s' := WholeFlushEnds(s0, s');
    }
  }

  // ---- A running upgrade ends ----

  /** The upgrade is over, one way or the other. */
  ghost predicate Settled(s: System) {
    s.pc.Idle? && !s.f.upgrading
  }

  lemma {:induction false} OwnIsSmooth(s0: System, s: System, es: seq<Event>) returns (s': System)
    requires Leads(s0, s) && Inv(s) && CP.AllOwn(es)
    ensures Leads(s0, s') && Inv(s') && s' == RunAll(s, es) && s.log.accepted <= s'.log.accepted
    decreases |es|
  {
    s' := s;
    if es != [] {
      s' := Go(s0, s, es[0]);
      Accepts(s, es[0]);
      s' := OwnIsSmooth(s0, s', es[1..]);
    }
  }

  lemma Accepts(s: System, e: Event)
    requires CP.Own(e)
    ensures s.log.accepted <= Apply(s, e).log.accepted
  {}

  lemma PauseEnds(s0: System, s: System, id: nat) returns (s': System)
    requires At(s0, s) && s.pc.Idle? && s.up == PauseLocking(id)
    ensures At(s0, s') && Settled(s')
  {
    s' := s;
    if s.poll.Requesting? {
      s' := Go(s0, s, PollReturns([Packet(NOOP, [], false)]));
    }
    s' := PauseEndsIn(s0, s', id);
  }

  lemma PauseEndsIn(s0: System, s: System, id: nat) returns (s': System)
    requires At(s0, s) && s.pc.Idle? && (s.up == PauseLocking(id) || s.up == PauseWaiting(id)) && !s.poll.Requesting?
    ensures At(s0, s') && Settled(s')
  {
    var c := CP.Adopts(s, id);
    var es :| CP.AllOwn(es) && c == RunAll(s, es);
    s' := OwnIsSmooth(s0, s, es);
  }

  lemma AdoptionEnds(s0: System, s: System, id: nat) returns (s': System)
    requires At(s0, s) && s.pc.Idle? && s.up == Adopting(id)
    ensures At(s0, s') && Settled(s')
  {
    s' := Go(s0, s, AdoptLink);
  }

  lemma CommitEnds(s0: System, s: System, id: nat) returns (s': System)
    requires At(s0, s) && s.pc.Idle? && s.up == Committed(id)
    ensures At(s0, s') && Settled(s')
  {
    s' := Go(s0, s, PauseBegins);
    if s'.up.Adopting? {
      s' := AdoptionEnds(s0, s', id);
    } else {
      s' := PauseEnds(s0, s', id);
    }
  }

  lemma DrainEnds(s0: System, s: System, id: nat) returns (s': System)
    requires At(s0, s) && s.pc.Idle? && (s.up == ClientSystem.Draining(id) || s.up == Committing(id))
    ensures At(s0, s') && Settled(s')
  {
    s' := s;
    if s.up.Draining? {
      s' := Go(s0, s, Drained);
    }
    s' := UpgradeSent(s0, s', id);
    s' := CommitEnds(s0, s', id);
  }

  lemma UpgradeSent(s0: System, s: System, id: nat) returns (s': System)
    requires At(s0, s) && s.pc.Idle? && s.up == Committing(id)
    ensures At(s0, s') && s'.pc.Idle? && s'.up == Committed(id)
  {
    s' := Go(s0, s, Commit(true));
  }

  lemma FailureEnds(s0: System, s: System) returns (s': System)
    requires At(s0, s) && s.pc.Idle? && s.up.Failing?
    ensures At(s0, s') && Settled(s')
  {
    s' := Go(s0, s, CancelCommit);
  }

  lemma UpgradeEnds(s0: System, s: System) returns (s': System)
    requires At(s0, s) && s.pc.Idle?
    ensures At(s0, s') && Settled(s')
  {
    match s.up
    case NoProbe => s' := s;
    case Probing(_) => s' := s;
    case Adopted(_) => s' := s;
    case Draining(id) => s' := DrainEnds(s0, s, id);
    case Committing(id) => s' := DrainEnds(s0, s, id);
    case Failing(_) => s' := FailureEnds(s0, s);
    case Committed(id) => s' := CommitEnds(s0, s, id);
    case PauseLocking(id) => s' := PauseEnds(s0, s, id);
    case PauseWaiting(id) => s' := PauseEndsIn(s0, s, id);
    case Adopting(id) => s' := AdoptionEnds(s0, s, id);
  }

  /**
   * Wherever a flush and an upgrade stand, an open client can finish both and hand every
   * packet it has accepted to a transport.
   */
  lemma OpenClientDrains(buffered: seq<Packet>, maxPayload: int, es: seq<Event>) returns (s: System)
    requires ClientTheorems.Reach(buffered, maxPayload, es).f.state == F.Open
    ensures var s0 := ClientTheorems.Reach(buffered, maxPayload, es);
            && Leads(s0, s) && s.f.state == F.Open && s0.log.accepted <= s.log.accepted
            && s.pc.Idle? && s.f.writeBuffer == [] && s.log.counted == s.log.accepted
  {
    var s0 := ClientTheorems.Reach(buffered, maxPayload, es);
    ClientTheorems.Reachable(buffered, maxPayload, es);
    Stay(s0);
    s := FlushFinishes(s0, s0);
    s := UpgradeEnds(s0, s);
    s := BufferWritten(s0, s);
  }
}
