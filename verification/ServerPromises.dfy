/** What every step keeps of the timers, of a closing session, and of the order in which goroutines release things. */
module ServerReleases {
  import opened Basics
  import opened Packets
  import opened ServerFields
  import opened ServerSystem
  import opened ServerBase
  import opened ServerWrites
  import opened ServerUpgrades
  import opened ServerLinks
  import ST = ServerTheorems

  // ---- The heartbeat's timers ----

  /** The pong deadline runs exactly from a ping to its pong, and otherwise the next ping is scheduled. */
  ghost predicate Beats(s: System) {
    s.f.state == Open ==> (s.f.pongTimer <==> s.w.pinged) && (!s.w.pinged ==> s.f.pingTimer)
  }

  lemma CallBeats(s: System, e: Event)
    requires Base(s) && Beats(s) && (IsAppend(e) || IsPoll(e))
    ensures Beats(Apply(s, e))
  {}

  lemma UpgradeBeats(s: System, e: Event)
    requires Beats(s) && (IsProbe(e) || e.UpgradeArrives?)
    ensures Beats(Apply(s, e))
  {}

  lemma FlushBeats(s: System, i: nat, arm: bool, ok: bool)
    requires Beats(s)
    ensures Beats(FlushStep(s, i, arm, ok))
  {}

  lemma RunBeats(s: System, i: nat, ok: bool)
    requires Beats(s)
    ensures Beats(RunThread(s, i, ok))
  {
    if i in s.threads && Free(s.threads[i]) && s.threads[i].next.Flush? {
      FlushBeats(s, i, s.threads[i].next.arm, ok);
    }
  }

  // ---- A closing session that has handed everything off ----

  /** Only the running flush can have emptied the buffer of a closing session, and it is about to close it. */
  ghost predicate Drains(s: System) {
    s.f.state == Closing && s.f.writeBuffer == [] ==> s.flusher.Some? && s.pc.Drained?
  }

  lemma CallDrains(s: System, e: Event)
    requires Drains(s) && (IsAppend(e) || IsPoll(e))
    ensures Drains(Apply(s, e))
  {}

  lemma UpgradeDrains(s: System, e: Event)
    requires Drains(s) && (IsProbe(e) || e.UpgradeArrives?)
    ensures Drains(Apply(s, e))
  {}

  lemma FlushDrains(s: System, i: nat, arm: bool, ok: bool)
    requires Drains(s) && Flushing(s, i, arm)
    ensures Drains(FlushStep(s, i, arm, ok))
  {}

  lemma RunDrains(s: System, i: nat, ok: bool)
    requires Base(s) && Drains(s)
    ensures Drains(RunThread(s, i, ok))
  {
    if i in s.threads {
      if !Free(s.threads[i]) {
        DischargeShape(s, i);
      } else if s.threads[i].next.Flush? && s.flusher == Some(i) {
        FlushDrains(s, i, s.threads[i].next.arm, ok);
      }
    }
  }

  // ---- Who closes what, and in which order ----

  predicate Owes(th: Thread, t: Transport) {
    th.close1 == Some(t) || th.close2 == Some(t)
  }

  /** A transport that waits to be closed is open, and waits for one goroutine. */
  ghost predicate ClosedOnce(s: System) {
    && (forall i, t :: i in s.threads && Owes(s.threads[i], t) ==> t in s.u.closer && s.u.closer[t] == i && t !in s.closed)
    && (forall i :: i in s.threads && s.threads[i].close1.Some? ==> s.threads[i].close1 != s.threads[i].close2)
  }

  /** Whoever promotes the link has the old transport still to close, and whoever calls the handler calls it last. */
  ghost predicate InTurn(s: System) {
    && (forall i :: i in s.threads && s.threads[i].promote.Some? ==> Owes(s.threads[i], s.u.first))
    && (forall i :: i in s.threads && i == s.u.notifier && s.f.state == Closed && !s.threads[i].notify ==> Free(s.threads[i]))
  }

  ghost predicate Releases(s: System) {
    ClosedOnce(s) && InTurn(s)
  }

  lemma QuietReleases(s: System, s': System, i: nat)
    requires Releases(s) && Quiet(s, s', i)
    ensures Releases(s')
  {}

  lemma ProbeReleases(s: System, t: Transport)
    requires Releases(s) && Ownership(s)
    ensures Releases(DoProbe(s, t))
  {
    assert forall i, v :: i in s.threads && Owes(s.threads[i], v) ==> v in s.u.used;
  }

  lemma ProbePingReleases(s: System, ch: Chan)
    requires Releases(s)
    ensures Releases(DoProbePing(s, ch))
  {}

  /** Goroutine i, which owed nothing, takes transports in use to close. */
  ghost predicate Takes(s: System, s': System, i: nat) {
    && i in s'.threads && s'.threads == s.threads[i := s'.threads[i]] && s'.closed == s.closed
    && (i in s.threads ==> Free(s.threads[i]))
    && var th := s'.threads[i];
       && (th.close1.Some? ==> th.close1 != th.close2)
       && (forall t :: Owes(th, t) ==>
             (s.f.transport == Some(t) || s.f.upgradeTransport == Some(t)) && t in s'.u.closer && s'.u.closer[t] == i)
       && (forall t :: t in s.u.closer && !Owes(th, t) ==> t in s'.u.closer && s'.u.closer[t] == s.u.closer[t])
  }

  lemma TakingClosesOnce(s: System, s': System, i: nat)
    requires Ownership(s) && ClosedOnce(s) && Takes(s, s', i)
    ensures ClosedOnce(s')
  {
    InUse(s);
  }

  lemma CompleteReleases(s: System, i: nat, t: Transport)
    requires Base(s) && Owns(s) && Releases(s)
    ensures Releases(DoComplete(s, i, t))
  {
    if i !in s.threads && Probing(s.f, t) {
      TakingClosesOnce(s, DoComplete(s, i, t), i);
      CompleteInTurn(s, i, t);
    }
  }

  lemma CompleteInTurn(s: System, i: nat, t: Transport)
    requires Base(s) && Owns(s) && InTurn(s)
    ensures InTurn(DoComplete(s, i, t))
  {}

  lemma AbortReleases(s: System, i: nat, t: Transport)
    requires Base(s) && Owns(s) && Releases(s)
    ensures Releases(DoAbort(s, i, t))
  {
    if i !in s.threads && Probing(s.f, t) {
      TakingClosesOnce(s, DoAbort(s, i, t), i);
    }
  }

  lemma TeardownReleases(s: System, i: nat, next: Next)
    requires Ownership(s) && Releases(s) && i in s.threads && Free(s.threads[i]) && CanTeardown(s.f)
    ensures Releases(ClaimTeardown(s, i, next)) && Releases(ClaimTeardown(s, i, next).(pc := Leaving))
  {
    TeardownTakes(s, i, next);
    TakingClosesOnce(s, ClaimTeardown(s, i, next), i);
    TeardownInTurn(s, i, next);
  }

  lemma TeardownTakes(s: System, i: nat, next: Next)
    requires i in s.threads && Free(s.threads[i]) && (s.f.upgradeTransport.Some? ==> s.f.transport != s.f.upgradeTransport)
    ensures Takes(s, ClaimTeardown(s, i, next), i)
  {}

  lemma TeardownInTurn(s: System, i: nat, next: Next)
    requires InTurn(s) && CanTeardown(s.f)
    ensures InTurn(ClaimTeardown(s, i, next))
  {}

  /** Nobody has a transport in use to close. */
  lemma InUse(s: System)
    requires Ownership(s)
    ensures forall i, t :: i in s.threads && Owes(s.threads[i], t) ==> s.f.transport != Some(t) && s.f.upgradeTransport != Some(t)
  {
    forall i, t | i in s.threads && Owes(s.threads[i], t)
      ensures s.f.transport != Some(t) && s.f.upgradeTransport != Some(t)
    {
      assert MayClose(s, s.threads[i].close1) && MayClose(s, s.threads[i].close2);
    }
  }

  /** Goroutine i promoted, stopped or notified, and owes no transport less. */
  ghost predicate Signalled(s: System, s': System, i: nat) {
    && s'.f == s.f && s'.closed == s.closed && s'.u.closer == s.u.closer && s'.u.first == s.u.first
    && s'.u.notifier == s.u.notifier
    && i in s.threads && i in s'.threads && s'.threads == s.threads[i := s'.threads[i]]
    && s'.threads[i].close1 == s.threads[i].close1 && s'.threads[i].close2 == s.threads[i].close2
    && (s'.threads[i].promote.Some? ==> s.threads[i].promote.Some?)
    && (s'.threads[i].notify == s.threads[i].notify || Free(s'.threads[i]))
    && (Free(s.threads[i]) ==> Free(s'.threads[i]))
  }

  lemma SignalledReleases(s: System, s': System, i: nat)
    requires Releases(s) && Signalled(s, s', i)
    ensures Releases(s')
  {}

  lemma SignalReleases(s: System, i: nat)
    requires Releases(s) && i in s.threads && !Free(s.threads[i])
    requires s.threads[i].promote.Some? || s.threads[i].stop.Some? || !(s.threads[i].close1.Some? || s.threads[i].close2.Some?)
    ensures Releases(Discharge(s, i, s.threads[i]))
  {
    SignalledReleases(s, Discharge(s, i, s.threads[i]), i);
  }

  lemma ClosingReleases(s: System, s': System, i: nat, t: Transport)
    requires Releases(s) && ClosedOne(s, s', i, t) && s.threads[i].promote.None? && s'.threads[i].promote.None?
    requires s.threads[i].notify == s'.threads[i].notify
    ensures Releases(s')
  {
    assert Owes(s.threads[i], t);
  }

  lemma DischargeReleases(s: System, i: nat)
    requires Releases(s) && i in s.threads && !Free(s.threads[i])
    ensures Releases(Discharge(s, i, s.threads[i]))
  {
    var th := s.threads[i];
    if th.promote.Some? || th.stop.Some? || !(th.close1.Some? || th.close2.Some?) {
      SignalReleases(s, i);
    } else {
      var t := CloseClosesOne(s, i);
      ClosingReleases(s, Discharge(s, i, th), i, t);
    }
  }

  lemma FlushReleases(s: System, i: nat, arm: bool, ok: bool)
    requires Base(s) && Owns(s) && Releases(s) && Flushing(s, i, arm)
    ensures Releases(FlushStep(s, i, arm, ok))
  {
    var s' := FlushStep(s, i, arm, ok);
    if s.pc.Head? || s.pc.Sending? || s.pc.Writing? {
      SendingIsQuiet(s, i, arm, ok);
      QuietReleases(s, s', i);
    } else if (s.pc.Failed? || s.pc.Drained?) && CanTeardown(s.f) {
      TeardownReleases(s, i, Unlock(arm));
    } else {
      TrimmingIsQuiet(s, i, arm, ok);
      QuietReleases(s, s', i);
    }
  }

  lemma ContinueReleases(s: System, i: nat, ok: bool)
    requires Base(s) && Owns(s) && Releases(s) && i in s.threads && Free(s.threads[i])
    ensures Releases(Continue(s, i, s.threads[i].next, ok))
  {
    var next := s.threads[i].next;
    if next.Flush? && s.flusher == Some(i) {
      FlushReleases(s, i, next.arm, ok);
    } else if next.Teardown? && CanTeardown(s.f) {
      TeardownReleases(s, i, Return);
    } else {
      QuietReleases(s, Continue(s, i, next, ok), i);
    }
  }

  lemma StepReleases(s: System, e: Event)
    requires Base(s) && Owns(s) && Releases(s)
    ensures Releases(Apply(s, e))
  {
    if IsAppend(e) || IsPoll(e) {
      var i := CallIsQuiet(s, e);
      QuietReleases(s, Apply(s, e), i);
    } else {
      match e
      case ProbeStarts(t) => ProbeReleases(s, t);
      case ProbePing(ch) => ProbePingReleases(s, ch);
      case UpgradeArrives(i, t) => CompleteReleases(s, i, t);
      case AbortCall(i, t) => AbortReleases(s, i, t);
      case Run(i, ok) =>
        if i in s.threads {
          if Free(s.threads[i]) {
            ContinueReleases(s, i, ok);
          } else {
            DischargeReleases(s, i);
          }
        }
    }
  }

  // ---- Every step ----

  ghost predicate Orderly(s: System) {
    Beats(s) && Drains(s) && Releases(s)
  }

  lemma StepKeepsOrderly(s: System, e: Event)
    requires Base(s) && Owns(s) && Orderly(s)
    ensures Orderly(Apply(s, e))
  {
    StepReleases(s, e);
    if IsAppend(e) || IsPoll(e) {
      CallBeats(s, e);
      CallDrains(s, e);
    } else if e.Run? {
      RunBeats(s, e.i, e.ok);
      RunDrains(s, e.i, e.ok);
    } else {
      UpgradeBeats(s, e);
      UpgradeDrains(s, e);
    }
  }

  lemma {:induction false} RunKeepsOrderly(s: System, es: seq<Event>)
    requires ST.Inv(s) && Orderly(s)
    ensures Orderly(RunAll(s, es)) && ST.Inv(RunAll(s, es))
    decreases |es|
  {
    if es != [] {
      StepKeepsOrderly(s, es[0]);
      ST.StepKeepsInv(s, es[0]);
      RunKeepsOrderly(Apply(s, es[0]), es[1..]);
    }
  }
}

/** What each call on a session achieves, in every reachable state. */
module ServerPromises {
  import opened Basics
  import opened Packets
  import opened ServerFields
  import opened ServerSystem
  import opened ServerBase
  import opened ServerWrites
  import opened ServerUpgrades
  import opened ServerLinks
  import opened ServerReleases
  import ST = ServerTheorems

  lemma Reachable(t: Transport, es: seq<Event>)
    ensures ST.Inv(ST.Reach(t, es)) && Orderly(ST.Reach(t, es)) && ST.Reach(t, es).u.first == t
  {
    ST.InitInv(t);
    RunKeepsOrderly(Init(t), es);
    ST.FirstIsFixed(Init(t), es);
  }

  // ---- Closing ----

  /** Close is taken by a session that is opening or open, and by no other. */
  lemma CloseTakenExactly(t: Transport, es: seq<Event>, i: nat)
    requires i !in ST.Reach(t, es).threads
    ensures var s, s' := ST.Reach(t, es), Apply(ST.Reach(t, es), CloseCall(i));
            if s.f.state == Opening || s.f.state == Open
            then s'.f.state == Closing && s'.w.appended == s.w.appended + [Packet(1, [], false)]
            else s' == s
  {}

  /**
   * While no flush is running, a closing session has something left to hand off; once it has
   * not, the next step of the running flush closes it.
   */
  lemma DrainedSessionCloses(t: Transport, es: seq<Event>, ok: bool)
    ensures var s := ST.Reach(t, es);
            && (s.f.state == Closing && s.flusher.None? ==> s.f.writeBuffer != [])
            && (s.f.state == Closing && s.f.writeBuffer == [] ==>
                  s.flusher.Some? && Apply(s, Run(s.flusher.value, ok)).f.state == Closed)
  {
    Reachable(t, es);
    DrainedCloses(ST.Reach(t, es), ok);
  }

  lemma DrainedCloses(s: System, ok: bool)
    requires Base(s) && Drains(s)
    ensures s.f.state == Closing && s.f.writeBuffer == [] ==>
              s.flusher.Some? && Apply(s, Run(s.flusher.value, ok)).f.state == Closed
  {}

  lemma FailureCloses(s: System, i: nat, ok: bool)
    requires Base(s) && s.flusher == Some(i) && s.pc.Writing? && s.pc.written < |s.pc.packets|
    ensures var s' := Apply(Apply(s, Run(i, false)), Run(i, ok)); s'.f.state == Closed && s'.w.frames == s.w.frames
  {
    var s1 := Apply(s, Run(i, false));
    assert s1 == s.(pc := Failed(s.pc.packets[..s.pc.written]));
  }

  /** A write that fails closes the session: the flush takes note, and its next step tears down. */
  lemma FailedWriteCloses(t: Transport, es: seq<Event>, i: nat, ok: bool)
    requires var s := ST.Reach(t, es);
             s.flusher == Some(i) && s.pc.Writing? && s.pc.written < |s.pc.packets|
    ensures var s := ST.Reach(t, es);
            var s' := Apply(Apply(s, Run(i, false)), Run(i, ok));
            s'.f.state == Closed && s'.w.frames == s.w.frames
  {
    Reachable(t, es);
    FailureCloses(ST.Reach(t, es), i, ok);
  }

  lemma SecondPollCloses(s: System, t: Transport, i: nat)
    requires Base(s) && Polls(s) && t in s.held && i !in s.threads
    ensures Apply(Apply(s, HoldPoll(i, t)), Run(i, true)).f.state == Closed
  {
    assert Apply(s, HoldPoll(i, t)) == Start(s, i, Doing(Teardown));
  }

  lemma DroppedPollCloses(s: System, t: Transport, i: nat)
    requires Base(s) && i !in s.threads
    ensures Apply(Apply(s, ReleasePoll(i, t)), Run(i, true)).f.state == Closed && t !in Apply(s, ReleasePoll(i, t)).held
  {
    assert Apply(s, ReleasePoll(i, t)) == Start(s.(held := s.held - {t}), i, Doing(Teardown));
  }

  /** A second poll while one is held closes the session, and so does a poll that the client drops. */
  lemma BrokenPollCloses(t: Transport, es: seq<Event>, i: nat)
    requires var s := ST.Reach(t, es); t in s.held && i !in s.threads
    ensures var s := ST.Reach(t, es);
            && Apply(Apply(s, HoldPoll(i, t)), Run(i, true)).f.state == Closed
            && Apply(Apply(s, ReleasePoll(i, t)), Run(i, true)).f.state == Closed
            && t !in Apply(s, ReleasePoll(i, t)).held
  {
    Reachable(t, es);
    SecondPollCloses(ST.Reach(t, es), t, i);
    DroppedPollCloses(ST.Reach(t, es), t, i);
  }

  // ---- Sending ----

  /** Send is taken by a session that is opening or open, and by no other. */
  lemma SendTakenExactly(t: Transport, es: seq<Event>, i: nat, data: seq<byte>, isBinary: bool)
    requires i !in ST.Reach(t, es).threads
    ensures var s, s' := ST.Reach(t, es), Apply(ST.Reach(t, es), SendMessage(i, data, isBinary));
            if s.f.state == Opening || s.f.state == Open
            then s'.w.appended == s.w.appended + [Packet(4, data, isBinary)] && s'.f.state == s.f.state
            else s' == s
  {}

  /** A flush that finds its transport closed hands nothing off and leaves. */
  lemma ClosedTakesNothing(t: Transport, es: seq<Event>, i: nat, ok: bool)
    requires var s := ST.Reach(t, es); s.flusher == Some(i) && s.pc.Sending? && s.pc.via in s.closed
    ensures var s, s' := ST.Reach(t, es), Apply(ST.Reach(t, es), Run(i, ok));
            s'.flusher == None && s'.w.handed == s.w.handed && s'.f.writeBuffer == s.f.writeBuffer
  {
    Reachable(t, es);
  }

  // ---- The heartbeat ----

  /**
   * While the session is open the pong deadline runs exactly from a ping to the pong after it,
   * and whenever it does not run the next ping is scheduled.
   */
  lemma DeadlineRunsFromPingToPong(t: Transport, es: seq<Event>)
    ensures var s := ST.Reach(t, es);
            s.f.state == Open ==> (s.f.pongTimer <==> s.w.pinged) && (!s.w.pinged ==> s.f.pingTimer)
  {
    Reachable(t, es);
  }

  /** The ping timer, when it fires, queues a ping while the session is open, and does nothing otherwise. */
  lemma PingQueuedExactly(t: Transport, es: seq<Event>, i: nat, stale: bool)
    requires i !in ST.Reach(t, es).threads && (stale || ST.Reach(t, es).f.pingTimer)
    ensures var s, s' := ST.Reach(t, es), Apply(ST.Reach(t, es), PingTimer(i, stale));
            if s.f.state == Open then s'.w.appended == s.w.appended + [Packet(2, [], false)] && s'.w.pinged else s' == s
  {}

  // ---- Upgrades ----

  /**
   * A probe is accepted exactly when the session is open on the polling transport it began with
   * and every probe before it has had its outcome; otherwise its transport is closed at once.
   */
  lemma ProbeAcceptedExactly(t: Transport, es: seq<Event>, p: Transport)
    requires p.Promotable? && p !in ST.Reach(t, es).u.used
    ensures var s, s' := ST.Reach(t, es), Apply(ST.Reach(t, es), ProbeStarts(p));
            && (p in s'.u.owned <==>
                  && s.f.state == Open && t.Polling? && s.u.swaps == 0
                  && forall q :: q in s.u.owned ==> q == t || q in s.u.resolved)
            && (p in s'.u.owned <==> p !in s'.closed)
            && (p in s'.u.owned ==> p in s'.probing && s'.f.upgradeTransport == Some(p))
  {
    Reachable(t, es);
    AcceptedExactly(ST.Reach(t, es), t, p);
  }

  lemma AcceptedExactly(s: System, t: Transport, p: Transport)
    requires Consistent(s.f) && Ownership(s) && Outcomes(s) && s.u.first == t && p.Promotable? && p !in s.u.used
    ensures var s' := Apply(s, ProbeStarts(p));
            && (p in s'.u.owned <==>
                  && s.f.state == Open && t.Polling? && s.u.swaps == 0
                  && forall q :: q in s.u.owned ==> q == t || q in s.u.resolved)
            && (p in s'.u.owned <==> p !in s'.closed)
            && (p in s'.u.owned ==> p in s'.probing && s'.f.upgradeTransport == Some(p))
  {
    if s.f.upgradeTransport.Some? {
      assert s.f.upgradeTransport.value in s.u.owned && s.f.upgradeTransport.value !in s.u.resolved;
    }
    assert p !in s.u.owned && p !in s.closed;
  }

  /** A probe in flight has its timeout armed, and the callback makes room for the next probe. */
  lemma ProbeTimesOut(t: Transport, es: seq<Event>, i: nat, p: Transport, q: Transport)
    requires var s := ST.Reach(t, es);
             && s.f.state == Open && s.f.upgradeTransport == Some(p) && i !in s.threads
             && q.Promotable? && q !in s.u.used
    ensures var s := ST.Reach(t, es);
            && s.f.upgradeTimer
            && Apply(Apply(s, AbortCall(i, p)), ProbeStarts(q)).f.upgradeTransport == Some(q)
  {
    Reachable(t, es);
  }

  /** A probe ping starts the noop loop exactly when a probe is in flight and no loop before it is still running. */
  lemma NoopLoopStartsExactly(t: Transport, es: seq<Event>, ch: Chan)
    requires ch !in ST.Reach(t, es).u.chans
    ensures var s, s' := ST.Reach(t, es), Apply(ST.Reach(t, es), ProbePing(ch));
            if s.f.upgradeTransport.Some? && s.u.chans <= s.u.closedChans + s.u.stopper.Keys
            then s'.u.chans == s.u.chans + {ch} && s'.f.probeNoopStop == Some(ch) else s' == s
  {
    Reachable(t, es);
    var s := ST.Reach(t, es);
    if s.f.probeNoopStop.None? {
      forall c | c in s.u.chans
        ensures c in s.u.closedChans + s.u.stopper.Keys
      {
        assert Stoppable(s, c);
      }
    }
  }

  /** The noop loop answers the held poll with a noop. */
  lemma NoopAnswersPoll(t: Transport, es: seq<Event>)
    requires t in ST.Reach(t, es).held
    ensures var s, s' := ST.Reach(t, es), Apply(ST.Reach(t, es), WriteNoop(t));
            s'.held == {} && s'.w.polls == s.w.polls + [[Packet(6, [], false)]]
  {
    Reachable(t, es);
  }

  // ---- Releasing ----

  lemma CloseAnswers(s: System, i: nat, p: Transport)
    requires i in s.threads && p in s.held && p !in s.closed
    requires s.threads[i].promote.None? && s.threads[i].stop.None? && s.threads[i].close1 == Some(p)
    ensures var s' := Apply(s, Run(i, true));
            p in s'.closed && s'.held == s.held - {p} && s'.w.polls == s.w.polls + [[Packet(1, [], false)]]
  {}

  /** The goroutine about to close a transport is the only one, the transport is still open, and a held poll gets a close packet. */
  lemma TransportClosedOnce(t: Transport, es: seq<Event>, i: nat, p: Transport)
    requires var s := ST.Reach(t, es); i in s.threads && Owes(s.threads[i], p)
    ensures var s := ST.Reach(t, es);
            && p !in s.closed && s.f.transport != Some(p) && s.f.upgradeTransport != Some(p)
            && (forall j :: j in s.threads && Owes(s.threads[j], p) ==> j == i)
            && (p in s.held && s.threads[i].promote.None? && s.threads[i].stop.None? && s.threads[i].close1 == Some(p) ==>
                  var s' := Apply(s, Run(i, true));
                  p in s'.closed && s'.held == s.held - {p} && s'.w.polls == s.w.polls + [[Packet(1, [], false)]])
  {
    Reachable(t, es);
    var s := ST.Reach(t, es);
    InUse(s);
    if p in s.held && s.threads[i].promote.None? && s.threads[i].stop.None? && s.threads[i].close1 == Some(p) {
      CloseAnswers(s, i, p);
    }
  }

  /** The polling transport is closed only after the link that replaces it dispatches to the session. */
  lemma PromotedBeforeClosing(t: Transport, es: seq<Event>)
    ensures var s := ST.Reach(t, es); s.u.swaps > 0 && t in s.closed ==> s.u.active !in s.probing
  {
    Reachable(t, es);
  }

  /** When the close handler runs, everything the teardown took has been released. */
  lemma HandlerRunsLast(t: Transport, es: seq<Event>)
    ensures var s := ST.Reach(t, es);
            s.u.notified == 1 ==>
              && (forall p :: p in s.u.owned && p in s.u.closer && s.u.closer[p] == s.u.notifier ==> p in s.closed)
              && (forall ch :: ch in s.u.stopper && s.u.stopper[ch] == s.u.notifier ==> ch in s.u.closedChans)
  {
    Reachable(t, es);
    var s := ST.Reach(t, es);
    if s.u.notified == 1 {
      forall p | p in s.u.owned && p in s.u.closer && s.u.closer[p] == s.u.notifier
        ensures p in s.closed
      {
        assert Accounted(s, p);
      }
      forall ch | ch in s.u.stopper && s.u.stopper[ch] == s.u.notifier
        ensures ch in s.u.closedChans
      {
        assert Stoppable(s, ch);
      }
    }
  }
}
