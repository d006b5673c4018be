/** What holds of every run of a server session, from its creation, in every interleaving. */
module ServerTheorems {
  import opened Basics
  import opened Packets
  import opened ServerFields
  import opened ServerSystem
  import opened ServerBase
  import opened ServerWrites
  import opened ServerUpgrades
  import opened ServerWakeup
  import opened ServerLinks

  ghost predicate Inv(s: System) {
    Base(s) && Owns(s) && Writes(s) && Wakeup(s) && Promotion(s) && Polls(s)
  }

  lemma InitInv(t: Transport)
    ensures Inv(Init(t))
  {}

  lemma StepKeepsInv(s: System, e: Event)
    requires Inv(s)
    ensures Inv(Apply(s, e))
  {
    StepKeepsBase(s, e);
    StepKeepsOwns(s, e);
    StepKeepsWrites(s, e);
    StepKeepsWakeup(s, e);
    StepKeepsPromotion(s, e);
    StepKeepsPolls(s, e);
  }

  lemma {:induction false} RunKeepsInv(s: System, es: seq<Event>)
    requires Inv(s)
    ensures Inv(RunAll(s, es))
    decreases |es|
  {
    if es != [] {
      StepKeepsInv(s, es[0]);
      RunKeepsInv(Apply(s, es[0]), es[1..]);
    }
  }

  /** The state reached from a new session by a run. */
  function Reach(t: Transport, es: seq<Event>): System {
    RunAll(Init(t), es)
  }

  lemma Reachable(t: Transport, es: seq<Event>)
    ensures Inv(Reach(t, es))
  {
    InitInv(t);
    RunKeepsInv(Init(t), es);
  }

  // ---- The session's fields ----

  lemma SessionInvariant(t: Transport, es: seq<Event>)
    ensures Consistent(Reach(t, es).f)
  {
    Reachable(t, es);
  }

  lemma ClosedStep(s: System, e: Event)
    requires Base(s) && s.f.state == Closed
    ensures Apply(s, e).f == s.f
  {}

  /** Closed is absorbing: no later step changes any field. */
  lemma {:induction false} ClosedIsFinal(s: System, es: seq<Event>)
    requires Base(s) && s.f.state == Closed
    ensures RunAll(s, es).f == s.f
    decreases |es|
  {
    if es != [] {
      StepKeepsBase(s, es[0]);
      ClosedStep(s, es[0]);
      ClosedIsFinal(Apply(s, es[0]), es[1..]);
    }
  }

  // ---- The write path ----

  /**
   * Whatever interleaves with the flush loop, what reached the transports is a prefix of
   * what was queued; until the session is closed the rest is in the buffer, and the
   * packets the loop is busy with head that buffer.
   */
  lemma NothingLostOrRepeated(t: Transport, es: seq<Event>)
    ensures var s := Reach(t, es);
            && s.w.handed <= s.w.appended
            && (s.f.state != Closed ==>
                  && s.w.appended == s.w.trimmed + s.f.writeBuffer
                  && s.w.handed == s.w.trimmed + InFlight(s)
                  && InFlight(s) <= s.f.writeBuffer
                  && Taken(s) <= s.f.writeBuffer)
            && (s.f.state != Closed && s.flusher.None? ==> s.w.appended == s.w.handed + s.f.writeBuffer)
  {
    Reachable(t, es);
  }

  /** All packets of the polling phase precede all frames, and every frame is on the one promoted transport. */
  lemma OneSwitch(t: Transport, es: seq<Event>)
    ensures var s := Reach(t, es);
            && Messages(s.w.handed) == Messages(Flat(s.w.polls)) + Messages(FramePackets(s.w.frames))
            && (forall k :: 0 <= k < |s.w.frames| ==> s.w.frames[k].via == s.u.active)
            && s.u.swaps <= 1
  {
    Reachable(t, es);
  }

  /** When nobody is flushing or about to, buffered packets wait for a poll: the transport is polling and none is held. */
  lemma NoLostWakeup(t: Transport, es: seq<Event>)
    ensures var s := Reach(t, es);
            s.flusher.None? && (forall i :: i in s.threads ==> !s.threads[i].next.Flush?) && s.f.writeBuffer != [] ==>
              && s.f.transport.Some?
              && s.f.transport.value.Polling?
              && s.f.transport.value !in s.held
              && s.f.transport.value !in s.closed
  {
    Reachable(t, es);
  }

  // ---- Graceful close ----

  lemma ClosingContinue(s: System, i: nat, next: Next, ok: bool)
    requires !CanSend(s.f)
    ensures var s' := Continue(s, i, next, ok); !CanSend(s'.f) && s'.w.appended == s.w.appended
  {
    if next.Flush? {
      FlushShape(s, i, next.arm, ok);
    }
  }

  lemma ClosingStep(s: System, e: Event)
    requires !CanSend(s.f)
    ensures var s' := Apply(s, e); !CanSend(s'.f) && s'.w.appended == s.w.appended
  {
    if IsPoll(e) {
      PollIsStill(s, e);
    } else if IsProbe(e) {
      ProbeIsStill(s, e);
    } else if e.UpgradeArrives? {
      CompleteIsStill(s, e.i, e.t);
    } else if e.Run? && e.i in s.threads {
      if Free(s.threads[e.i]) {
        ClosingContinue(s, e.i, s.threads[e.i].next, e.ok);
      } else {
        DischargeIsStill(s, e.i);
      }
    }
  }

  /** Once the session is closing nothing more is ever queued, so the Close packet stays last. */
  lemma {:induction false} ClosePacketIsLast(s: System, es: seq<Event>)
    requires !CanSend(s.f)
    ensures RunAll(s, es).w.appended == s.w.appended && !CanSend(RunAll(s, es).f)
    decreases |es|
  {
    if es != [] {
      ClosingStep(s, es[0]);
      ClosePacketIsLast(Apply(s, es[0]), es[1..]);
    }
  }

  /** No goroutine is inside Close. */
  ghost predicate NoCloseCall(s: System) {
    forall i :: i in s.threads ==> s.threads[i].next != Arm && s.threads[i].next != Flush(true)
  }

  /**
   * A closing session has queued the Close packet, once and last; the flush that finds the
   * buffer drained has handed off everything including it; and with no Close call left in
   * progress the fallback timer is armed.
   */
  lemma GracefulClose(t: Transport, es: seq<Event>)
    ensures var s := Reach(t, es);
            && CloseAtEnd(s.w.appended)
            && (CanSend(s.f) ==> forall k :: 0 <= k < |s.w.appended| ==> s.w.appended[k].ptype != CLOSE)
            && (s.f.state == Closing ==> s.w.appended != [] && s.w.appended[|s.w.appended| - 1] == ClosePacket)
            && (s.flusher.Some? && s.pc.Drained? ==> s.w.handed == s.w.appended)
            && (s.f.state == Closing && NoCloseCall(s) ==> s.f.closeTimer)
  {
    Reachable(t, es);
  }

  /** The fallback timer's callback, run by a fresh goroutine j, closes the session. */
  lemma FallbackCloses(t: Transport, es: seq<Event>, j: nat)
    requires var s := Reach(t, es); s.f.state == Closing && NoCloseCall(s) && j !in s.threads
    ensures var s := Reach(t, es);
            s.f.closeTimer && RunAll(s, [CloseWithReason(j), Run(j, true)]).f.state == Closed
  {
    Reachable(t, es);
    CallbackCloses(Reach(t, es), j);
  }

  lemma CallbackCloses(s: System, j: nat)
    requires s.f.state != Closed && j !in s.threads
    ensures RunAll(s, [CloseWithReason(j), Run(j, true)]).f.state == Closed
  {
    var s1 := Apply(s, CloseWithReason(j));
    var s2 := Apply(s1, Run(j, true));
    assert s2 == ClaimTeardown(s1, j, Return);
    var es := [CloseWithReason(j), Run(j, true)];
    assert es[1..] == [Run(j, true)] && es[1..][1..] == [];
    assert RunAll(s, es) == RunAll(s1, es[1..]) == RunAll(s2, es[1..][1..]);
  }

  // ---- Upgrades ----

  /** The outcome of transport t, once recorded, is the same in both states. */
  ghost predicate SameOutcome(s: System, s': System, t: Transport) {
    t in s.u.resolved ==> t in s'.u.resolved && s'.u.resolved[t] == s.u.resolved[t]
  }

  lemma OutcomeTeardown(s: System, i: nat, next: Next, t: Transport)
    requires Owns(s)
    ensures SameOutcome(s, ClaimTeardown(s, i, next), t)
  {}

  lemma OutcomeContinue(s: System, i: nat, next: Next, ok: bool, t: Transport)
    requires Owns(s)
    ensures SameOutcome(s, Continue(s, i, next, ok), t)
  {
    if next.Flush? {
      FlushShape(s, i, next.arm, ok);
      OutcomeTeardown(s, i, Unlock(next.arm), t);
    } else if next.Teardown? {
      OutcomeTeardown(s, i, Return, t);
    }
  }

  lemma OutcomeStep(s: System, e: Event, t: Transport)
    requires Owns(s)
    ensures SameOutcome(s, Apply(s, e), t)
  {
    if IsAppend(e) || IsPoll(e) {
      var i := CallIsQuiet(s, e);
    } else if e.Run? && e.i in s.threads && Free(s.threads[e.i]) {
      OutcomeContinue(s, e.i, s.threads[e.i].next, e.ok, t);
    }
  }

  /** Each accepted probe is claimed by at most one of completion, abort and teardown. */
  lemma {:induction false} ClaimedOnce(s: System, es: seq<Event>, t: Transport)
    requires Inv(s)
    ensures SameOutcome(s, RunAll(s, es), t)
    decreases |es|
  {
    if es != [] {
      StepKeepsInv(s, es[0]);
      OutcomeStep(s, es[0], t);
      ClaimedOnce(Apply(s, es[0]), es[1..], t);
    }
  }

  /** A timer or read loop of a probe already claimed changes nothing, whichever probe is now in flight. */
  lemma StaleClaimIgnored(s: System, i: nat, t: Transport)
    requires Inv(s) && t in s.u.resolved
    ensures Apply(s, AbortCall(i, t)) == s && Apply(s, UpgradeArrives(i, t)) == s
  {}

  /** Accepted probes not yet claimed are exactly the one in flight. */
  lemma UnclaimedIsInFlight(t: Transport, es: seq<Event>, p: Transport)
    requires p in Reach(t, es).u.owned && p != t
    ensures var s := Reach(t, es); p !in s.u.resolved <==> s.f.upgradeTransport == Some(p)
  {
    Reachable(t, es);
    FirstIsFixed(Init(t), es);
  }

  lemma FirstRun(s: System, i: nat, ok: bool)
    ensures RunThread(s, i, ok).u.first == s.u.first
  {}

  lemma FirstStep(s: System, e: Event)
    ensures Apply(s, e).u.first == s.u.first
  {
    if e.Run? {
      FirstRun(s, e.i, e.ok);
    }
  }

  lemma {:induction false} FirstIsFixed(s: System, es: seq<Event>)
    ensures RunAll(s, es).u.first == s.u.first
    decreases |es|
  {
    if es != [] {
      FirstStep(s, es[0]);
      FirstIsFixed(Apply(s, es[0]), es[1..]);
    }
  }

  /** The goroutine about to close a stop channel is the only holder of it, and it is still open. */
  lemma StopClosedOnce(t: Transport, es: seq<Event>, i: nat, ch: Chan)
    requires var s := Reach(t, es); i in s.threads && s.threads[i].stop == Some(ch)
    ensures var s := Reach(t, es);
            && ch !in s.u.closedChans
            && s.f.probeNoopStop != Some(ch)
            && (forall j :: j in s.threads && j != i ==> s.threads[j].stop != Some(ch))
  {
    Reachable(t, es);
    var s := Reach(t, es);
    assert MayStop(s, i, s.threads[i].stop);
    forall j | j in s.threads && j != i
      ensures s.threads[j].stop != Some(ch)
    {
      assert MayStop(s, j, s.threads[j].stop);
    }
  }

  /** Every goroutine has met its obligations. */
  ghost predicate Settled(s: System) {
    forall i :: i in s.threads ==> Free(s.threads[i])
  }

  /** After teardown and all tails: every transport owned is closed, every stop channel closed, the handler called once. */
  lemma EverythingReleased(t: Transport, es: seq<Event>)
    requires Settled(Reach(t, es)) && Reach(t, es).f.state == Closed
    ensures var s := Reach(t, es); s.u.owned <= s.closed && s.u.chans == s.u.closedChans && s.u.notified == 1
  {
    Reachable(t, es);
    var s := Reach(t, es);
    forall p | p in s.u.owned
      ensures p in s.closed
    {
      assert Accounted(s, p);
    }
    forall ch | ch in s.u.chans
      ensures ch in s.u.closedChans
    {
      assert Stoppable(s, ch);
    }
  }

  /** The close handler is never called before the session is closed, nor twice. */
  lemma HandlerAtMostOnce(t: Transport, es: seq<Event>)
    ensures var s := Reach(t, es); s.u.notified <= 1 && (s.f.state != Closed ==> s.u.notified == 0)
  {
    Reachable(t, es);
  }

  lemma PromotedStep(s: System, e: Event)
    requires Base(s) && s.f.transport.Some? && s.f.transport.value.Promotable?
    ensures var s' := Apply(s, e); s'.f.transport == s.f.transport || s'.f.state == Closed
  {}

  /** The session never goes back to polling, nor on to a third transport. */
  lemma {:induction false} NeverBackToPolling(s: System, es: seq<Event>)
    requires Base(s) && s.f.transport.Some? && s.f.transport.value.Promotable?
    ensures var s' := RunAll(s, es); s'.f.transport == s.f.transport || s'.f.state == Closed
    decreases |es|
  {
    if es != [] {
      StepKeepsBase(s, es[0]);
      PromotedStep(s, es[0]);
      var s1 := Apply(s, es[0]);
      if s1.f.state == Closed {
        ClosedIsFinal(s1, es[1..]);
      } else {
        NeverBackToPolling(s1, es[1..]);
      }
    }
  }
}
