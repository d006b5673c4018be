/** Upgrades and ownership: who may claim a probe, a stop channel, a transport, the close handler. */
module ServerUpgrades {
  import opened Basics
  import opened ServerFields
  import opened ServerSystem
  import opened ServerBase

  // ---- Transports ----

  /** A transport waiting to be closed is no longer in use. */
  ghost predicate MayClose(s: System, t: Option<Transport>) {
    t.Some? ==> s.f.transport != t && s.f.upgradeTransport != t && t.value in s.u.owned
  }

  /** A transport the session owns is in use, closed, or some goroutine has still to close it. */
  ghost predicate Accounted(s: System, t: Transport) {
    || s.f.transport == Some(t)
    || s.f.upgradeTransport == Some(t)
    || t in s.closed
    || (t in s.u.closer && s.u.closer[t] in s.threads &&
        var th := s.threads[s.u.closer[t]]; th.close1 == Some(t) || th.close2 == Some(t))
  }

  /** What the session runs on is open; what it let go of is being closed. */
  ghost predicate Ownership(s: System) {
    && (s.f.transport.Some? ==> s.f.transport.value in s.u.owned - s.closed)
    && (s.f.upgradeTransport.Some? ==> s.f.upgradeTransport.value in s.u.owned - s.closed)
    && (s.f.upgradeTransport.Some? ==> s.f.transport != s.f.upgradeTransport)
    && (forall i :: i in s.threads ==> MayClose(s, s.threads[i].close1) && MayClose(s, s.threads[i].close2))
    && s.u.owned <= s.u.used && s.closed <= s.u.used
    && (forall t :: t in s.u.owned ==> Accounted(s, t))
  }

  /** Every started upgrade is in flight or has exactly one recorded outcome. */
  ghost predicate Outcomes(s: System) {
    && s.u.resolved.Keys <= s.u.owned
    && (s.f.upgradeTransport.Some? ==> s.f.upgradeTransport.value !in s.u.resolved)
    && (forall t :: t in s.u.owned ==> t == s.u.first || t in s.u.resolved || s.f.upgradeTransport == Some(t))
    && s.u.first in s.u.owned && s.u.first !in s.u.resolved && s.f.upgradeTransport != Some(s.u.first)
    && s.u.swaps <= 1 && (s.u.swaps > 0 ==> s.u.swappedIn == Open || s.u.swappedIn == Closing)
    && (s.u.swaps == 0 && s.f.transport.Some? ==> s.f.transport == Some(s.u.first))
    && (s.u.swaps == 1 && s.f.transport.Some? ==> s.f.transport.value.Promotable?)
  }

  // ---- Stop channels and the close handler ----

  ghost predicate MayStop(s: System, i: nat, ch: Option<Chan>) {
    ch.Some? ==>
      && ch.value in s.u.chans - s.u.closedChans
      && ch.value in s.u.stopper && s.u.stopper[ch.value] == i
  }

  /** A stop channel is held by the session, or by one goroutine about to close it, or closed. */
  ghost predicate Stoppable(s: System, ch: Chan) {
    || s.f.probeNoopStop == Some(ch)
    || ch in s.u.closedChans
    || (ch in s.u.stopper && s.u.stopper[ch] in s.threads && s.threads[s.u.stopper[ch]].stop == Some(ch))
  }

  ghost predicate Channels(s: System) {
    && (s.f.probeNoopStop.Some? ==> s.f.probeNoopStop.value in s.u.chans - s.u.closedChans - s.u.stopper.Keys)
    && (forall i :: i in s.threads ==> MayStop(s, i, s.threads[i].stop))
    && s.u.stopper.Keys <= s.u.chans && s.u.closedChans <= s.u.chans
    && (forall ch :: ch in s.u.chans ==> Stoppable(s, ch))
  }

  /** The close handler has been called, or the claimer of the teardown is about to call it. */
  ghost predicate Notified(s: System) {
    && (s.f.state != Closed ==> s.u.notified == 0)
    && (forall i :: i in s.threads && s.threads[i].notify ==>
          s.f.state == Closed && s.u.notified == 0 && i == s.u.notifier)
    && (s.f.state == Closed && s.u.notified == 0 ==> s.u.notifier in s.threads && s.threads[s.u.notifier].notify)
    && s.u.notified <= 1
  }

  ghost predicate Owns(s: System) {
    Ownership(s) && Outcomes(s) && Channels(s) && Notified(s)
  }

  // ---- Steps that touch none of this ----

  /** s' differs from s in nothing the predicates above read, and goroutine i owes nothing. */
  ghost predicate Quiet(s: System, s': System, i: nat) {
    && s'.u == s.u && s'.closed == s.closed
    && s'.f.transport == s.f.transport && s'.f.upgradeTransport == s.f.upgradeTransport
    && s'.f.probeNoopStop == s.f.probeNoopStop && (s'.f.state == Closed <==> s.f.state == Closed)
    && (|| s'.threads == s.threads
        || (&& i in s'.threads && s'.threads == s.threads[i := s'.threads[i]]
            && Free(s'.threads[i]) && (i in s.threads ==> Free(s.threads[i]))))
  }

  lemma QuietKeeps(s: System, s': System, i: nat)
    requires Owns(s) && Quiet(s, s', i)
    ensures Owns(s')
  {
    assert forall t :: Accounted(s, t) ==> Accounted(s', t);
    assert forall ch :: Stoppable(s, ch) ==> Stoppable(s', ch);
  }

  lemma CallIsQuiet(s: System, e: Event) returns (i: nat)
    requires IsAppend(e) || IsPoll(e)
    ensures Quiet(s, Apply(s, e), i)
  {
    i := if e.OpenCall? || e.PongArrives? || e.WriteNoop? then 0 else e.i;
  }

  lemma SendingIsQuiet(s: System, i: nat, arm: bool, ok: bool)
    requires Flushing(s, i, arm) && (s.pc.Head? || s.pc.Sending? || s.pc.Writing?)
    ensures Quiet(s, FlushStep(s, i, arm, ok), i)
  {}

  lemma TrimmingIsQuiet(s: System, i: nat, arm: bool, ok: bool)
    requires Flushing(s, i, arm) && !(s.pc.Head? || s.pc.Sending? || s.pc.Writing?)
    requires s.pc.Trimming? || s.pc.Leaving? || s.f.state == Closed
    ensures Quiet(s, FlushStep(s, i, arm, ok), i)
  {}

  // ---- Steps that do ----

  lemma ProbeKeepsTransports(s: System, t: Transport)
    requires Base(s) && Ownership(s) && Outcomes(s)
    ensures Ownership(DoProbe(s, t)) && Outcomes(DoProbe(s, t))
  {}

  lemma ProbeKeepsSignals(s: System, t: Transport)
    requires Channels(s) && Notified(s)
    ensures Channels(DoProbe(s, t)) && Notified(DoProbe(s, t))
  {}

  lemma ProbeKeeps(s: System, t: Transport)
    requires Base(s) && Owns(s)
    ensures Owns(DoProbe(s, t))
  {
    ProbeKeepsTransports(s, t);
    ProbeKeepsSignals(s, t);
  }

  lemma ProbePingKeeps(s: System, ch: Chan)
    requires Base(s) && Owns(s)
    ensures Owns(DoProbePing(s, ch))
  {}

  lemma CompleteKeepsTransports(s: System, i: nat, t: Transport)
    requires Base(s) && Ownership(s) && Outcomes(s)
    ensures Ownership(DoComplete(s, i, t)) && Outcomes(DoComplete(s, i, t))
  {}

  lemma CompleteKeepsSignals(s: System, i: nat, t: Transport)
    requires Channels(s) && Notified(s)
    ensures Channels(DoComplete(s, i, t)) && Notified(DoComplete(s, i, t))
  {}

  lemma CompleteKeeps(s: System, i: nat, t: Transport)
    requires Base(s) && Owns(s)
    ensures Owns(DoComplete(s, i, t))
  {
    CompleteKeepsTransports(s, i, t);
    CompleteKeepsSignals(s, i, t);
  }

  lemma AbortKeepsTransports(s: System, i: nat, t: Transport)
    requires Base(s) && Ownership(s) && Outcomes(s)
    ensures Ownership(DoAbort(s, i, t)) && Outcomes(DoAbort(s, i, t))
  {}

  lemma AbortKeepsSignals(s: System, i: nat, t: Transport)
    requires Channels(s) && Notified(s)
    ensures Channels(DoAbort(s, i, t)) && Notified(DoAbort(s, i, t))
  {}

  lemma AbortKeeps(s: System, i: nat, t: Transport)
    requires Base(s) && Owns(s)
    ensures Owns(DoAbort(s, i, t))
  {
    AbortKeepsTransports(s, i, t);
    AbortKeepsSignals(s, i, t);
  }

  lemma TeardownKeepsTransports(s: System, i: nat, next: Next)
    requires Base(s) && Ownership(s) && Outcomes(s) && i in s.threads && Free(s.threads[i]) && CanTeardown(s.f)
    ensures Ownership(ClaimTeardown(s, i, next)) && Outcomes(ClaimTeardown(s, i, next))
  {}

  lemma TeardownKeepsSignals(s: System, i: nat, next: Next)
    requires Channels(s) && Notified(s) && i in s.threads && Free(s.threads[i]) && CanTeardown(s.f)
    ensures Channels(ClaimTeardown(s, i, next)) && Notified(ClaimTeardown(s, i, next))
  {}

  /** Goroutine i closed t and struck it off its obligations. */
  ghost predicate ClosedOne(s: System, s': System, i: nat, t: Transport) {
    && s'.f == s.f && s'.u == s.u && s'.closed == s.closed + {t}
    && i in s.threads && i in s'.threads && s'.threads == s.threads[i := s'.threads[i]]
    && s'.threads[i].stop == s.threads[i].stop && s'.threads[i].notify == s.threads[i].notify
    && var th, th' := s.threads[i], s'.threads[i];
       || (th.close1 == Some(t) && th'.close1 == None && th'.close2 == th.close2)
       || (th.close2 == Some(t) && th'.close2 == None && th'.close1 == th.close1)
  }

  lemma ClosedOneKeeps(s: System, s': System, i: nat, t: Transport)
    requires Owns(s) && ClosedOne(s, s', i, t)
    ensures Owns(s')
  {
    assert MayClose(s, Some(t));
    forall v | v in s'.u.owned
      ensures Accounted(s', v)
    {
      assert Accounted(s, v);
    }
    forall ch | ch in s'.u.chans
      ensures Stoppable(s', ch)
    {
      assert Stoppable(s, ch);
    }
  }

  lemma CloseClosesOne(s: System, i: nat) returns (t: Transport)
    requires i in s.threads && s.threads[i].promote.None? && s.threads[i].stop.None?
    requires s.threads[i].close1.Some? || s.threads[i].close2.Some?
    ensures ClosedOne(s, Discharge(s, i, s.threads[i]), i, t)
  {
    var th := s.threads[i];
    t := if th.close1.Some? then th.close1.value else th.close2.value;
  }

  lemma PromoteKeeps(s: System, i: nat)
    requires Owns(s) && i in s.threads && s.threads[i].promote.Some?
    ensures Owns(Discharge(s, i, s.threads[i]))
  {
  }

  lemma StopKeeps(s: System, i: nat)
    requires Owns(s) && i in s.threads && s.threads[i].promote.None? && s.threads[i].stop.Some?
    ensures Owns(Discharge(s, i, s.threads[i]))
  {}

  lemma NotifyKeeps(s: System, i: nat)
    requires Owns(s) && i in s.threads && s.threads[i].promote.None? && s.threads[i].stop.None? && s.threads[i].close1.None?
    && s.threads[i].close2.None? && s.threads[i].notify
    ensures Owns(Discharge(s, i, s.threads[i]))
  {}

  // ---- Every step ----

  lemma DischargeKeeps(s: System, i: nat)
    requires Owns(s) && i in s.threads && !Free(s.threads[i])
    ensures Owns(Discharge(s, i, s.threads[i]))
  {
    var th := s.threads[i];
    if th.promote.Some? {
      PromoteKeeps(s, i);
    } else if th.stop.Some? {
      StopKeeps(s, i);
    } else if th.close1.Some? || th.close2.Some? {
      var t := CloseClosesOne(s, i);
      ClosedOneKeeps(s, Discharge(s, i, th), i, t);
    } else {
      NotifyKeeps(s, i);
    }
  }

  /** Only threads, program counter and mutex differ: ownership does not read the last two. */
  lemma TeardownKeeps(s: System, i: nat, next: Next)
    requires Base(s) && Owns(s) && i in s.threads && Free(s.threads[i]) && CanTeardown(s.f)
    ensures Owns(ClaimTeardown(s, i, next)) && Owns(ClaimTeardown(s, i, next).(pc := Leaving))
  {
    TeardownKeepsTransports(s, i, next);
    TeardownKeepsSignals(s, i, next);
    QuietKeeps(ClaimTeardown(s, i, next), ClaimTeardown(s, i, next).(pc := Leaving), i);
  }

  lemma FlushKeeps(s: System, i: nat, arm: bool, ok: bool)
    requires Base(s) && Owns(s) && Flushing(s, i, arm)
    ensures Owns(FlushStep(s, i, arm, ok))
  {
    var s' := FlushStep(s, i, arm, ok);
    if s.pc.Head? || s.pc.Sending? || s.pc.Writing? {
      SendingIsQuiet(s, i, arm, ok);
      QuietKeeps(s, s', i);
    } else if (s.pc.Failed? || s.pc.Drained?) && CanTeardown(s.f) {
      TeardownKeeps(s, i, Unlock(arm));
    } else {
      TrimmingIsQuiet(s, i, arm, ok);
      QuietKeeps(s, s', i);
    }
  }

  lemma ContinueKeeps(s: System, i: nat, ok: bool)
    requires Base(s) && Owns(s) && i in s.threads && Free(s.threads[i])
    ensures Owns(Continue(s, i, s.threads[i].next, ok))
  {
    var next := s.threads[i].next;
    if next.Flush? && s.flusher == Some(i) {
      FlushKeeps(s, i, next.arm, ok);
    } else if next.Teardown? && CanTeardown(s.f) {
      TeardownKeeps(s, i, Return);
    } else {
      QuietKeeps(s, Continue(s, i, next, ok), i);
    }
  }

  lemma StepKeepsOwns(s: System, e: Event)
    requires Base(s) && Owns(s)
    ensures Owns(Apply(s, e))
  {
    if IsAppend(e) || IsPoll(e) {
      var i := CallIsQuiet(s, e);
      QuietKeeps(s, Apply(s, e), i);
    } else {
      match e
      case ProbeStarts(t) => ProbeKeeps(s, t);
      case ProbePing(ch) => ProbePingKeeps(s, ch);
      case UpgradeArrives(i, t) => CompleteKeeps(s, i, t);
      case AbortCall(i, t) => AbortKeeps(s, i, t);
      case Run(i, ok) =>
        if i in s.threads {
          if Free(s.threads[i]) {
            ContinueKeeps(s, i, ok);
          } else {
            DischargeKeeps(s, i);
          }
        }
    }
  }
}
