/**
 * What the step proofs share: who may be inside flush, and what the steps that are no
 * flush steps leave alone.
 */
module ServerBase {
  import opened Basics
  import opened Packets
  import opened ServerFields
  import opened ServerSystem

  /** flushMu has one holder, and only it runs flush code. */
  ghost predicate FlushMutex(s: System) {
    && (s.flusher.Some? ==>
          && s.flusher.value in s.threads
          && var th := s.threads[s.flusher.value];
             if s.pc.Leaving? then th.next.Unlock? && s.f.state == Closed else Free(th) && th.next.Flush?)
    && (forall i :: i in s.threads && s.threads[i].next.Unlock? ==> s.flusher == Some(i) && s.pc.Leaving?)
    && (s.flusher.Some? && s.pc.Writing? ==> s.pc.via.Promotable?)
  }

  ghost predicate Base(s: System) {
    Consistent(s.f) && FlushMutex(s)
  }

  /** Goroutine i holds flushMu and is inside the flush loop. */
  ghost predicate Flushing(s: System, i: nat, arm: bool) {
    s.flusher == Some(i) && i in s.threads && Free(s.threads[i]) && s.threads[i].next == Flush(arm)
  }

  // ---- Steps outside flush ----

  predicate IsAppend(e: Event) {
    e.SendMessage? || e.CloseCall? || e.PingTimer?
  }

  predicate IsPoll(e: Event) {
    e.OpenCall? || e.PongArrives? || e.CloseWithReason? || e.HoldPoll? || e.ReleasePoll? || e.WriteNoop?
  }

  predicate IsProbe(e: Event) {
    e.ProbeStarts? || e.ProbePing? || e.AbortCall?
  }

  /** Meeting an obligation changes no field of the session, and nothing of the flush. */
  lemma DischargeShape(s: System, i: nat)
    requires i in s.threads && !Free(s.threads[i])
    ensures var s' := Discharge(s, i, s.threads[i]);
            && s'.f == s.f && s'.flusher == s.flusher && s'.pc == s.pc
            && i in s'.threads && s'.threads == s.threads[i := s'.threads[i]]
            && s'.threads[i].next == s.threads[i].next
  {}

  /** s' wrote, appended and trimmed nothing; at most it answered a poll with one packet that is no message. */
  ghost predicate Still(s: System, s': System) {
    && s'.flusher == s.flusher && s'.pc == s.pc && s'.f.writeBuffer == s.f.writeBuffer
    && s'.w.appended == s.w.appended && s'.w.trimmed == s.w.trimmed
    && s'.w.handed == s.w.handed && s'.w.frames == s.w.frames
    && (|| s'.w.polls == s.w.polls
        || s'.w.polls == s.w.polls + [[ClosePacket]]
        || s'.w.polls == s.w.polls + [[NoopPacket]])
    && (s'.f.state == s.f.state || (s.f.state == Opening && s'.f.state == Open))
    && (s.f.closeTimer ==> s'.f.closeTimer)
    && s'.w.armer == s.w.armer
    && (s.w.armer in s.threads ==> s.w.armer in s'.threads && s'.threads[s.w.armer].next == s.threads[s.w.armer].next)
  }

  ghost predicate SameTransport(s: System, s': System) {
    s'.f.transport == s.f.transport && s'.u.active == s.u.active
  }

  lemma PollIsStill(s: System, e: Event)
    requires IsPoll(e)
    ensures Still(s, Apply(s, e)) && SameTransport(s, Apply(s, e))
  {}

  lemma ProbeIsStill(s: System, e: Event)
    requires IsProbe(e)
    ensures Still(s, Apply(s, e)) && SameTransport(s, Apply(s, e))
  {}

  lemma CompleteIsStill(s: System, i: nat, t: Transport)
    ensures Still(s, DoComplete(s, i, t))
  {}

  lemma DischargeIsStill(s: System, i: nat)
    requires i in s.threads && !Free(s.threads[i])
    ensures var s' := Discharge(s, i, s.threads[i]); Still(s, s') && SameTransport(s, s')
  {}

  /** s' queued one packet. */
  ghost predicate Appended(s: System, s': System, p: Packet) {
    && CanSend(s.f) && s'.f.state == (if p == ClosePacket then Closing else s.f.state)
    && (p == ClosePacket || p.ptype != CLOSE)
    && s'.flusher == s.flusher && s'.pc == s.pc && s'.f.writeBuffer == s.f.writeBuffer + [p]
    && s'.w.appended == s.w.appended + [p] && s'.w.trimmed == s.w.trimmed
    && s'.w.handed == s.w.handed && s'.w.frames == s.w.frames && s'.w.polls == s.w.polls
    && SameTransport(s, s')
    && (p == ClosePacket ==> s'.w.armer in s'.threads && s'.threads[s'.w.armer].next == Flush(true))
  }

  lemma AppendIsAppended(s: System, e: Event)
    requires IsAppend(e) && Apply(s, e) != s
    ensures Appended(s, Apply(s, e), if e.SendMessage? then Packet(MESSAGE, e.data, e.isBinary)
                                     else if e.CloseCall? then ClosePacket else PingPacket)
  {}

  /** A flush step queues nothing, and touches transports and upgrades only by tearing down. */
  lemma FlushShape(s: System, i: nat, arm: bool, ok: bool)
    ensures var s' := FlushStep(s, i, arm, ok);
            && s'.w.appended == s.w.appended
            && (s'.f.state == s.f.state || s'.f.state == Closed)
            && (s'.u == s.u || (CanTeardown(s.f) && s'.u == ClaimTeardown(s, i, Unlock(arm)).u))
  {}

  // ---- Base is kept ----

  lemma AppendKeepsBase(s: System, e: Event)
    requires Base(s) && IsAppend(e)
    ensures Base(Apply(s, e))
  {}

  lemma CallKeepsBase(s: System, e: Event)
    requires Base(s) && (IsAppend(e) || IsPoll(e))
    ensures Base(Apply(s, e))
  {
    if IsAppend(e) {
      AppendKeepsBase(s, e);
    }
  }

  lemma UpgradeKeepsBase(s: System, e: Event)
    requires Base(s) && (IsProbe(e) || e.UpgradeArrives?)
    ensures Base(Apply(s, e))
  {}

  lemma SendingKeepsBase(s: System, i: nat, arm: bool, ok: bool)
    requires Base(s) && Flushing(s, i, arm) && (s.pc.Head? || s.pc.Sending? || s.pc.Writing?)
    ensures Base(FlushStep(s, i, arm, ok))
  {}

  lemma TrimmingKeepsBase(s: System, i: nat, arm: bool, ok: bool)
    requires Base(s) && Flushing(s, i, arm) && !(s.pc.Head? || s.pc.Sending? || s.pc.Writing?)
    ensures Base(FlushStep(s, i, arm, ok))
  {}

  lemma FlushKeepsBase(s: System, i: nat, ok: bool)
    requires Base(s) && i in s.threads && Free(s.threads[i]) && s.threads[i].next.Flush?
    ensures Base(Continue(s, i, s.threads[i].next, ok))
  {
    if s.flusher == Some(i) {
      if s.pc.Head? || s.pc.Sending? || s.pc.Writing? {
        SendingKeepsBase(s, i, s.threads[i].next.arm, ok);
      } else {
        TrimmingKeepsBase(s, i, s.threads[i].next.arm, ok);
      }
    }
  }

  lemma ContinueKeepsBase(s: System, i: nat, ok: bool)
    requires Base(s) && i in s.threads && Free(s.threads[i])
    ensures Base(Continue(s, i, s.threads[i].next, ok))
  {
    if s.threads[i].next.Flush? {
      FlushKeepsBase(s, i, ok);
    }
  }

  lemma StepKeepsBase(s: System, e: Event)
    requires Base(s)
    ensures Base(Apply(s, e))
  {
    if IsAppend(e) || IsPoll(e) {
      CallKeepsBase(s, e);
    } else if !e.Run? {
      UpgradeKeepsBase(s, e);
    } else if e.i in s.threads {
      if Free(s.threads[e.i]) {
        ContinueKeepsBase(s, e.i, e.ok);
      } else {
        DischargeShape(s, e.i);
      }
    }
  }
}
