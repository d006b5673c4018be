/** No lost wakeup: packets wait in the buffer only while the transport cannot take them. */
module ServerWakeup {
  import opened Basics
  import opened ServerFields
  import opened ServerSystem
  import opened ServerBase

  /** The active transport would take packets now. */
  predicate CanTake(s: System) {
    s.f.transport.Some? && (s.f.transport.value.Promotable? || s.f.transport.value in s.held)
  }

  /** The running flush will look at the buffer again, or close the session. */
  predicate WillServe(s: System) {
    s.flusher.Some? && !s.pc.Leaving? && (s.pc.Sending? ==> s.f.transport == Some(s.pc.via))
  }

  /** A goroutine other than the running flush has a flush to do. */
  predicate Owed(s: System) {
    s.w.waker in s.threads && s.threads[s.w.waker].next.Flush? && s.flusher != Some(s.w.waker)
  }

  ghost predicate Wakeup(s: System) {
    s.f.state != Closed && s.f.writeBuffer != [] && CanTake(s) ==> WillServe(s) || Owed(s)
  }

  lemma CallKeeps(s: System, e: Event)
    requires Base(s) && Wakeup(s) && (IsAppend(e) || IsPoll(e))
    ensures Wakeup(Apply(s, e))
  {}

  lemma UpgradeKeeps(s: System, e: Event)
    requires Base(s) && Wakeup(s) && (IsProbe(e) || e.UpgradeArrives?)
    ensures Wakeup(Apply(s, e))
  {}

  lemma DischargeKeeps(s: System, i: nat)
    requires Base(s) && Wakeup(s) && i in s.threads && !Free(s.threads[i])
    ensures Wakeup(Discharge(s, i, s.threads[i]))
  {
    DischargeShape(s, i);
  }

  lemma SendingKeeps(s: System, i: nat, arm: bool, ok: bool)
    requires Wakeup(s) && Flushing(s, i, arm) && (s.pc.Head? || s.pc.Sending?)
    requires s.f.transport.Some? ==> s.f.transport.value !in s.closed
    ensures Wakeup(FlushStep(s, i, arm, ok))
  {}

  lemma TrimmingKeeps(s: System, i: nat, arm: bool, ok: bool)
    requires Base(s) && Wakeup(s) && Flushing(s, i, arm) && !(s.pc.Head? || s.pc.Sending?)
    ensures Wakeup(FlushStep(s, i, arm, ok))
  {}

  lemma ContinueKeeps(s: System, i: nat, ok: bool)
    requires Base(s) && Wakeup(s) && i in s.threads && Free(s.threads[i])
    requires s.f.transport.Some? ==> s.f.transport.value !in s.closed
    ensures Wakeup(Continue(s, i, s.threads[i].next, ok))
  {
    var next := s.threads[i].next;
    if next.Flush? && s.flusher == Some(i) {
      if s.pc.Head? || s.pc.Sending? {
        SendingKeeps(s, i, next.arm, ok);
      } else {
        TrimmingKeeps(s, i, next.arm, ok);
      }
    }
  }

  lemma StepKeepsWakeup(s: System, e: Event)
    requires Base(s) && Wakeup(s)
    requires s.f.transport.Some? ==> s.f.transport.value !in s.closed
    ensures Wakeup(Apply(s, e))
  {
    if IsAppend(e) || IsPoll(e) {
      CallKeeps(s, e);
    } else if !e.Run? {
      UpgradeKeeps(s, e);
    } else if e.i in s.threads {
      if Free(s.threads[e.i]) {
        ContinueKeeps(s, e.i, e.ok);
      } else {
        DischargeKeeps(s, e.i);
      }
    }
  }
}
