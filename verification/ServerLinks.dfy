/** What a peer can tell from the outside: which probe is promoted, and what answers its polls. */
module ServerLinks {
  import opened Basics
  import opened Packets
  import opened ServerFields
  import opened ServerSystem
  import opened ServerBase
  import opened ServerWrites
  import opened ServerUpgrades

  // ---- Promotion ----

  /** A probe stops probing only after it was completed, by the goroutine that completed it. */
  ghost predicate Promotion(s: System) {
    && (forall i :: i in s.threads && s.threads[i].promote.Some? ==>
          s.threads[i].promote == Some(s.u.active) && i == s.u.completer && s.u.swaps == 1)
    && (forall t :: t in s.u.owned && t != s.u.first ==>
          t in s.probing || (t in s.u.resolved && s.u.resolved[t] == Completed))
    && (forall t :: t in s.u.resolved && s.u.resolved[t] == Completed ==>
          && t == s.u.active && s.u.swaps == 1 && s.u.completer in s.threads
          && (t in s.probing ==> s.threads[s.u.completer].promote == Some(t)))
    && (s.u.swaps == 0 ==> s.u.active == s.u.first)
    && (s.u.swaps >= 1 ==> s.u.active in s.u.resolved && s.u.resolved[s.u.active] == Completed)
  }

  /** s' moved no probe and promoted nothing; goroutine i has nothing to promote. */
  ghost predicate SamePromotion(s: System, s': System, i: nat) {
    && s'.probing == s.probing && s'.u.owned == s.u.owned && s'.u.first == s.u.first
    && s'.u.resolved == s.u.resolved && s'.u.active == s.u.active && s'.u.swaps == s.u.swaps
    && s'.u.completer == s.u.completer
    && (|| s'.threads == s.threads
        || (&& i in s'.threads && s'.threads == s.threads[i := s'.threads[i]]
            && s'.threads[i].promote == None && (i in s.threads ==> s.threads[i].promote == None)))
  }

  lemma SameKeepsPromotion(s: System, s': System, i: nat)
    requires Promotion(s) && SamePromotion(s, s', i)
    ensures Promotion(s')
  {}

  lemma CallIsSame(s: System, e: Event) returns (i: nat)
    requires IsAppend(e) || IsPoll(e) || e.ProbePing?
    ensures SamePromotion(s, Apply(s, e), i)
  {
    i := if e.OpenCall? || e.PongArrives? || e.WriteNoop? || e.ProbePing? then 0 else e.i;
  }

  lemma FlushIsSame(s: System, i: nat, arm: bool, ok: bool)
    requires Flushing(s, i, arm) && (s.f.state == Closed || !(s.pc.Failed? || s.pc.Drained?))
    ensures SamePromotion(s, FlushStep(s, i, arm, ok), i)
  {
    if s.pc.Head? || s.pc.Sending? || s.pc.Writing? {
      SendingIsQuiet(s, i, arm, ok);
    } else {
      TrimmingIsQuiet(s, i, arm, ok);
    }
    assert FlushStep(s, i, arm, ok).probing == s.probing;
  }

  lemma DischargeIsSame(s: System, i: nat)
    requires i in s.threads && !Free(s.threads[i]) && s.threads[i].promote.None?
    ensures SamePromotion(s, Discharge(s, i, s.threads[i]), i)
  {}

  lemma PromoteKeepsPromotion(s: System, i: nat)
    requires Promotion(s) && i in s.threads && s.threads[i].promote.Some?
    ensures Promotion(Discharge(s, i, s.threads[i]))
  {}

  lemma ProbeKeepsPromotion(s: System, t: Transport)
    requires Owns(s) && Promotion(s)
    ensures Promotion(DoProbe(s, t))
  {}

  lemma CompleteKeepsPromotion(s: System, i: nat, t: Transport)
    requires Base(s) && Owns(s) && Promotion(s)
    ensures Promotion(DoComplete(s, i, t))
  {}

  lemma AbortKeepsPromotion(s: System, i: nat, t: Transport)
    requires Owns(s) && Promotion(s)
    ensures Promotion(DoAbort(s, i, t))
  {}

  lemma TeardownKeepsPromotion(s: System, i: nat, next: Next)
    requires Owns(s) && Promotion(s) && i in s.threads && Free(s.threads[i])
    ensures Promotion(ClaimTeardown(s, i, next)) && Promotion(ClaimTeardown(s, i, next).(pc := Leaving))
  {}

  lemma FlushKeepsPromotion(s: System, i: nat, arm: bool, ok: bool)
    requires Owns(s) && Promotion(s) && Flushing(s, i, arm)
    ensures Promotion(FlushStep(s, i, arm, ok))
  {
    if (s.pc.Failed? || s.pc.Drained?) && CanTeardown(s.f) {
      TeardownKeepsPromotion(s, i, Unlock(arm));
    } else {
      FlushIsSame(s, i, arm, ok);
      SameKeepsPromotion(s, FlushStep(s, i, arm, ok), i);
    }
  }

  lemma ContinueKeepsPromotion(s: System, i: nat, ok: bool)
    requires Owns(s) && Promotion(s) && i in s.threads && Free(s.threads[i])
    ensures Promotion(Continue(s, i, s.threads[i].next, ok))
  {
    var next := s.threads[i].next;
    if next.Flush? && s.flusher == Some(i) {
      FlushKeepsPromotion(s, i, next.arm, ok);
    } else if next.Teardown? && CanTeardown(s.f) {
      TeardownKeepsPromotion(s, i, Return);
    } else {
      SameKeepsPromotion(s, Continue(s, i, next, ok), i);
    }
  }

  lemma StepKeepsPromotion(s: System, e: Event)
    requires Base(s) && Owns(s) && Promotion(s)
    ensures Promotion(Apply(s, e))
  {
    if IsAppend(e) || IsPoll(e) || e.ProbePing? {
      var i := CallIsSame(s, e);
      SameKeepsPromotion(s, Apply(s, e), i);
    } else {
      match e
      case ProbeStarts(t) => ProbeKeepsPromotion(s, t);
      case UpgradeArrives(i, t) => CompleteKeepsPromotion(s, i, t);
      case AbortCall(i, t) => AbortKeepsPromotion(s, i, t);
      case Run(i, ok) =>
        if i in s.threads {
          if Free(s.threads[i]) {
            ContinueKeepsPromotion(s, i, ok);
          } else if s.threads[i].promote.Some? {
            PromoteKeepsPromotion(s, i);
          } else {
            DischargeIsSame(s, i);
            SameKeepsPromotion(s, Apply(s, e), i);
          }
        }
    }
  }

  // ---- Poll answers ----

  ghost predicate NoClose(ps: seq<Packet>) {
    forall k :: 0 <= k < |ps| ==> ps[k].ptype != CLOSE
  }

  /** Only the first transport can be polling; no answer is empty; a Close is not sent before closing or switching. */
  ghost predicate Polls(s: System) {
    && (forall t :: t in s.u.used && t.Polling? ==> t == s.u.first)
    && (forall t :: t in s.held ==> t.Polling? && t in s.u.used && t !in s.closed)
    && (s.flusher.Some? && s.pc.Sending? ==> s.pc.packets != [])
    && (forall k :: 0 <= k < |s.w.polls| ==> s.w.polls[k] != [])
    && (CanSend(s.f) && s.u.swaps == 0 ==> forall k :: 0 <= k < |s.w.polls| ==> NoClose(s.w.polls[k]))
  }

  /** s' left the held poll alone, or answered it. */
  ghost predicate AtMostOneAnswer(s: System, s': System) {
    || (s'.held == s.held && s'.w.polls == s.w.polls)
    || (&& s.u.first in s.held && s'.held == s.held - {s.u.first}
        && |s'.w.polls| == |s.w.polls| + 1 && s'.w.polls[..|s.w.polls|] == s.w.polls)
  }

  lemma CallKeepsPolls(s: System, e: Event)
    requires Polls(s) && (IsAppend(e) || IsPoll(e))
    ensures Polls(Apply(s, e))
    ensures !e.HoldPoll? && !e.ReleasePoll? ==> AtMostOneAnswer(s, Apply(s, e))
  {}

  lemma ProbeKeepsPolls(s: System, e: Event)
    requires Owns(s) && Polls(s) && IsProbe(e)
    ensures Polls(Apply(s, e)) && AtMostOneAnswer(s, Apply(s, e))
  {}

  lemma CompleteKeepsPolls(s: System, i: nat, t: Transport)
    requires Polls(s)
    ensures Polls(DoComplete(s, i, t)) && AtMostOneAnswer(s, DoComplete(s, i, t))
  {}

  lemma UpgradeKeepsPolls(s: System, e: Event)
    requires Owns(s) && Polls(s) && (IsProbe(e) || e.UpgradeArrives?)
    ensures Polls(Apply(s, e)) && AtMostOneAnswer(s, Apply(s, e))
  {
    if IsProbe(e) {
      ProbeKeepsPolls(s, e);
    } else {
      CompleteKeepsPolls(s, e.i, e.t);
    }
  }

  lemma CloseKeepsPolls(s: System, t: Transport)
    requires Base(s) && Owns(s) && Polls(s) && MayClose(s, Some(t))
    ensures Polls(CloseTransport(s, t)) && AtMostOneAnswer(s, CloseTransport(s, t))
  {}

  lemma DischargeKeepsPolls(s: System, i: nat)
    requires Base(s) && Owns(s) && Polls(s) && i in s.threads && !Free(s.threads[i])
    ensures var s' := Discharge(s, i, s.threads[i]); Polls(s') && AtMostOneAnswer(s, s')
  {
    var th := s.threads[i];
    if th.promote.None? && th.stop.None? && (th.close1.Some? || th.close2.Some?) {
      CloseKeepsPolls(s, if th.close1.Some? then th.close1.value else th.close2.value);
    }
  }

  lemma SendingKeepsPolls(s: System, i: nat, arm: bool, ok: bool)
    requires Writes(s) && Polls(s) && Flushing(s, i, arm) && s.pc.Sending?
    ensures var s' := FlushStep(s, i, arm, ok); Polls(s') && AtMostOneAnswer(s, s')
  {
    if CanSend(s.f) {
      TakenHasNoClose(s);
    }
    SendingShape(s, i, arm, ok);
    SendingPolls(s, FlushStep(s, i, arm, ok));
  }

  lemma TakenHasNoClose(s: System)
    requires Conserved(s) && Closes(s) && s.flusher.Some? && s.pc.Sending? && CanSend(s.f)
    ensures NoClose(s.pc.packets)
  {
    var n, ps := |s.w.trimmed|, s.pc.packets;
    forall k | 0 <= k < |ps|
      ensures ps[k].ptype != CLOSE
    {
      assert ps[k] == (s.w.trimmed + ps)[n + k] == s.w.appended[n + k];
    }
  }

  /** A send leaves the polls alone, or answers the held one with its packets. */
  ghost predicate SentOnce(s: System, s': System) {
    && s'.u == s.u && s'.f == s.f && s'.closed == s.closed && (s'.flusher.Some? ==> !s'.pc.Sending?)
    && (|| (s'.held == s.held && s'.w.polls == s.w.polls)
        || (&& s.pc.Sending? && s.pc.via in s.held && s'.held == s.held - {s.pc.via}
            && s'.w.polls == s.w.polls + [s.pc.packets]))
  }

  lemma SendingShape(s: System, i: nat, arm: bool, ok: bool)
    requires Flushing(s, i, arm) && s.pc.Sending?
    ensures SentOnce(s, FlushStep(s, i, arm, ok))
  {}

  lemma SendingPolls(s: System, s': System)
    requires Polls(s) && s.flusher.Some? && s.pc.Sending? && SentOnce(s, s')
    requires CanSend(s.f) ==> NoClose(s.pc.packets)
    ensures Polls(s') && AtMostOneAnswer(s, s')
  {}

  /** s' held, answered and closed nothing. */
  ghost predicate SamePolls(s: System, s': System) {
    && s'.held == s.held && s'.w.polls == s.w.polls && s'.closed == s.closed
    && s'.u.used == s.u.used && s'.u.first == s.u.first && s'.u.swaps == s.u.swaps
    && (CanSend(s'.f) ==> CanSend(s.f))
    && (s'.flusher.Some? && s'.pc.Sending? ==> s'.pc.packets != [] || (s.flusher == s'.flusher && s.pc == s'.pc))
  }

  lemma FlushIsSamePolls(s: System, i: nat, arm: bool, ok: bool)
    requires Flushing(s, i, arm) && !s.pc.Sending?
    ensures SamePolls(s, FlushStep(s, i, arm, ok))
  {}

  lemma ContinueKeepsPolls(s: System, i: nat, ok: bool)
    requires Polls(s) && i in s.threads && Free(s.threads[i])
    requires !(s.threads[i].next.Flush? && s.flusher == Some(i) && s.pc.Sending?)
    ensures var s' := Continue(s, i, s.threads[i].next, ok); Polls(s') && AtMostOneAnswer(s, s')
  {
    var next := s.threads[i].next;
    if next.Flush? && s.flusher == Some(i) {
      FlushIsSamePolls(s, i, next.arm, ok);
    }
    assert SamePolls(s, Continue(s, i, next, ok));
  }

  lemma StepKeepsPolls(s: System, e: Event)
    requires Base(s) && Owns(s) && Writes(s) && Polls(s)
    ensures Polls(Apply(s, e))
    ensures !e.HoldPoll? && !e.ReleasePoll? ==> AtMostOneAnswer(s, Apply(s, e))
  {
    if IsAppend(e) || IsPoll(e) {
      CallKeepsPolls(s, e);
    } else if !e.Run? {
      UpgradeKeepsPolls(s, e);
    } else if e.i in s.threads {
      if !Free(s.threads[e.i]) {
        DischargeKeepsPolls(s, e.i);
      } else if s.threads[e.i].next.Flush? && s.flusher == Some(e.i) && s.pc.Sending? {
        SendingKeepsPolls(s, e.i, s.threads[e.i].next.arm, e.ok);
      } else {
        ContinueKeepsPolls(s, e.i, e.ok);
      }
    }
  }
}
