/** Everything the server puts on the network was queued, or is a bare close or noop. */
module ServerQueue {
  import opened Basics
  import opened Packets
  import opened ServerFields
  import opened ServerSystem
  import opened ServerBase
  import opened ServerWrites

  ghost predicate FromQueue(p: Packet, w: WriteLog) {
    p in w.appended || p == ClosePacket || p == NoopPacket
  }

  ghost predicate AllFromQueue(ps: seq<Packet>, w: WriteLog) {
    forall k :: 0 <= k < |ps| ==> FromQueue(ps[k], w)
  }

  ghost predicate OnlyQueued(w: WriteLog) {
    && (forall k :: 0 <= k < |w.polls| ==> AllFromQueue(w.polls[k], w))
    && (forall k :: 0 <= k < |w.frames| ==> FromQueue(w.frames[k].packet, w))
  }

  /** w' has at most one more poll answer or frame than w, taken from ps. */
  ghost predicate Puts(w: WriteLog, w': WriteLog, ps: seq<Packet>) {
    && w.appended <= w'.appended
    && (w'.polls == w.polls || w'.polls == w.polls + [ps])
    && (|| w'.frames == w.frames
        || (|w'.frames| == |w.frames| + 1 && w'.frames[..|w.frames|] == w.frames && w'.frames[|w.frames|].packet in ps))
  }

  lemma PutsKeeps(w: WriteLog, w': WriteLog, ps: seq<Packet>)
    requires OnlyQueued(w) && Puts(w, w', ps) && AllFromQueue(ps, w)
    ensures OnlyQueued(w')
  {
    forall k | 0 <= k < |w'.frames|
      ensures FromQueue(w'.frames[k].packet, w')
    {
      if k < |w.frames| {
        assert w'.frames[k] == w'.frames[..|w.frames|][k] == w.frames[k];
      }
    }
  }

  lemma FlushPuts(s: System, i: nat, arm: bool, ok: bool)
    requires Flushing(s, i, arm)
    ensures Puts(s.w, FlushStep(s, i, arm, ok).w, if s.pc.Sending? || s.pc.Writing? then s.pc.packets else [])
  {}

  lemma TakenFromQueue(s: System)
    requires Conserved(s) && s.flusher.Some? && (s.pc.Sending? || s.pc.Writing?)
    ensures AllFromQueue(s.pc.packets, s.w)
  {
    var n := |s.w.trimmed|;
    forall k | 0 <= k < |s.pc.packets|
      ensures s.pc.packets[k] in s.w.appended
    {
      assert s.w.appended[n + k] == (s.w.trimmed + s.pc.packets)[n + k];
    }
  }

  lemma FlushQueued(s: System, i: nat, arm: bool, ok: bool)
    requires Conserved(s) && OnlyQueued(s.w) && Flushing(s, i, arm)
    ensures OnlyQueued(FlushStep(s, i, arm, ok).w)
  {
    FlushPuts(s, i, arm, ok);
    if s.pc.Sending? || s.pc.Writing? {
      TakenFromQueue(s);
    }
    PutsKeeps(s.w, FlushStep(s, i, arm, ok).w, if s.pc.Sending? || s.pc.Writing? then s.pc.packets else []);
  }

  lemma StillQueued(s: System, s': System)
    requires OnlyQueued(s.w) && Still(s, s')
    ensures OnlyQueued(s'.w)
  {
    PutsKeeps(s.w, s'.w, if s'.w.polls == s.w.polls + [[ClosePacket]] then [ClosePacket] else [NoopPacket]);
  }

  lemma ContinueQueued(s: System, i: nat, next: Next, ok: bool)
    requires Conserved(s) && OnlyQueued(s.w) && i in s.threads && Free(s.threads[i]) && s.threads[i].next == next
    ensures OnlyQueued(Continue(s, i, next, ok).w)
  {
    if next.Flush? && s.flusher == Some(i) {
      FlushQueued(s, i, next.arm, ok);
    }
  }

  lemma StepQueued(s: System, e: Event)
    requires Conserved(s) && OnlyQueued(s.w)
    ensures OnlyQueued(Apply(s, e).w)
  {
    var s' := Apply(s, e);
    if IsAppend(e) {
      if s' != s {
        AppendIsAppended(s, e);
        PutsKeeps(s.w, s'.w, []);
      }
    } else if IsPoll(e) {
      PollIsStill(s, e);
      StillQueued(s, s');
    } else if IsProbe(e) {
      ProbeIsStill(s, e);
      StillQueued(s, s');
    } else if e.UpgradeArrives? {
      CompleteIsStill(s, e.i, e.t);
      StillQueued(s, s');
    } else if e.i in s.threads {
      if Free(s.threads[e.i]) {
        ContinueQueued(s, e.i, s.threads[e.i].next, e.ok);
      } else {
        DischargeIsStill(s, e.i);
        StillQueued(s, s');
      }
    }
  }

  lemma ContinueAppends(s: System, i: nat, next: Next, ok: bool)
    ensures Continue(s, i, next, ok).w.appended == s.w.appended
  {
    if next.Flush? {
      FlushShape(s, i, next.arm, ok);
    }
  }

  lemma StepAppends(s: System, e: Event)
    ensures s.w.appended <= Apply(s, e).w.appended
  {
    var s' := Apply(s, e);
    if IsAppend(e) {
      if s' != s {
        AppendIsAppended(s, e);
      }
    } else if IsPoll(e) {
      PollIsStill(s, e);
    } else if IsProbe(e) {
      ProbeIsStill(s, e);
    } else if e.UpgradeArrives? {
      CompleteIsStill(s, e.i, e.t);
    } else if e.i in s.threads {
      if Free(s.threads[e.i]) {
        ContinueAppends(s, e.i, s.threads[e.i].next, e.ok);
      } else {
        DischargeIsStill(s, e.i);
      }
    }
  }
}
