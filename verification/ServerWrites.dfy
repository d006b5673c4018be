/** The write path: from Send to the transports, whatever the interleaving. */
module ServerWrites {
  import opened Basics
  import opened Packets
  import opened ServerFields
  import opened ServerSystem
  import opened ServerBase

  // ---- Conservation: appended = handed off ++ buffered ----

  /** The packets a running flush took from the buffer. */
  function Taken(s: System): seq<Packet> {
    if s.flusher.None? then []
    else match s.pc
      case Sending(_, packets) => packets
      case Writing(_, packets, _) => packets
      case Trimming(packets) => packets
      case Failed(partial) => partial
      case _ => []
  }

  /** The part of those already handed to a transport. */
  function InFlight(s: System): seq<Packet> {
    if s.flusher.None? then []
    else match s.pc
      case Writing(_, packets, written) => if written <= |packets| then packets[..written] else packets
      case Trimming(packets) => packets
      case Failed(partial) => partial
      case _ => []
  }

  /** The flush loop is between taking packets and dropping them from the buffer. */
  predicate Busy(s: System) {
    s.flusher.Some? && !s.pc.Leaving? && !s.pc.Head?
  }

  /** Nothing is lost, repeated or reordered between the buffer and the transports. */
  ghost predicate Conserved(s: System) {
    && (s.f.state != Closed ==>
          && s.w.appended == s.w.trimmed + s.f.writeBuffer
          && Taken(s) <= s.f.writeBuffer
          && s.w.handed == s.w.trimmed + InFlight(s))
    && s.w.handed <= s.w.appended
    && (Busy(s) ==> s.w.handed == s.w.trimmed + InFlight(s) && s.w.trimmed + Taken(s) <= s.w.appended)
    && (Busy(s) && s.pc.Writing? ==> s.pc.written <= |s.pc.packets|)
    && (Busy(s) && s.pc.Drained? ==> s.w.trimmed == s.w.appended && !CanSend(s.f))
  }

  lemma StillConserved(s: System, s': System)
    requires Conserved(s) && Still(s, s')
    ensures Conserved(s')
  {}

  lemma AppendConserved(s: System, s': System, p: Packet)
    requires Conserved(s) && Appended(s, s', p)
    ensures Conserved(s')
  {}

  lemma TeardownConserved(s: System, i: nat, next: Next)
    requires Conserved(s) && CanTeardown(s.f)
    ensures Conserved(ClaimTeardown(s, i, next)) && Conserved(ClaimTeardown(s, i, next).(pc := Leaving))
  {}

  lemma ExitConserved(s: System, i: nat, arm: bool)
    requires Conserved(s) && (s.f.state == Closed || InFlight(s) == [])
    ensures Conserved(ExitFlush(s, i, arm))
  {}

  lemma SendingConserved(s: System, i: nat, arm: bool, ok: bool)
    requires Conserved(s) && Flushing(s, i, arm) && (s.pc.Head? || s.pc.Sending?)
    ensures Conserved(FlushStep(s, i, arm, ok))
  {
    ExitConserved(s, i, arm);
  }

  lemma WritingConserved(s: System, i: nat, arm: bool, ok: bool)
    requires Conserved(s) && Flushing(s, i, arm) && s.pc.Writing?
    ensures Conserved(FlushStep(s, i, arm, ok))
  {
    var packets, k := s.pc.packets, s.pc.written;
    if k < |packets| {
      assert packets[..k + 1] == packets[..k] + [packets[k]];
      assert s.w.trimmed + packets[..k + 1] <= s.w.trimmed + packets;
    } else {
      assert packets[..k] == packets;
    }
  }

  lemma TrimmingConserved(s: System, i: nat, arm: bool, ok: bool)
    requires Conserved(s) && Flushing(s, i, arm) && s.pc.Trimming?
    ensures Conserved(FlushStep(s, i, arm, ok))
  {}

  lemma LeavingConserved(s: System, i: nat, arm: bool, ok: bool)
    requires Conserved(s) && Flushing(s, i, arm) && (s.pc.Failed? || s.pc.Drained? || s.pc.Leaving?)
    ensures Conserved(FlushStep(s, i, arm, ok))
  {
    if CanTeardown(s.f) {
      TeardownConserved(s, i, Unlock(arm));
    } else {
      ExitConserved(s, i, arm);
    }
  }

  // ---- Streams: first poll answers, then the frames of one transport ----

  /** The transport a running flush is writing to. */
  function Via(s: System): Option<Transport> {
    if s.flusher.Some? && (s.pc.Sending? || s.pc.Writing?) then Some(s.pc.via) else None
  }

  function FramePackets(frames: seq<Frame>): seq<Packet> {
    if frames == [] then [] else [frames[0].packet] + FramePackets(frames[1..])
  }

  lemma {:induction false} FramePacketsAppend(a: seq<Frame>, b: seq<Frame>)
    ensures FramePackets(a + b) == FramePackets(a) + FramePackets(b)
  {
    if a == [] {
      assert a + b == b;
    } else {
      assert (a + b)[1..] == a[1..] + b;
      FramePacketsAppend(a[1..], b);
    }
  }

  /** The messages handed off are those of the poll answers followed by those of the frames. */
  ghost predicate Split(w: WriteLog) {
    Messages(w.handed) == Messages(Flat(w.polls)) + Messages(FramePackets(w.frames))
  }

  ghost predicate Streams(s: System) {
    && Split(s.w)
    && (s.f.transport.Some? ==> s.f.transport.value == s.u.active)
    && (s.u.active.Polling? ==> s.w.frames == [])
    && (Via(s).Some? ==> Via(s).value == s.u.active || Via(s).value.Polling?)
    && (Via(s).Some? && Via(s).value.Polling? ==> s.w.frames == [])
    && (forall k :: 0 <= k < |s.w.frames| ==> s.w.frames[k].via == s.u.active)
  }

  /** s' wrote nothing and runs on the same transport as s. */
  ghost predicate SameStreams(s: System, s': System) {
    && s'.w.handed == s.w.handed && s'.w.polls == s.w.polls && s'.w.frames == s.w.frames
    && s'.u.active == s.u.active
    && (s'.f.transport == s.f.transport || s'.f.transport == None)
    && (Via(s') == Via(s) || Via(s') == None)
  }

  lemma SameStreamsKept(s: System, s': System)
    requires Streams(s) && SameStreams(s, s')
    ensures Streams(s')
  {}

  lemma StillSplit(s: System, s': System)
    requires Split(s.w) && Still(s, s')
    ensures Split(s'.w)
  {
    if s'.w.polls != s.w.polls {
      var p := if s'.w.polls == s.w.polls + [[ClosePacket]] then ClosePacket else NoopPacket;
      FlatSnoc(s.w.polls, [p]);
      MessagesAppend(Flat(s.w.polls), [p]);
      MessagesOne(p);
    }
  }

  lemma StillStreams(s: System, s': System)
    requires Streams(s) && Still(s, s') && SameTransport(s, s')
    ensures Streams(s')
  {
    StillSplit(s, s');
  }

  lemma CompleteStreams(s: System, i: nat, t: Transport)
    requires Base(s) && Streams(s)
    ensures Streams(DoComplete(s, i, t))
  {}

  lemma PollAnswered(w: WriteLog, packets: seq<Packet>)
    requires Split(w) && w.frames == []
    ensures Split(w.(handed := w.handed + packets, polls := w.polls + [packets]))
  {
    FlatSnoc(w.polls, packets);
    MessagesAppend(Flat(w.polls), packets);
    MessagesAppend(w.handed, packets);
  }

  lemma FrameWritten(w: WriteLog, frame: Frame)
    requires Split(w)
    ensures Split(w.(handed := w.handed + [frame.packet], frames := w.frames + [frame]))
  {
    FramePacketsAppend(w.frames, [frame]);
    assert FramePackets([frame]) == [frame.packet];
    MessagesAppend(FramePackets(w.frames), [frame.packet]);
    MessagesAppend(w.handed, [frame.packet]);
  }

  lemma HeadStreams(s: System, i: nat, arm: bool, ok: bool)
    requires Streams(s) && Flushing(s, i, arm) && s.pc.Head?
    ensures Streams(FlushStep(s, i, arm, ok))
  {}

  lemma SendingKeepsStreams(s: System, i: nat, arm: bool, ok: bool)
    requires Flushing(s, i, arm) && s.pc.Sending? && !FlushStep(s, i, arm, ok).pc.Trimming?
    ensures SameStreams(s, FlushStep(s, i, arm, ok))
  {}

  lemma SendingStreams(s: System, i: nat, arm: bool, ok: bool)
    requires Streams(s) && Flushing(s, i, arm) && s.pc.Sending?
    ensures Streams(FlushStep(s, i, arm, ok))
  {
    var s' := FlushStep(s, i, arm, ok);
    if s'.pc.Trimming? {
      HeldShape(s, i, arm, ok);
      HeldStreams(s, s');
    } else {
      SendingKeepsStreams(s, i, arm, ok);
      SameStreamsKept(s, s');
    }
  }

  /** s' has handed its packets to the held poll. */
  ghost predicate ToPoll(s: System, s': System) {
    && s.flusher.Some? && s.pc.Sending? && s.pc.via.Polling? && s'.flusher == s.flusher && s'.pc == Trimming(s.pc.packets)
    && s'.w == s.w.(handed := s.w.handed + s.pc.packets, polls := s.w.polls + [s.pc.packets])
    && s'.u.active == s.u.active && s'.f.transport == s.f.transport
  }

  lemma HeldShape(s: System, i: nat, arm: bool, ok: bool)
    requires Flushing(s, i, arm) && s.pc.Sending? && FlushStep(s, i, arm, ok).pc.Trimming?
    ensures ToPoll(s, FlushStep(s, i, arm, ok))
  {}

  lemma HeldStreams(s: System, s': System)
    requires Streams(s) && ToPoll(s, s')
    ensures Streams(s')
  {
    PollAnswered(s.w, s.pc.packets);
  }

  lemma WritingStreams(s: System, i: nat, arm: bool, ok: bool)
    requires Base(s) && Streams(s) && Flushing(s, i, arm) && s.pc.Writing?
    ensures Streams(FlushStep(s, i, arm, ok))
  {
    if s.pc.written < |s.pc.packets| {
      FrameWritten(s.w, Frame(s.pc.via, s.pc.packets[s.pc.written]));
    }
  }

  lemma TrimmingStreams(s: System, i: nat, arm: bool, ok: bool)
    requires Flushing(s, i, arm) && !(s.pc.Head? || s.pc.Sending? || s.pc.Writing?)
    ensures SameStreams(s, FlushStep(s, i, arm, ok))
  {}

  // ---- Graceful close ----

  /** A Close packet occurs at the end of ps, or not at all. */
  ghost predicate CloseAtEnd(ps: seq<Packet>) {
    forall k :: 0 <= k < |ps| - 1 ==> ps[k].ptype != CLOSE
  }

  ghost predicate Closes(s: System) {
    && (CanSend(s.f) ==> forall k :: 0 <= k < |s.w.appended| ==> s.w.appended[k].ptype != CLOSE)
    && (s.f.state == Closing ==> s.w.appended != [] && s.w.appended[|s.w.appended| - 1] == ClosePacket)
    && CloseAtEnd(s.w.appended)
    && (forall k :: 0 <= k < |s.w.polls| ==> CloseAtEnd(s.w.polls[k]))
  }

  /** While closing, the fallback timer is armed or the Close call has yet to arm it. */
  ghost predicate Fallback(s: System) {
    s.f.state == Closing ==>
      || s.f.closeTimer
      || (s.w.armer in s.threads && (s.threads[s.w.armer].next == Arm || s.threads[s.w.armer].next == Flush(true)))
  }

  lemma StillCloses(s: System, s': System)
    requires Closes(s) && Fallback(s) && Still(s, s')
    ensures Closes(s') && Fallback(s')
  {}

  lemma AppendCloses(s: System, s': System, p: Packet)
    requires Closes(s) && Fallback(s) && Appended(s, s', p)
    ensures Closes(s') && Fallback(s')
  {}

  lemma TakenCloseAtEnd(s: System)
    requires Conserved(s) && CloseAtEnd(s.w.appended) && Busy(s)
    ensures CloseAtEnd(Taken(s))
  {
    var n, ps := |s.w.trimmed|, Taken(s);
    forall k | 0 <= k < |ps| - 1
      ensures ps[k].ptype != CLOSE
    {
      assert ps[k] == (s.w.trimmed + ps)[n + k] == s.w.appended[n + k];
    }
  }

  /** s' appended nothing, and at most answered one more poll with ps. */
  ghost predicate Answered(s: System, s': System, ps: seq<Packet>) {
    && s'.w.appended == s.w.appended && (s'.f.state == s.f.state || s'.f.state == Closed)
    && (s'.w.polls == s.w.polls || s'.w.polls == s.w.polls + [ps])
  }

  lemma FlushAnswers(s: System, i: nat, arm: bool, ok: bool)
    requires Flushing(s, i, arm)
    ensures Answered(s, FlushStep(s, i, arm, ok), if s.pc.Sending? then s.pc.packets else [])
  {}

  lemma AnsweredCloses(s: System, s': System, ps: seq<Packet>)
    requires Closes(s) && Answered(s, s', ps) && CloseAtEnd(ps)
    ensures Closes(s')
  {}

  lemma FlushCloses(s: System, i: nat, arm: bool, ok: bool)
    requires Conserved(s) && Closes(s) && Flushing(s, i, arm)
    ensures Closes(FlushStep(s, i, arm, ok))
  {
    FlushAnswers(s, i, arm, ok);
    if s.pc.Sending? {
      TakenCloseAtEnd(s);
    }
    AnsweredCloses(s, FlushStep(s, i, arm, ok), if s.pc.Sending? then s.pc.packets else []);
  }

  /** While closing, s' keeps the fallback timer, and whoever has yet to arm it still does. */
  ghost predicate ArmerKept(s: System, s': System) {
    s'.f.state == Closing ==>
      && s.f.state == Closing && s'.f.closeTimer == s.f.closeTimer && s'.w.armer == s.w.armer
      && (s.w.armer in s.threads && (s.threads[s.w.armer].next == Arm || s.threads[s.w.armer].next == Flush(true)) ==>
            s.w.armer in s'.threads && (s'.threads[s.w.armer].next == Arm || s'.threads[s.w.armer].next == Flush(true)))
  }

  lemma SendingKeepsArmer(s: System, i: nat, arm: bool, ok: bool)
    requires Flushing(s, i, arm) && (s.pc.Head? || s.pc.Sending? || s.pc.Writing?)
    ensures ArmerKept(s, FlushStep(s, i, arm, ok))
  {}

  lemma TrimmingKeepsArmer(s: System, i: nat, arm: bool, ok: bool)
    requires Flushing(s, i, arm) && !(s.pc.Head? || s.pc.Sending? || s.pc.Writing?)
    ensures ArmerKept(s, FlushStep(s, i, arm, ok))
  {}

  lemma FlushFallback(s: System, i: nat, arm: bool, ok: bool)
    requires Fallback(s) && Flushing(s, i, arm)
    ensures Fallback(FlushStep(s, i, arm, ok))
  {
    if s.pc.Head? || s.pc.Sending? || s.pc.Writing? {
      SendingKeepsArmer(s, i, arm, ok);
    } else {
      TrimmingKeepsArmer(s, i, arm, ok);
    }
  }

  // ---- Every step ----

  ghost predicate Writes(s: System) {
    Conserved(s) && Streams(s) && Closes(s) && Fallback(s)
  }

  lemma FlushKeepsWrites(s: System, i: nat, arm: bool, ok: bool)
    requires Base(s) && Writes(s) && Flushing(s, i, arm)
    ensures Writes(FlushStep(s, i, arm, ok))
  {
    FlushCloses(s, i, arm, ok);
    FlushFallback(s, i, arm, ok);
    if s.pc.Head? {
      SendingConserved(s, i, arm, ok);
      HeadStreams(s, i, arm, ok);
    } else if s.pc.Sending? {
      SendingConserved(s, i, arm, ok);
      SendingStreams(s, i, arm, ok);
    } else if s.pc.Writing? {
      WritingConserved(s, i, arm, ok);
      WritingStreams(s, i, arm, ok);
    } else {
      TrimmingStreams(s, i, arm, ok);
      SameStreamsKept(s, FlushStep(s, i, arm, ok));
      if s.pc.Trimming? {
        TrimmingConserved(s, i, arm, ok);
      } else {
        LeavingConserved(s, i, arm, ok);
      }
    }
  }

  lemma TeardownKeepsWrites(s: System, i: nat)
    requires Writes(s) && CanTeardown(s.f)
    ensures Writes(ClaimTeardown(s, i, Return))
  {
    TeardownConserved(s, i, Return);
  }

  lemma ArmKeepsWrites(s: System, i: nat)
    requires Writes(s)
    ensures Writes(Start(s.(f := ArmCloseTimer(s.f)), i, Doing(Return)))
  {
    var s' := Start(s.(f := ArmCloseTimer(s.f)), i, Doing(Return));
    assert SameStreams(s, s') && Answered(s, s', []);
    SameStreamsKept(s, s');
    AnsweredCloses(s, s', []);
  }

  /** A goroutine that is not inside the loop takes or releases flushMu. */
  lemma LockKeepsWrites(s: System, i: nat, arm: bool)
    requires Writes(s)
    ensures s.flusher.None? ==> Writes(s.(flusher := Some(i), pc := Head))
    ensures s.f.state == Closed ==> Writes(ExitFlush(s, i, arm))
  {}

  lemma ContinueKeepsWrites(s: System, i: nat, ok: bool)
    requires Base(s) && Writes(s) && i in s.threads && Free(s.threads[i])
    ensures Writes(Continue(s, i, s.threads[i].next, ok))
  {
    var next := s.threads[i].next;
    if next.Flush? {
      FlushingKeepsWrites(s, i, next.arm, ok);
    } else if next.Unlock? {
      LockKeepsWrites(s, i, next.arm);
    } else if next.Arm? {
      ArmKeepsWrites(s, i);
    } else if next.Teardown? {
      TeardownStepKeepsWrites(s, i, ok);
    }
  }

  lemma FlushingKeepsWrites(s: System, i: nat, arm: bool, ok: bool)
    requires Base(s) && Writes(s) && i in s.threads && Free(s.threads[i]) && s.threads[i].next == Flush(arm)
    ensures Writes(Continue(s, i, Flush(arm), ok))
  {
    if s.flusher == Some(i) {
      FlushKeepsWrites(s, i, arm, ok);
    } else {
      LockKeepsWrites(s, i, arm);
    }
  }

  lemma TeardownStepKeepsWrites(s: System, i: nat, ok: bool)
    requires Writes(s) && i in s.threads && s.threads[i].next == Teardown
    ensures Writes(Continue(s, i, Teardown, ok))
  {
    if CanTeardown(s.f) {
      TeardownKeepsWrites(s, i);
    } else {
      assert SameStreams(s, Start(s, i, Doing(Return)));
      SameStreamsKept(s, Start(s, i, Doing(Return)));
    }
  }

  lemma StillKeepsWrites(s: System, s': System)
    requires Writes(s) && Still(s, s') && (SameTransport(s, s') || Streams(s'))
    ensures Writes(s')
  {
    StillConserved(s, s');
    StillCloses(s, s');
    if SameTransport(s, s') {
      StillStreams(s, s');
    }
  }

  lemma StepKeepsWrites(s: System, e: Event)
    requires Base(s) && Writes(s)
    ensures Writes(Apply(s, e))
  {
    var s' := Apply(s, e);
    if IsAppend(e) {
      if s' != s {
        AppendIsAppended(s, e);
        var p := if e.SendMessage? then Packet(MESSAGE, e.data, e.isBinary)
                 else if e.CloseCall? then ClosePacket else PingPacket;
        AppendConserved(s, s', p);
        AppendCloses(s, s', p);
        SameStreamsKept(s, s');
      }
    } else if IsPoll(e) {
      PollIsStill(s, e);
      StillKeepsWrites(s, s');
    } else if IsProbe(e) {
      ProbeIsStill(s, e);
      StillKeepsWrites(s, s');
    } else if e.UpgradeArrives? {
      CompleteIsStill(s, e.i, e.t);
      CompleteStreams(s, e.i, e.t);
      StillKeepsWrites(s, s');
    } else if e.i in s.threads {
      if Free(s.threads[e.i]) {
        ContinueKeepsWrites(s, e.i, e.ok);
      } else {
        DischargeIsStill(s, e.i);
        StillKeepsWrites(s, s');
      }
    }
  }
}
