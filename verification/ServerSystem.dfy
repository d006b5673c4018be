/**
 * A server session as a step system: any number of goroutines run Send, Close, the
 * timers, poll requests and probes, and every critical section is one step. What a
 * goroutine still has to do after releasing the session mutex is recorded in its
 * thread, and the goroutine that holds flushMu has its own program counter.
 */
module ServerSystem {
  import opened Basics
  import opened Packets
  import opened ServerFields

  /** What a goroutine does once its release obligations are met. */
  datatype Next = Return | Flush(arm: bool) | Unlock(arm: bool) | Arm | Teardown

  /** Obligations left by a critical section, met in this order, then `next`. */
  datatype Thread = Thread(
    promote: Option<Transport>,
    stop: Option<Chan>,
    close1: Option<Transport>,
    close2: Option<Transport>,
    notify: bool,
    next: Next)

  /** Program counter of the goroutine inside flush. */
  datatype FlushPc =
    | Head
    | Sending(via: Transport, packets: seq<Packet>)
    | Writing(via: Transport, packets: seq<Packet>, written: nat)
    | Trimming(packets: seq<Packet>)
    | Failed(partial: seq<Packet>)
    | Drained
    | Leaving

  datatype Resolution = Completed | Aborted | TornDown

  datatype Frame = Frame(via: Transport, packet: Packet)

  /** History of the write path; no step reads it. */
  datatype WriteLog = WriteLog(
    appended: seq<Packet>,
    trimmed: seq<Packet>,
    handed: seq<Packet>,
    polls: seq<seq<Packet>>,       // payloads that answered held polls
    frames: seq<Frame>,            // frames written to promoted transports
    waker: nat,                    // the latest goroutine started with a flush to do
    armer: nat,                    // the goroutine of the Close call
    pinged: bool)                  // a ping was queued since the last pong, or since the opening

  /** History of the transports and upgrades; no step reads it but to keep identities fresh. */
  datatype UpgradeLog = UpgradeLog(
    first: Transport,
    active: Transport,             // the latest transport in use
    used: set<Transport>,          // identities given out
    owned: set<Transport>,         // the first transport and every accepted probe
    resolved: map<Transport, Resolution>,
    chans: set<Chan>,
    closedChans: set<Chan>,
    stopper: map<Chan, nat>,       // who took each stop channel
    closer: map<Transport, nat>,   // who took each transport to close it
    notified: nat,                 // invocations of the close handler
    notifier: nat,                 // who took the close handler
    swaps: nat,
    completer: nat,                // who completed the upgrade
    swappedIn: SessionState)       // the session's state at that moment

  datatype System = System(
    f: Fields,
    threads: map<nat, Thread>,
    flusher: Option<nat>,
    pc: FlushPc,
    closed: set<Transport>,
    probing: set<Transport>,
    held: set<Transport>,
    w: WriteLog,
    u: UpgradeLog)

  datatype Event =
    | SendMessage(i: nat, data: seq<byte>, isBinary: bool)
    | CloseCall(i: nat)
    | OpenCall
    | PingTimer(i: nat, stale: bool)   // stale: of a timer that fired before it was replaced
    | PongArrives
    | CloseWithReason(i: nat)
    | HoldPoll(i: nat, t: Transport)
    | ReleasePoll(i: nat, t: Transport)
    | WriteNoop(t: Transport)
    | ProbeStarts(t: Transport)
    | ProbePing(ch: Chan)
    | UpgradeArrives(i: nat, t: Transport)
    | AbortCall(i: nat, t: Transport)
    | Run(i: nat, ok: bool)

  function Init(t: Transport): System {
    System(NewSession(t), map[], None, Head, {}, {}, {},
           WriteLog([], [], [], [], [], 0, 0, false),
           UpgradeLog(t, t, {t}, {t}, map[], {}, {}, map[], map[], 0, 0, 0, 0, Open))
  }

  function Doing(next: Next): Thread {
    Thread(None, None, None, None, false, next)
  }

  predicate Free(th: Thread) {
    th.promote == None && th.stop == None && th.close1 == None && th.close2 == None && !th.notify
  }

  function Append(s: System, f: Fields, p: Packet): System {
    s.(f := f, w := s.w.(appended := s.w.appended + [p]))
  }

  function Start(s: System, i: nat, th: Thread): System {
    s.(threads := s.threads[i := th])
  }

  function StartFlush(s: System, i: nat, arm: bool): System {
    Start(s, i, Doing(Flush(arm))).(w := s.w.(waker := i, armer := if arm then i else s.w.armer))
  }

  /** Records that goroutine i now owes the release of a channel and of transports. */
  function Take(l: UpgradeLog, i: nat, stop: Option<Chan>, close1: Option<Transport>, close2: Option<Transport>): UpgradeLog {
    var c1 := if close1.Some? then l.closer[close1.value := i] else l.closer;
    l.(stopper := if stop.Some? then l.stopper[stop.value := i] else l.stopper,
       closer := if close2.Some? then c1[close2.value := i] else c1)
  }

  function DoSend(s: System, i: nat, p: Packet): System {
    if i in s.threads || !CanSend(s.f) then s
    else StartFlush(Append(s, Enqueue(s.f, p), p), i, false)
  }

  function DoClose(s: System, i: nat): System {
    if i in s.threads || !CanBeginClose(s.f) then s
    else StartFlush(Append(s, BeginClose(s.f), ClosePacket), i, true)
  }

  function DoPing(s: System, i: nat, stale: bool): System {
    if i in s.threads || s.f.state != Open || (!stale && !s.f.pingTimer) then s
    else
      var s1 := Append(s, SendPing(if stale then s.f else PingFires(s.f)), PingPacket);
      StartFlush(s1.(w := s1.w.(pinged := true)), i, false)
  }

  /** handlePoll: an overlapping poll closes the session, a closed transport refuses. */
  function DoHold(s: System, i: nat, t: Transport): System {
    if i in s.threads || !t.Polling? || t !in s.u.used || t in s.closed then s
    else if t in s.held then Start(s, i, Doing(Teardown))
    else StartFlush(s.(held := s.held + {t}), i, false)
  }

  /** The client dropped its poll: the session closes whether or not a payload was claimed. */
  function DoRelease(s: System, i: nat, t: Transport): System {
    if i in s.threads then s
    else Start(s.(held := s.held - {t}), i, Doing(Teardown))
  }

  /** A held poll is answered with a payload that did not come from the write buffer. */
  function Answer(s: System, t: Transport, p: Packet): System {
    if t in s.held then s.(held := s.held - {t}, w := s.w.(polls := s.w.polls + [[p]])) else s
  }

  function DoProbe(s: System, t: Transport): System {
    if !t.Promotable? || t in s.u.used then s
    else
      var s1 := s.(probing := s.probing + {t}, u := s.u.(used := s.u.used + {t}));
      if CanStartUpgrade(s.f)
      then s1.(f := StartUpgrade(s.f, t), u := s1.u.(owned := s1.u.owned + {t}))
      else s1.(closed := s1.closed + {t})
  }

  function DoProbePing(s: System, ch: Chan): System {
    if ch in s.u.chans || !CanProbe(s.f) then s
    else s.(f := OnProbe(s.f, ch), u := s.u.(chans := s.u.chans + {ch}))
  }

  function DoComplete(s: System, i: nat, t: Transport): System {
    if i in s.threads || !Probing(s.f, t) then s
    else
      var th := Thread(Some(t), s.f.probeNoopStop, s.f.transport, None, false, Flush(false));
      var l := Take(s.u, i, th.stop, th.close1, th.close2);
      Start(s.(f := BeginCompleteUpgrade(s.f, t),
               w := s.w.(waker := i),
               u := l.(resolved := l.resolved[t := Completed], swaps := l.swaps + 1, active := t, completer := i,
                   swappedIn := s.f.state)), i, th)
  }

  function DoAbort(s: System, i: nat, t: Transport): System {
    if i in s.threads || !Probing(s.f, t) then s
    else
      var th := Thread(None, s.f.probeNoopStop, Some(t), None, false, Return);
      var l := Take(s.u, i, th.stop, th.close1, th.close2);
      Start(s.(f := BeginAbortUpgrade(s.f), u := l.(resolved := l.resolved[t := Aborted])), i, th)
  }

  /** closeWithReason: goroutine i claims the teardown and everything to release. */
  function ClaimTeardown(s: System, i: nat, next: Next): System {
    var th := Thread(None, s.f.probeNoopStop, s.f.transport, s.f.upgradeTransport, true, next);
    var l := Take(s.u, i, th.stop, th.close1, th.close2).(notifier := i);
    Start(s.(f := BeginTeardown(s.f),
             u := if th.close2.Some? then l.(resolved := l.resolved[th.close2.value := TornDown]) else l), i, th)
  }

  function CloseTransport(s: System, t: Transport): System {
    if t in s.closed then s else Answer(s, t, ClosePacket).(closed := s.closed + {t})
  }

  function After(arm: bool): Next {
    if arm then Arm else Return
  }

  /** The goroutine leaves flush, releasing flushMu. */
  function ExitFlush(s: System, i: nat, arm: bool): System {
    s.(flusher := None, pc := Head, threads := s.threads[i := Doing(After(arm))])
  }

  function FlushStep(s: System, i: nat, arm: bool, ok: bool): System {
    match s.pc
    case Head =>
      if !CanFlush(s.f) then ExitFlush(s, i, arm)
      else s.(pc := Sending(s.f.transport.value, s.f.writeBuffer))
    case Sending(via, packets) =>
      if via in s.closed then ExitFlush(s, i, arm)
      else if via.Promotable? then s.(pc := Writing(via, packets, 0))
      else if via !in s.held then ExitFlush(s, i, arm)
      else s.(pc := Trimming(packets), held := s.held - {via},
              w := s.w.(handed := s.w.handed + packets, polls := s.w.polls + [packets]))
    case Writing(via, packets, written) =>
      if written >= |packets| then s.(pc := Trimming(packets))
      else if !ok then s.(pc := Failed(packets[..written]))
      else s.(pc := Writing(via, packets, written + 1),
              w := s.w.(handed := s.w.handed + [packets[written]],
                            frames := s.w.frames + [Frame(via, packets[written])]))
    case Trimming(packets) =>
      var f := Trim(s.f, |packets|);
      var s1 := s.(f := f, w := s.w.(trimmed := s.w.trimmed + packets));
      if f.writeBuffer == [] && f.state == Closing then s1.(pc := Drained)
      else if f.writeBuffer == [] || f.state == Closed then ExitFlush(s1, i, arm)
      else s1.(pc := Head)
    case Failed(_) => CloseInFlush(s, i, arm)
    case Drained => CloseInFlush(s, i, arm)
    case Leaving => s
  }

  function CloseInFlush(s: System, i: nat, arm: bool): System {
    if !CanTeardown(s.f) then ExitFlush(s, i, arm)
    else ClaimTeardown(s, i, Unlock(arm)).(pc := Leaving)
  }

  /** The goroutine meets its first outstanding obligation. */
  function Discharge(s: System, i: nat, th: Thread): System {
    if th.promote.Some? then
      Start(s.(probing := s.probing - {th.promote.value}), i, th.(promote := None))
    else if th.stop.Some? then
      Start(s.(u := s.u.(closedChans := s.u.closedChans + {th.stop.value})), i, th.(stop := None))
    else if th.close1.Some? then
      Start(CloseTransport(s, th.close1.value), i, th.(close1 := None))
    else if th.close2.Some? then
      Start(CloseTransport(s, th.close2.value), i, th.(close2 := None))
    else
      Start(s.(u := s.u.(notified := s.u.notified + 1)), i, th.(notify := false))
  }

  /** All obligations met: the goroutine goes on with `next`. */
  function Continue(s: System, i: nat, next: Next, ok: bool): System {
    match next
    case Return => s
    case Arm => Start(s.(f := ArmCloseTimer(s.f)), i, Doing(Return))
    case Teardown => if CanTeardown(s.f) then ClaimTeardown(s, i, Return) else Start(s, i, Doing(Return))
    case Unlock(arm) => ExitFlush(s, i, arm)
    case Flush(arm) =>
      if s.flusher == None then s.(flusher := Some(i), pc := Head)
      else if s.flusher == Some(i) then FlushStep(s, i, arm, ok)
      else s
  }

  function RunThread(s: System, i: nat, ok: bool): System {
    if i !in s.threads then s
    else if !Free(s.threads[i]) then Discharge(s, i, s.threads[i])
    else Continue(s, i, s.threads[i].next, ok)
  }

  /** One step. An event that is not possible in s leaves it unchanged. */
  function Apply(s: System, e: Event): System {
    match e
    case SendMessage(i, data, isBinary) => DoSend(s, i, Packet(MESSAGE, data, isBinary))
    case CloseCall(i) => DoClose(s, i)
    case OpenCall => s.(f := OpenSession(s.f), w := s.w.(pinged := s.f.state != Opening && s.w.pinged))
    case PingTimer(i, stale) => DoPing(s, i, stale)
    case PongArrives => s.(f := OnPong(s.f), w := s.w.(pinged := s.f.state != Open && s.w.pinged))
    case CloseWithReason(i) => if i in s.threads then s else Start(s, i, Doing(Teardown))
    case HoldPoll(i, t) => DoHold(s, i, t)
    case ReleasePoll(i, t) => DoRelease(s, i, t)
    case WriteNoop(t) => Answer(s, t, NoopPacket)
    case ProbeStarts(t) => DoProbe(s, t)
    case ProbePing(ch) => DoProbePing(s, ch)
    case UpgradeArrives(i, t) => DoComplete(s, i, t)
    case AbortCall(i, t) => DoAbort(s, i, t)
    case Run(i, ok) => RunThread(s, i, ok)
  }

  function RunAll(s: System, es: seq<Event>): System
    decreases |es|
  {
    if es == [] then s else RunAll(Apply(s, es[0]), es[1..])
  }
}
