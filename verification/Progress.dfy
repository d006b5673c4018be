/** A held poll can always be answered by the server's own steps, without waiting for the probe's noops. */
module ServerProgress {
  import opened Basics
  import opened Packets
  import opened ServerFields
  import opened ServerSystem
  import opened ServerBase
  import opened ServerWrites
  import opened ServerUpgrades
  import opened ServerLinks
  import ST = ServerTheorems

  /** The application sends, the session is closed, or a goroutine goes on. */
  predicate Own(e: Event) {
    e.SendMessage? || e.CloseWithReason? || e.Run?
  }

  ghost predicate AllOwn(es: seq<Event>) {
    forall k :: 0 <= k < |es| ==> Own(es[k])
  }

  ghost predicate Leads(s: System, s': System) {
    exists es :: AllOwn(es) && s' == RunAll(s, es)
  }

  lemma {:induction false} RunAppend(s: System, es: seq<Event>, e: Event)
    ensures RunAll(s, es + [e]) == Apply(RunAll(s, es), e)
    decreases |es|
  {
    if es == [] {
      assert RunAll(s, [e]) == RunAll(Apply(s, e), [e][1..]);
    } else {
      assert (es + [e])[1..] == es[1..] + [e];
      RunAppend(Apply(s, es[0]), es[1..], e);
    }
  }

  lemma Stay(s: System)
    ensures Leads(s, s)
  {
    assert s == RunAll(s, []);
  }

  lemma Go(s0: System, s: System, e: Event) returns (s': System)
    requires Leads(s0, s) && Own(e)
    ensures Leads(s0, s') && s' == Apply(s, e)
  {
    var es :| AllOwn(es) && s == RunAll(s0, es);
    RunAppend(s0, es, e);
    s' := Apply(s, e);
    assert AllOwn(es + [e]) && s' == RunAll(s0, es + [e]);
  }

  // ---- A goroutine that owes a close ----

  function Owed(th: Thread): nat {
    (if th.promote.Some? then 1 else 0) + (if th.stop.Some? then 1 else 0)
    + (if th.close1.Some? then 1 else 0) + (if th.close2.Some? then 1 else 0)
  }

  ghost predicate ToClose(s: System, j: nat, t: Transport) {
    j in s.threads && (s.threads[j].close1 == Some(t) || s.threads[j].close2 == Some(t)) && t !in s.closed
  }

  lemma OneObligation(s: System, j: nat, t: Transport)
    requires ToClose(s, j, t)
    ensures var s' := Apply(s, Run(j, true));
            t !in s'.held || (ToClose(s', j, t) && Owed(s'.threads[j]) < Owed(s.threads[j]))
  {}

  lemma {:induction false} ClosesIt(s0: System, s: System, j: nat, t: Transport) returns (s': System)
    requires Leads(s0, s) && ToClose(s, j, t)
    ensures Leads(s0, s') && t !in s'.held
    decreases Owed(s.threads[j])
  {
    OneObligation(s, j, t);
    s' := Go(s0, s, Run(j, true));
    if t in s'.held {
      s' := ClosesIt(s0, s', j, t);
    }
  }

  // ---- A session that is closing ----

  lemma TornDown(s0: System, s: System, t: Transport) returns (s': System)
    requires Leads(s0, s) && s.f.transport == Some(t) && s.f.state != Closed && t !in s.closed
    ensures Leads(s0, s') && t !in s'.held
  {
    var i := Above(s.threads.Keys);
    var s1 := Go(s0, s, CloseWithReason(i));
    var s2 := Go(s0, s1, Run(i, true));
    s' := ClosesIt(s0, s2, i, t);
  }

  // ---- A session that can send ----

  /** Polling transport t is in use with a poll held, and goroutine i is about to flush more than was handed off. */
  ghost predicate Waiting(s: System, t: Transport, i: nat) {
    && s.f.transport == Some(t) && t.Polling? && s.f.state != Closed && t !in s.closed && s.held == {t}
    && |InFlight(s)| < |s.f.writeBuffer| && (Via(s).Some? ==> Via(s).value.Polling?) && FlushMutex(s)
    && i in s.threads && s.threads[i] == Doing(Flush(false)) && s.flusher != Some(i)
  }

  lemma Flushes(s0: System, s: System, t: Transport, i: nat) returns (s': System)
    requires Leads(s0, s) && Waiting(s, t, i) && s.flusher == None
    ensures Leads(s0, s') && t !in s'.held
  {
    s' := Go(s0, s, Run(i, true));
    s' := Go(s0, s', Run(i, true));
    s' := Go(s0, s', Run(i, true));
  }

  function Rank(pc: FlushPc): nat {
    match pc
    case Trimming(_) => 3
    case Head => 2
    case _ => 1
  }

  /** The running flush answers the poll, goes on, leaves, or closes the session. */
  lemma FlusherStep(s: System, t: Transport, i: nat, j: nat)
    requires Waiting(s, t, i) && s.flusher == Some(j)
    ensures var s' := Apply(s, Run(j, true));
            || t !in s'.held
            || ToClose(s', j, t)
            || (Waiting(s', t, i) && (s'.flusher == None || (s'.flusher == Some(j) && Rank(s'.pc) < Rank(s.pc))))
  {}

  lemma {:induction false} FlusherGoesOn(s0: System, s: System, t: Transport, i: nat) returns (s': System)
    requires Leads(s0, s) && Waiting(s, t, i)
    ensures Leads(s0, s') && t !in s'.held
    decreases if s.flusher == None then 0 else Rank(s.pc)
  {
    if s.flusher == None {
      s' := Flushes(s0, s, t, i);
    } else {
      var j := s.flusher.value;
      FlusherStep(s, t, i, j);
      s' := Go(s0, s, Run(j, true));
      if t in s'.held {
        if ToClose(s', j, t) {
          s' := ClosesIt(s0, s', j, t);
        } else {
          s' := FlusherGoesOn(s0, s', t, i);
        }
      }
    }
  }

  lemma Sends(s0: System, s: System, t: Transport) returns (s': System)
    requires Leads(s0, s) && CanSend(s.f) && s.f.transport == Some(t) && t.Polling? && t !in s.closed && s.held == {t}
    requires FlushMutex(s) && Taken(s) <= s.f.writeBuffer && (Via(s).Some? ==> Via(s).value.Polling?)
    ensures Leads(s0, s') && t !in s'.held
  {
    var i := Above(s.threads.Keys);
    s' := Go(s0, s, SendMessage(i, [], false));
    s' := FlusherGoesOn(s0, s', t, i);
  }

  /** From every reachable state some steps of the server's own answer the held poll. */
  lemma HeldPollIsAnswered(s: System) returns (s': System)
    requires ST.Inv(s)
    ensures Leads(s, s') && s.u.first !in s'.held
  {
    Stay(s);
    var t := s.u.first;
    if t !in s.held {
      s' := s;
    } else if s.f.transport == Some(t) {
      assert s.held == {t};
      if CanSend(s.f) {
        s' := Sends(s, s, t);
      } else {
        s' := TornDown(s, s, t);
      }
    } else {
      assert Accounted(s, t);
      s' := ClosesIt(s, s, s.u.closer[t], t);
    }
  }
}

/** The pause before an adoption ends: once no poll request is in flight, the client's own steps lead to adoption. */
module ClientProgress {
  import opened Basics
  import opened Packets
  import opened ClientSystem
  import F = ClientFields

  /** The pong handler goes on, or a poll goroutine dispatches and leaves. */
  predicate Own(e: Event) {
    e.PauseBegins? || e.PauseLocks? || e.PauseReturns? || e.AdoptLink? || e.DispatchOne? || e.DispatchEnds? || e.PollLeaves?
  }

  ghost predicate AllOwn(es: seq<Event>) {
    forall k :: 0 <= k < |es| ==> Own(es[k])
  }

  ghost predicate Leads(s: System, s': System) {
    exists es :: AllOwn(es) && s' == RunAll(s, es)
  }

  lemma {:induction false} RunAppend(s: System, es: seq<Event>, e: Event)
    ensures RunAll(s, es + [e]) == Apply(RunAll(s, es), e)
    decreases |es|
  {
    if es == [] {
      assert RunAll(s, [e]) == RunAll(Apply(s, e), [e][1..]);
    } else {
      assert (es + [e])[1..] == es[1..] + [e];
      RunAppend(Apply(s, es[0]), es[1..], e);
    }
  }

  lemma Stay(s: System)
    ensures Leads(s, s)
  {
    assert s == RunAll(s, []);
  }

  lemma Go(s0: System, s: System, e: Event) returns (s': System)
    requires Leads(s0, s) && Own(e)
    ensures Leads(s0, s') && s' == Apply(s, e)
  {
    var es :| AllOwn(es) && s == RunAll(s0, es);
    RunAppend(s0, es, e);
    s' := Apply(s, e);
    assert AllOwn(es + [e]) && s' == RunAll(s0, es + [e]);
  }

  ghost predicate InPause(s: System, id: nat) {
    s.up == PauseWaiting(id) && s.f.state == F.Open && s.pc.Idle? && !s.poll.Requesting?
  }

  lemma DispatchStep(s: System, id: nat)
    requires InPause(s, id) && s.poll.Dispatching? && s.poll.rest != []
    ensures var s' := Apply(s, DispatchOne); InPause(s', id) && s'.poll == Dispatching(s.poll.rest[1..])
  {}

  lemma {:induction false} Dispatches(s0: System, s: System, id: nat) returns (s': System)
    requires Leads(s0, s) && InPause(s, id)
    ensures Leads(s0, s') && InPause(s', id) && !s'.poll.Dispatching?
    decreases if s.poll.Dispatching? then |s.poll.rest| + 1 else 0
  {
    if !s.poll.Dispatching? {
      s' := s;
    } else if s.poll.rest == [] {
      s' := Go(s0, s, DispatchEnds);
    } else {
      DispatchStep(s, id);
      s' := Go(s0, s, DispatchOne);
      s' := Dispatches(s0, s', id);
    }
  }

  lemma {:induction false} Leaves(s0: System, s: System, id: nat) returns (s': System)
    requires Leads(s0, s) && InPause(s, id) && !s.poll.Dispatching?
    ensures Leads(s0, s') && InPause(s', id) && !s'.poll.Dispatching? && s'.finishing == 0
    decreases s.finishing
  {
    if s.finishing == 0 {
      s' := s;
    } else {
      s' := Go(s0, s, PollLeaves);
      s' := Leaves(s0, s', id);
    }
  }

  lemma Returns(s0: System, s: System, id: nat) returns (s': System)
    requires Leads(s0, s) && InPause(s, id) && !s.poll.Dispatching? && s.finishing == 0
    ensures Leads(s0, s') && s'.up == Adopted(id) && s'.f.state == F.Open && s'.pc.Idle?
  {
    s' := Go(s0, s, PauseReturns);
    s' := Go(s0, s', AdoptLink);
  }

  lemma Adopts(s: System, id: nat) returns (s': System)
    requires (s.up == PauseLocking(id) || s.up == PauseWaiting(id)) && s.f.state == F.Open && s.pc.Idle? && !s.poll.Requesting?
    ensures Leads(s, s') && s'.up == Adopted(id) && s'.f.state == F.Open && s'.pc.Idle?
  {
    Stay(s);
    s' := s;
    if s.up.PauseLocking? {
      s' := Go(s, s', PauseLocks);
    }
    s' := Dispatches(s, s', id);
    s' := Leaves(s, s', id);
    s' := Returns(s, s', id);
  }
}

/** From every reachable state in which the client waits in Pause, the two ends can go on to adoption. */
module Progress {
  import opened Basics
  import opened Packets
  import opened Network
  import opened NetworkProofs
  import NetworkTheorems
  import SP = ServerProgress
  import S = ServerSystem
  import C = ClientSystem
  import CF = ClientFields
  import CI = ClientProofs
  import CP = ClientProgress

  /** A step in which nothing fails: a poll is refused only by a transport that is closed. */
  ghost predicate Natural(n: Net, e: Event) {
    || (e.ServerStep? && SP.Own(e.se)) || (e.ClientStep? && CP.Own(e.ce))
    || e.PollHeld? || e.PollAnswered? || (e.PollRefused? && Poller in n.server.closed)
  }

  ghost predicate AllNatural(n: Net, es: seq<Event>)
    decreases |es|
  {
    es != [] ==> Natural(n, es[0]) && AllNatural(Apply(n, es[0]), es[1..])
  }

  ghost predicate Leads(n: Net, n': Net) {
    exists es :: AllNatural(n, es) && n' == RunAll(n, es)
  }

  lemma {:induction false} RunAppend(n: Net, es: seq<Event>, e: Event)
    requires AllNatural(n, es) && Natural(RunAll(n, es), e)
    ensures AllNatural(n, es + [e]) && RunAll(n, es + [e]) == Apply(RunAll(n, es), e)
    decreases |es|
  {
    if es == [] {
      assert [] + [e] == [e] && [e][1..] == [];
    } else {
      assert (es + [e])[1..] == es[1..] + [e] && (es + [e])[0] == es[0];
      RunAppend(Apply(n, es[0]), es[1..], e);
    }
  }

  lemma Stay(n: Net)
    ensures Leads(n, n)
  {
    assert AllNatural(n, []) && n == RunAll(n, []);
  }

  lemma Go(n0: Net, n: Net, e: Event) returns (n': Net)
    requires Leads(n0, n) && Natural(n, e)
    ensures Leads(n0, n') && n' == Apply(n, e)
  {
    var es :| AllNatural(n0, es) && n == RunAll(n0, es);
    RunAppend(n0, es, e);
    n' := Apply(n, e);
    assert AllNatural(n0, es + [e]) && n' == RunAll(n0, es + [e]);
  }

  lemma LeadsToInv(n0: Net, n: Net)
    requires Inv(n0) && Leads(n0, n)
    ensures Inv(n)
  {
    var es :| AllNatural(n0, es) && n == RunAll(n0, es);
    RunKeepsInv(n0, es);
  }

  lemma ServerMoves(n: Net, e: S.Event)
    requires SP.Own(e)
    ensures Apply(n, ServerStep(e)) == n.(server := S.Apply(n.server, e))
  {}

  /** What the server can do by itself it can do here. */
  lemma {:induction false} ServerGoes(n0: Net, n: Net, es: seq<S.Event>) returns (n': Net)
    requires Leads(n0, n) && SP.AllOwn(es)
    ensures Leads(n0, n') && n' == n.(server := S.RunAll(n.server, es))
    decreases |es|
  {
    if es == [] {
      n' := n;
    } else {
      ServerMoves(n, es[0]);
      n' := Go(n0, n, ServerStep(es[0]));
      n' := ServerGoes(n0, n', es[1..]);
    }
  }

  lemma ClientMoves(n: Net, e: C.Event)
    requires CP.Own(e)
    ensures Apply(n, ClientStep(e)) == n.(client := C.Apply(n.client, e))
  {}

  lemma {:induction false} ClientGoes(n0: Net, n: Net, es: seq<C.Event>) returns (n': Net)
    requires Leads(n0, n) && CP.AllOwn(es)
    ensures Leads(n0, n') && n' == n.(client := C.RunAll(n.client, es))
    decreases |es|
  {
    if es == [] {
      n' := n;
    } else {
      ClientMoves(n, es[0]);
      n' := Go(n0, n, ClientStep(es[0]));
      n' := ClientGoes(n0, n', es[1..]);
    }
  }

  /** The client waits in Pause for link id. */
  ghost predicate InPause(c: C.System, id: nat) {
    (c.up == C.PauseLocking(id) || c.up == C.PauseWaiting(id)) && c.f.state == CF.Open
  }

  lemma InvFacts(n: Net)
    requires Inv(n)
    ensures PollLink(n) && AnswerFacts(n.server) && n.server.u.first == Poller
    ensures CI.Switching(n.client.up) ==> n.client.pc.Idle?
  {}

  lemma AnswerReady(n: Net)
    requires PollLink(n) && AnswerFacts(n.server) && n.poll == AtServer && Poller !in n.server.held
    ensures Apply(n, PollAnswered).client == n.client.(poll := C.Dispatching(n.server.w.polls[n.pollsSeen]))
  {}

  /** The server answers the poll it holds, and the client reads the answer. */
  lemma PollReturns(n0: Net, n: Net, id: nat) returns (n': Net)
    requires Inv(n0) && Leads(n0, n) && n.poll == AtServer && InPause(n.client, id)
    ensures Leads(n0, n') && InPause(n'.client, id) && !n'.client.poll.Requesting?
  {
    LeadsToInv(n0, n);
    InvFacts(n);
    var s := SP.HeldPollIsAnswered(n.server);
    var es :| SP.AllOwn(es) && s == S.RunAll(n.server, es);
    n' := ServerGoes(n0, n, es);
    LeadsToInv(n0, n');
    InvFacts(n');
    AnswerReady(n');
    n' := Go(n0, n', PollAnswered);
  }

  lemma PollArrives(n: Net, i: nat)
    requires n.poll == OnTheWay && i !in n.server.threads && Poller !in n.server.closed
    ensures var n' := Apply(n, PollHeld(i)); n'.poll == AtServer && n'.client == n.client
  {}

  lemma PollFails(n: Net, id: nat)
    requires n.poll == OnTheWay && InPause(n.client, id)
    ensures var c := Apply(n, PollRefused).client; InPause(c, id) && !c.poll.Requesting?
  {}

  lemma PollEnds(n0: Net, n: Net, id: nat) returns (n': Net)
    requires Inv(n0) && Leads(n0, n) && PollLink(n) && InPause(n.client, id)
    ensures Leads(n0, n') && InPause(n'.client, id) && !n'.client.poll.Requesting?
  {
    n' := n;
    if n.poll == OnTheWay {
      if Poller in n.server.closed {
        PollFails(n, id);
        n' := Go(n0, n, PollRefused);
      } else {
        var i := Above(n.server.threads.Keys);
        PollArrives(n, i);
        n' := Go(n0, n, PollHeld(i));
        n' := PollReturns(n0, n', id);
      }
    } else if n.poll == AtServer {
      n' := PollReturns(n0, n, id);
    }
  }

  /** Whatever the interleaving so far, a client that waits in Pause can come to adopt its link. */
  lemma PauseEndsInAdoption(buffered: seq<Packet>, maxPayload: int, es: seq<Event>, id: nat) returns (n: Net)
    requires InPause(NetworkTheorems.Reach(buffered, maxPayload, es).client, id)
    ensures Leads(NetworkTheorems.Reach(buffered, maxPayload, es), n) && n.client.up == C.Adopted(id)
  {
    var n0 := NetworkTheorems.Reach(buffered, maxPayload, es);
    NetworkTheorems.Reachable(buffered, maxPayload, es);
    Stay(n0);
    InvFacts(n0);
    n := PollEnds(n0, n0, id);
    LeadsToInv(n0, n);
    InvFacts(n);
    var c := CP.Adopts(n.client, id);
    var own :| CP.AllOwn(own) && c == C.RunAll(n.client, own);
    n := ClientGoes(n0, n, own);
  }
}
