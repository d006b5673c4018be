/** When each thing the client socket does is done, exactly, and what it leads to. */
module ClientPromises {
  import opened Basics
  import opened Packets
  import opened ClientSystem
  import opened ClientProofs
  import opened ClientTheorems
  import F = ClientFields
  import P = ClientPolling

  // ---- The poll loop ----

  /** The goroutines Pause waits for. */
  function Waited(s: System): nat {
    s.finishing + (if s.poll.Dispatching? then 1 else 0)
  }

  predicate RequestEnds(s: System, e: Event) {
    s.poll.Requesting? && !Apply(s, e).poll.Requesting?
  }

  /** How many poll requests ended in the run. */
  function Ended(s: System, es: seq<Event>): nat
    decreases |es|
  {
    if es == [] then 0 else (if RequestEnds(s, es[0]) then 1 else 0) + Ended(Apply(s, es[0]), es[1..])
  }

  /** How many poll goroutines left in the run. */
  function Left(s: System, es: seq<Event>): nat
    decreases |es|
  {
    if es == [] then 0
    else (if es[0].PollLeaves? && s.finishing > 0 then 1 else 0) + Left(Apply(s, es[0]), es[1..])
  }

  lemma WaitedStep(s: System, e: Event)
    ensures Waited(Apply(s, e)) ==
            Waited(s) + (if RequestEnds(s, e) then 1 else 0) - (if e.PollLeaves? && s.finishing > 0 then 1 else 0)
  {}

  /** A poll that has been answered or has failed is waited for by Pause until its goroutine has left. */
  lemma {:induction false} EveryPollIsWaitedFor(s: System, es: seq<Event>)
    ensures Waited(RunAll(s, es)) == Waited(s) + Ended(s, es) - Left(s, es)
    decreases |es|
  {
    if es != [] {
      WaitedStep(s, es[0]);
      EveryPollIsWaitedFor(Apply(s, es[0]), es[1..]);
    }
  }

  predicate Halted(s: System) {
    !P.Running(s.polling) && !s.poll.Requesting?
  }

  lemma HaltedStep(s: System, e: Event)
    requires Halted(s)
    ensures Halted(Apply(s, e))
  {}

  lemma {:induction false} StaysHalted(s: System, es: seq<Event>)
    requires Halted(s)
    ensures Halted(RunAll(s, es))
    decreases |es|
  {
    if es != [] {
      HaltedStep(s, es[0]);
      StaysHalted(Apply(s, es[0]), es[1..]);
    }
  }

  /**
   * The transport of a socket that is no longer open closes as soon as its request has ended,
   * not before, and from then on nothing is polled.
   */
  lemma ClosingEndsPolling(buffered: seq<Packet>, maxPayload: int, es: seq<Event>, later: seq<Event>)
    requires Reach(buffered, maxPayload, es).f.state != F.Open
    ensures var s := Apply(Reach(buffered, maxPayload, es), TransportClose);
            && (s.poll.Requesting? ==> Apply(s, TransportClosed) == s)
            && var closed := Apply(Apply(s, PollFails), TransportClosed);
               closed.polling == P.Closed && Halted(RunAll(closed, later))
  {
    StaysHalted(Apply(Apply(Apply(Reach(buffered, maxPayload, es), TransportClose), PollFails), TransportClosed), later);
  }

  // ---- Closing ----

  lemma {:induction false} StaysClosed(s: System, es: seq<Event>)
    requires s.f.state == F.Closed
    ensures RunAll(s, es).f.state == F.Closed
    decreases |es|
  {
    if es != [] {
      StaysClosed(Apply(s, es[0]), es[1..]);
    }
  }

  lemma {:induction false} NeverOpensAgain(s: System, es: seq<Event>)
    requires s.f.state != F.Opening
    ensures RunAll(s, es).f.state != F.Opening
    decreases |es|
  {
    if es != [] {
      NeverOpensAgain(Apply(s, es[0]), es[1..]);
    }
  }

  /** From every state one teardown closes the socket for good; Close only announces it. */
  lemma TeardownIsFinal(buffered: seq<Packet>, maxPayload: int, es: seq<Event>, later: seq<Event>)
    ensures var s := Reach(buffered, maxPayload, es);
            && RunAll(Apply(s, Teardown), later).f.state == F.Closed
            && Apply(s, CloseCall) == s.(f := s.f.(state := if s.f.state == F.Open then F.Closing else s.f.state))
  {
    NeverOpensAgain(Init(buffered, maxPayload), es);
    StaysClosed(Apply(Reach(buffered, maxPayload, es), Teardown), later);
  }

  // ---- Flushing ----

  /** A flush goes round again exactly when it had no error and the open socket can and has to write. */
  lemma FlushGoesOnExactly(buffered: seq<Packet>, maxPayload: int, es: seq<Event>)
    requires Reach(buffered, maxPayload, es).pc.Ending?
    ensures var s := Reach(buffered, maxPayload, es);
            var s' := Apply(s, FlushEnds);
            && s'.pc.Idle?
            && (s'.wants > s.wants <==> !s.pc.failed && s.f.state == F.Open && !s.f.upgrading && s'.f.writeBuffer != [])
  {
    Reachable(buffered, maxPayload, es);
    TrimNeverPanics(buffered, maxPayload, es);
  }
}
