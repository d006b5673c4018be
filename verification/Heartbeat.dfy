/**
 * The heartbeat across both ends on a discrete clock: the server pings, the client answers,
 * and each end gives up when it has heard nothing for too long. Timers are ideal, so time
 * does not pass a deadline; a packet in flight arrives by its own deadline.
 */
module Heartbeat {
  import opened Basics

  datatype Config = Config(
    interval: nat,
    timeout: nat,
    pingDelay: nat,   // longest time from a ping being queued to the client handling it
    pongDelay: nat,   // longest time from there to the server handling the pong
    openLag: nat)     // longest time from the open packet being sent to the session being open

  datatype End = Opening | Open | Closed

  datatype State = State(
    now: nat,
    server: End,
    pingAt: Option<nat>,
    pongAt: Option<nat>,
    beat: nat,                // when the server last saw a pong, or opened
    client: End,
    giveUpAt: Option<nat>,
    heard: nat,               // when the client last handled a packet
    pings: seq<nat>,          // pings in flight, by when they arrive
    pongs: seq<nat>,
    serverTimedOut: bool,
    clientTimedOut: bool)

  datatype Event =
    | Tick(d: nat)
    | ServerOpens
    | ClientOpens
    | PingTimer
    | PongTimer
    | ClientTimer
    | PingArrives
    | PongArrives
    | MessageArrives          // anything else the server sends
    | StrayPong               // a pong that answers no ping

  function Init(): State {
    State(0, Opening, None, None, 0, Opening, None, 0, [], [], false, false)
  }

  predicate NotPast(t: nat, deadline: Option<nat>) {
    deadline.Some? ==> t <= deadline.value
  }

  predicate AllBy(t: nat, deadlines: seq<nat>) {
    forall k :: 0 <= k < |deadlines| ==> t <= deadlines[k]
  }

  /** Time may pass up to t: no timer is skipped and no packet is late. */
  predicate CanReach(c: Config, s: State, t: nat) {
    && (s.server == Opening ==> t <= c.openLag)
    && NotPast(t, s.pingAt) && NotPast(t, s.pongAt) && NotPast(t, s.giveUpAt)
    && AllBy(t, s.pings) && AllBy(t, s.pongs)
  }

  predicate Due(s: State, deadline: Option<nat>) {
    deadline.Some? && deadline.value <= s.now
  }

  /** armPingLocked. */
  function ArmPing(c: Config, s: State): State {
    s.(pingAt := Some(s.now + c.interval))
  }

  function OnOpen(c: Config, s: State): State {
    if s.server != Opening then s else ArmPing(c, s).(server := Open, beat := s.now)
  }

  function OnPong(c: Config, s: State): State {
    if s.server != Open then s else ArmPing(c, s).(pongAt := None, beat := s.now)
  }

  function SendPing(c: Config, s: State): State {
    if s.server != Open then s.(pingAt := None)
    else s.(pingAt := None, pongAt := Some(s.now + c.timeout), pings := s.pings + [s.now + c.pingDelay])
  }

  /** reschedulePingTimeout, on every packet the client handles. */
  function Reschedule(c: Config, s: State): State {
    s.(heard := s.now,
       giveUpAt := if c.interval + c.timeout <= 0 then None else Some(s.now + c.interval + c.timeout))
  }

  function OnPing(c: Config, s: State): State {
    if s.client != Open then s else Reschedule(c, s).(pongs := s.pongs + [s.now + c.pongDelay])
  }

  function Apply(c: Config, s: State, e: Event): State {
    match e
    case Tick(d) => if CanReach(c, s, s.now + d) then s.(now := s.now + d) else s
    case ServerOpens => OnOpen(c, s)
    case ClientOpens => if s.client != Opening then s else Reschedule(c, s).(client := Open)
    case PingTimer => if Due(s, s.pingAt) then SendPing(c, s) else s
    case PongTimer =>
      if Due(s, s.pongAt) && s.server == Open
      then s.(server := Closed, serverTimedOut := true, pingAt := None, pongAt := None) else s
    case ClientTimer =>
      if Due(s, s.giveUpAt) && s.client == Open
      then s.(client := Closed, clientTimedOut := true, giveUpAt := None) else s
    case PingArrives => if s.pings == [] || s.client == Opening then s else OnPing(c, s.(pings := s.pings[1..]))
    case PongArrives => if s.pongs == [] then s else OnPong(c, s.(pongs := s.pongs[1..]))
    case MessageArrives => if s.client == Open then Reschedule(c, s) else s
    case StrayPong => OnPong(c, s)
  }

  function RunAll(c: Config, s: State, es: seq<Event>): State
    decreases |es|
  {
    if es == [] then s else RunAll(c, Apply(c, s, es[0]), es[1..])
  }

  // ---- Giving up in time ----

  /** An end that is open is never later than interval plus timeout after what it last heard. */
  ghost predicate InTime(c: Config, s: State) {
    && (s.server == Opening ==> s.pingAt == None && s.pongAt == None)
    && (s.server == Open ==>
          && s.now <= s.beat + c.interval + c.timeout
          && (s.pongAt.Some? ==> s.pingAt == None && s.pongAt.value <= s.beat + c.interval + c.timeout)
          && (s.pongAt.None? ==> s.pingAt.Some? && s.pingAt.value <= s.beat + c.interval && s.now <= s.pingAt.value))
    && (s.client == Opening ==> s.giveUpAt == None)
    && (s.client == Open && c.interval + c.timeout > 0 ==>
          s.giveUpAt == Some(s.heard + c.interval + c.timeout) && s.now <= s.giveUpAt.value)
  }

  lemma TickInTime(c: Config, s: State, d: nat)
    requires InTime(c, s)
    ensures InTime(c, Apply(c, s, Tick(d)))
  {}

  lemma StepInTime(c: Config, s: State, e: Event)
    requires InTime(c, s)
    ensures InTime(c, Apply(c, s, e))
  {
    if e.Tick? {
      TickInTime(c, s, e.d);
    }
  }

  lemma {:induction false} RunInTime(c: Config, s: State, es: seq<Event>)
    requires InTime(c, s)
    ensures InTime(c, RunAll(c, s, es))
    decreases |es|
  {
    if es != [] {
      StepInTime(c, s, es[0]);
      RunInTime(c, Apply(c, s, es[0]), es[1..]);
    }
  }

  /** However pongs and messages arrive, a silent peer is given up on within interval plus timeout. */
  lemma SilenceCloses(c: Config, es: seq<Event>)
    ensures var s := RunAll(c, Init(), es);
            && (s.now > s.beat + c.interval + c.timeout ==> s.server != Open)
            && (s.now > s.heard + c.interval + c.timeout && c.interval + c.timeout > 0 ==> s.client != Open)
  {
    RunInTime(c, Init(), es);
  }

  /** Whatever the client handles postpones its deadline, and a pong schedules the server's next ping. */
  lemma HearingPostpones(c: Config, s: State, e: Event)
    ensures s.client == Open && (e.MessageArrives? || (e.PingArrives? && s.pings != [])) && c.interval + c.timeout > 0 ==>
              Apply(c, s, e).giveUpAt == Some(s.now + c.interval + c.timeout)
    ensures s.server == Open && (e.StrayPong? || (e.PongArrives? && s.pongs != [])) ==>
              Apply(c, s, e).pingAt == Some(s.now + c.interval) && Apply(c, s, e).pongAt == None
    ensures s.client == Open && e.PingArrives? && s.pings != [] ==>
              Apply(c, s, e).pongs == s.pongs + [s.now + c.pongDelay]
  {}

  // ---- Not giving up too early ----

  predicate NoStray(es: seq<Event>) {
    forall k :: 0 <= k < |es| ==> es[k] != StrayPong
  }

  /** The delays leave room for a whole ping and pong, and for the first ping, within the timeout. */
  predicate Timely(c: Config) {
    c.pingDelay + c.pongDelay < c.timeout && c.openLag + c.pingDelay < c.timeout
  }

  /** The server waits for its ping timer, for its ping to arrive, or for the pong. */
  ghost predicate Cycle(c: Config, s: State) {
    if s.pongAt.None? then
      s.pingAt == Some(s.beat + c.interval) && s.pings == [] && s.pongs == [] && s.now <= s.beat + c.interval
    else
      && s.pongAt == Some(s.beat + c.interval + c.timeout) && s.pingAt == None
      && (|| (s.pings == [s.beat + c.interval + c.pingDelay] && s.pongs == [] && s.now <= s.pings[0])
          || (s.pings == [] && |s.pongs| == 1 && s.client == Open && s.now <= s.pongs[0]
              && s.pongs[0] <= s.beat + c.interval + c.pingDelay + c.pongDelay
              && s.pongs[0] <= s.heard + c.pongDelay))
  }

  ghost predicate Steady(c: Config, s: State) {
    && !s.serverTimedOut && !s.clientTimedOut && s.server != Closed && s.client != Closed
    && (s.server == Opening ==>
          s.pingAt == None && s.pongAt == None && s.pings == [] && s.pongs == [] && s.now <= c.openLag)
    && (s.server == Open ==> Cycle(c, s) && s.beat <= s.now)
    && (s.client == Opening ==> s.giveUpAt == None && s.pongs == [])
    && (s.client == Open ==>
          && s.giveUpAt == Some(s.heard + c.interval + c.timeout) && s.heard <= s.now
          && (s.server == Open && s.pongs == [] ==> s.beat + c.pingDelay < s.heard + c.timeout))
  }

  lemma TickSteady(c: Config, s: State, d: nat)
    requires Timely(c) && Steady(c, s)
    ensures Steady(c, Apply(c, s, Tick(d)))
  {
    assert s.pings != [] ==> s.pings[0] in s.pings;
    assert s.pongs != [] ==> s.pongs[0] in s.pongs;
  }

  lemma ArrivalSteady(c: Config, s: State, e: Event)
    requires Timely(c) && Steady(c, s) && (e.PingArrives? || e.PongArrives?)
    ensures Steady(c, Apply(c, s, e))
  {}

  lemma TimerSteady(c: Config, s: State, e: Event)
    requires Timely(c) && Steady(c, s) && (e.PingTimer? || e.PongTimer? || e.ClientTimer?)
    ensures Steady(c, Apply(c, s, e))
  {}

  lemma StepSteady(c: Config, s: State, e: Event)
    requires Timely(c) && Steady(c, s) && e != StrayPong
    ensures Steady(c, Apply(c, s, e))
  {
    if e.Tick? {
      TickSteady(c, s, e.d);
    } else if e.PingArrives? || e.PongArrives? {
      ArrivalSteady(c, s, e);
    } else if e.PingTimer? || e.PongTimer? || e.ClientTimer? {
      TimerSteady(c, s, e);
    }
  }

  lemma {:induction false} RunSteady(c: Config, s: State, es: seq<Event>)
    requires Timely(c) && Steady(c, s) && NoStray(es)
    ensures Steady(c, RunAll(c, s, es))
    decreases |es|
  {
    if es != [] {
      assert es[0] != StrayPong;
      StepSteady(c, s, es[0]);
      RunSteady(c, Apply(c, s, es[0]), es[1..]);
    }
  }

  /** Some end gives up although both are alive and every packet is on time. */
  ghost predicate FalseAlarm(c: Config, es: seq<Event>) {
    var s := RunAll(c, Init(), es);
    NoStray(es) && (s.serverTimedOut || s.clientTimedOut)
  }

  lemma {:induction false} RunAppend(c: Config, s: State, es: seq<Event>, e: Event)
    ensures RunAll(c, s, es + [e]) == Apply(c, RunAll(c, s, es), e)
    decreases |es|
  {
    if es == [] {
      assert RunAll(c, s, [e]) == RunAll(c, Apply(c, s, e), [e][1..]);
    } else {
      assert (es + [e])[1..] == es[1..] + [e];
      RunAppend(c, Apply(c, s, es[0]), es[1..], e);
    }
  }

  lemma Then(c: Config, es: seq<Event>, e: Event) returns (es': seq<Event>)
    requires NoStray(es) && e != StrayPong
    ensures NoStray(es') && RunAll(c, Init(), es') == Apply(c, RunAll(c, Init(), es), e)
  {
    RunAppend(c, Init(), es, e);
    es' := es + [e];
  }

  lemma FirstPing(c: Config) returns (es: seq<Event>)
    ensures NoStray(es)
    ensures var s := RunAll(c, Init(), es);
            && s.now == c.interval && s.server == Open && s.client == Open
            && s.pingAt == None && s.pongAt == Some(c.interval + c.timeout) && NotPast(c.interval + c.timeout, s.giveUpAt)
            && s.pings == [c.interval + c.pingDelay] && s.pongs == []
  {
    es := [];
    es := Then(c, es, ServerOpens);
    es := Then(c, es, ClientOpens);
    es := Then(c, es, Tick(c.interval));
    es := Then(c, es, PingTimer);
  }

  /** A slow round trip: the pong is still on its way when the server's deadline comes. */
  lemma SlowRoundTrip(c: Config) returns (es: seq<Event>)
    requires c.pingDelay + c.pongDelay >= c.timeout
    ensures FalseAlarm(c, es)
  {
    es := FirstPing(c);
    if c.pingDelay < c.timeout {
      es := Then(c, es, Tick(c.pingDelay));
      es := Then(c, es, PingArrives);
      es := Then(c, es, Tick(c.timeout - c.pingDelay));
    } else {
      es := Then(c, es, Tick(c.timeout));
    }
    es := Then(c, es, PongTimer);
  }

  /** The client opened at once, and the server as late as it may. */
  lemma OpenedLate(c: Config) returns (es: seq<Event>)
    requires c.openLag < c.interval + c.timeout
    ensures NoStray(es)
    ensures var s := RunAll(c, Init(), es);
            && s.now == c.openLag && s.server == Open && s.client == Open && s.pings == [] && s.pongs == []
            && s.pingAt == Some(c.openLag + c.interval) && s.pongAt == None && s.giveUpAt == Some(c.interval + c.timeout)
  {
    es := [];
    es := Then(c, es, ClientOpens);
    es := Then(c, es, Tick(c.openLag));
    es := Then(c, es, ServerOpens);
  }

  /** The client's deadline comes up with the first ping still on its way. */
  lemma WaitedOut(c: Config) returns (es: seq<Event>)
    requires c.openLag + c.pingDelay >= c.timeout && c.openLag < c.interval + c.timeout
    ensures NoStray(es)
    ensures var s := RunAll(c, Init(), es); s.client == Open && Due(s, s.giveUpAt)
  {
    es := OpenedLate(c);
    if c.openLag >= c.timeout {
      es := Then(c, es, Tick(c.interval + c.timeout - c.openLag));
    } else {
      es := Then(c, es, Tick(c.interval));
      es := Then(c, es, PingTimer);
      es := Then(c, es, Tick(c.timeout - c.openLag));
    }
  }

  /** A session opened late: the client gives up before the first ping reaches it. */
  lemma LateOpen(c: Config) returns (es: seq<Event>)
    requires c.openLag + c.pingDelay >= c.timeout > 0
    ensures FalseAlarm(c, es)
  {
    if c.openLag >= c.interval + c.timeout {
      es := Then(c, [], ClientOpens);
      es := Then(c, es, Tick(c.interval + c.timeout));
    } else {
      es := WaitedOut(c);
    }
    es := Then(c, es, ClientTimer);
  }

  /** No end ever gives up on a live peer, exactly when the delays leave room within the timeout. */
  lemma NoFalseAlarm(c: Config)
    ensures Timely(c) <==> forall es :: !FalseAlarm(c, es)
  {
    if Timely(c) {
      forall es | NoStray(es)
        ensures !FalseAlarm(c, es)
      {
        RunSteady(c, Init(), es);
      }
    } else if c.pingDelay + c.pongDelay >= c.timeout {
      var es := SlowRoundTrip(c);
    } else {
      var es := LateOpen(c);
    }
  }
}

/** The server's half of the heartbeat is the session's: the same sections arm and clear the same timers. */
module SessionHeartbeat {
  import opened Basics
  import F = ServerFields
  import H = Heartbeat

  /** An open session has exactly the timers pending that the heartbeat says. */
  ghost predicate Matches(h: H.State, f: F.Fields) {
    && (h.server == H.Opening <==> f.state == F.Opening) && (h.server == H.Open <==> f.state == F.Open)
    && (f.state == F.Open ==> f.pingTimer == h.pingAt.Some? && f.pongTimer == h.pongAt.Some?)
    && (f.state == F.Opening ==> !f.pingTimer && !f.pongTimer && h.pingAt == None && h.pongAt == None)
  }

  /** What the session does on an event of the heartbeat. */
  function Section(h: H.State, f: F.Fields, e: H.Event): F.Fields {
    match e
    case ServerOpens => F.OpenSession(f)
    case PingTimer => if H.Due(h, h.pingAt) then F.SendPing(F.PingFires(f)) else f
    case PongTimer => if H.Due(h, h.pongAt) && f.state == F.Open then F.BeginTeardown(f) else f
    case PongArrives => if h.pongs == [] then f else F.OnPong(f)
    case StrayPong => F.OnPong(f)
    case _ => f
  }

  lemma SessionFollows(c: H.Config, h: H.State, f: F.Fields, e: H.Event)
    requires Matches(h, f)
    ensures Matches(H.Apply(c, h, e), Section(h, f, e))
  {}

  function RunSession(c: H.Config, h: H.State, f: F.Fields, es: seq<H.Event>): F.Fields
    decreases |es|
  {
    if es == [] then f else RunSession(c, H.Apply(c, h, es[0]), Section(h, f, es[0]), es[1..])
  }

  /** In every run of the heartbeat the session's timers are those of the clock model. */
  lemma {:induction false} TimersAgree(c: H.Config, h: H.State, f: F.Fields, es: seq<H.Event>)
    requires Matches(h, f)
    ensures Matches(H.RunAll(c, h, es), RunSession(c, h, f, es))
    decreases |es|
  {
    if es != [] {
      SessionFollows(c, h, f, es[0]);
      TimersAgree(c, H.Apply(c, h, es[0]), Section(h, f, es[0]), es[1..]);
    }
  }

  /** A new session and a new heartbeat agree. */
  lemma TimersAgreeFromTheStart(c: H.Config, t: F.Transport, es: seq<H.Event>)
    ensures Matches(H.RunAll(c, H.Init(), es), RunSession(c, H.Init(), F.NewSession(t), es))
  {
    TimersAgree(c, H.Init(), F.NewSession(t), es);
  }
}
