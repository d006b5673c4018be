/** The server's WebSocket read loop: a probe's handshake first, the session's packets after (server_transport_websocket.go). */
module WebSocketLoop {
  import opened Basics
  import opened Packets
  import opened WebTransportFraming

  /**
   * What one read returns. `pongSent` says whether answering a probe ping would succeed and
   * `current` whether the session's upgrade in flight is still this transport's at that moment;
   * `closed` says whether the session has closed the transport meanwhile.
   */
  datatype Arrival =
    | Frame(isBinary: bool, data: seq<byte>, pongSent: bool, current: bool)
    | ReadError(closed: bool, current: bool)

  /** Calls the loop makes, in order. An Abort or Complete of a probe that is not current has no effect. */
  datatype Action =
    | Pong
    | OnProbe
    | Complete(current: bool)
    | Abort(current: bool)
    | Dispatch(packet: Packet)
    | CloseForParse
    | CloseForTransport

  datatype State = State(closed: bool, probing: bool)

  /** The bytes of "probe". */
  const PROBE: seq<byte> := [112, 114, 111, 98, 101]

  /** What a frame carries: a binary frame is a message, a text frame a packet. */
  function Carried(a: Arrival): Option<Packet>
    requires a.Frame?
  {
    Interpret(a.isBinary, a.data)
  }

  predicate IsPing(p: Packet) {
    p.ptype == PING && p.data == PROBE
  }

  function ProbeActions(p: Packet, a: Arrival): seq<Action>
    requires a.Frame?
  {
    if IsPing(p) then (if a.pongSent then [Pong, OnProbe] else [Abort(a.current)])
    else if p.ptype == UPGRADE then [Complete(a.current)]
    else []
  }

  function AfterProbe(st: State, p: Packet, a: Arrival): State
    requires a.Frame?
  {
    if IsPing(p) then (if a.pongSent then st else st.(closed := st.closed || a.current))
    else if p.ptype == UPGRADE && a.current then st.(probing := false)
    else st
  }

  /** What ends the loop, when the arrival does. */
  function Ending(st: State, a: Arrival): seq<Action> {
    match a
    case ReadError(closed, current) =>
      if st.closed || closed then [] else if st.probing then [Abort(current)] else [CloseForTransport]
    case Frame(_, _, _, current) =>
      if st.probing then [Abort(current)] else [CloseForParse]
  }

  predicate Ends(a: Arrival) {
    a.ReadError? || Carried(a).None?
  }

  function Run(st: State, arrivals: seq<Arrival>): seq<Action>
    decreases |arrivals|
  {
    if arrivals == [] then []
    else
      var a := arrivals[0];
      if Ends(a) then Ending(st, a)
      else
        var p := Carried(a).value;
        if st.probing then ProbeActions(p, a) + Run(AfterProbe(st, p, a), arrivals[1..])
        else [Dispatch(p)] + Run(st, arrivals[1..])
  }

  class ServerWebSocketTransport {
    var closed: bool
    var probing: bool
    var actions: seq<Action>

    ghost function View(): State
      reads this
    {
      State(closed, probing)
    }

    constructor (probing: bool)
      ensures View() == State(false, probing) && actions == []
    {
      this.probing := probing;
      closed, actions := false, [];
    }

    method Promote()
      modifies this
      ensures View() == old(View()).(probing := false) && actions == old(actions)
    {
      probing := false;
    }

    method Close()
      modifies this
      ensures View() == old(View()).(closed := true) && actions == old(actions)
    {
      closed := true;
    }

    /** abortUpgrade on this transport: it is closed when its probe is the one in flight. */
    method AbortUpgrade(current: bool)
      modifies this
      ensures actions == old(actions) + [Abort(current)]
      ensures View() == old(View()).(closed := old(closed) || current)
    {
      actions := actions + [Abort(current)];
      if current {
        Close();
      }
    }

    method CompleteUpgrade(current: bool)
      modifies this
      ensures actions == old(actions) + [Complete(current)]
      ensures View() == old(View()).(probing := old(probing) && !current)
    {
      actions := actions + [Complete(current)];
      if current {
        Promote();
      }
    }

    method HandleProbePacket(packet: Packet, a: Arrival)
      requires a.Frame? && probing
      modifies this
      ensures actions == old(actions) + ProbeActions(packet, a)
      ensures View() == AfterProbe(old(View()), packet, a)
    {
      if packet.ptype == PING && packet.data == PROBE {
        if !a.pongSent {
          AbortUpgrade(a.current);
          return;
        }
        actions := actions + [Pong, OnProbe];
      } else if packet.ptype == UPGRADE {
        CompleteUpgrade(a.current);
      }
    }

    /** The loop's last turn. */
    method Finish(a: Arrival)
      requires Ends(a)
      modifies this
      ensures actions == old(actions) + Ending(old(View()), a)
    {
      if a.ReadError? {
        if closed || a.closed {
          return;
        }
        if probing {
          AbortUpgrade(a.current);
        } else {
          actions := actions + [CloseForTransport];
        }
      } else if probing {
        AbortUpgrade(a.current);
      } else {
        actions := actions + [CloseForParse];
      }
    }

    /** readLoop, over the arrivals up to the one that ends it. */
    method ReadLoop(arrivals: seq<Arrival>)
      modifies this
      ensures actions == old(actions) + Run(old(View()), arrivals)
    {
      var i := 0;
      while i < |arrivals|
        invariant 0 <= i <= |arrivals|
        invariant actions + Run(View(), arrivals[i..]) == old(actions) + Run(old(View()), arrivals)
      {
        var a := arrivals[i];
        assert arrivals[i..][0] == a && arrivals[i..][1..] == arrivals[i + 1..];
        if a.ReadError? || Carried(a).None? {
          Finish(a);
          return;
        }
        var packet := Carried(a).value;
        if probing {
          HandleProbePacket(packet, a);
        } else {
          actions := actions + [Dispatch(packet)];
        }
        i := i + 1;
      }
    }
  }

  // ---- What reaches the session ----

  /** The frame that hands the session over to this transport. */
  predicate Commits(a: Arrival) {
    a.Frame? && a.current && Carried(a).Some? && Carried(a).value.ptype == UPGRADE
  }

  /** Calls that touch the session itself rather than its upgrade. */
  predicate TouchesSession(a: Action) {
    a.Dispatch? || a.CloseForParse? || a.CloseForTransport?
  }

  predicate OnlyHandshake(actions: seq<Action>) {
    forall k :: 0 <= k < |actions| ==> !TouchesSession(actions[k])
  }

  /** A probe that never commits never dispatches to the session and never closes it, however it fails. */
  lemma {:induction false} ProbeLeavesSessionAlone(st: State, arrivals: seq<Arrival>)
    requires st.probing && forall k :: 0 <= k < |arrivals| ==> !Commits(arrivals[k])
    ensures OnlyHandshake(Run(st, arrivals))
    decreases |arrivals|
  {
    if arrivals != [] && !Ends(arrivals[0]) {
      var a := arrivals[0];
      assert !Commits(a);
      ProbeLeavesSessionAlone(AfterProbe(st, Carried(a).value, a), arrivals[1..]);
    }
  }

  /** The packets of frames, in order. */
  function Dispatches(arrivals: seq<Arrival>): seq<Action>
    requires forall k :: 0 <= k < |arrivals| ==> !Ends(arrivals[k])
  {
    if arrivals == [] then []
    else
      assert !Ends(arrivals[0]);
      [Dispatch(Carried(arrivals[0]).value)] + Dispatches(arrivals[1..])
  }

  /** A promoted transport dispatches every frame in order, up to the arrival that ends it. */
  lemma {:induction false} PromotedDispatches(st: State, arrivals: seq<Arrival>, n: nat)
    requires !st.probing && n <= |arrivals| && (n < |arrivals| ==> Ends(arrivals[n]))
    requires forall k :: 0 <= k < n ==> !Ends(arrivals[k])
    ensures Run(st, arrivals)
            == Dispatches(arrivals[..n])
               + if n == |arrivals| then []
                 else if arrivals[n].Frame? then [CloseForParse]
                 else if st.closed || arrivals[n].closed then [] else [CloseForTransport]
    decreases |arrivals|
  {
    if n > 0 {
      PromotedDispatches(st, arrivals[1..], n - 1);
      assert arrivals[..n][1..] == arrivals[1..][..n - 1];
    }
  }

  // ---- What a probe answers ----

  /** The text frame "2probe". */
  predicate IsProbe(a: Arrival) {
    a.Frame? && !a.isBinary && a.data == [50, 112, 114, 111, 98, 101]
  }

  /** A text frame that begins with '5'. */
  predicate IsUpgrade(a: Arrival) {
    a.Frame? && !a.isBinary && a.data != [] && a.data[0] == 53
  }

  /** What a probe that has not committed owes to a frame. */
  function Answer(a: Arrival): seq<Action> {
    if IsProbe(a) then (if a.pongSent then [Pong, OnProbe] else [Abort(a.current)])
    else if IsUpgrade(a) then [Complete(a.current)]
    else []
  }

  function Answers(arrivals: seq<Arrival>): seq<Action> {
    if arrivals == [] then [] else Answer(arrivals[0]) + Answers(arrivals[1..])
  }

  lemma FrameMeans(a: Arrival)
    requires a.Frame? && Carried(a).Some?
    ensures IsPing(Carried(a).value) <==> IsProbe(a)
    ensures Carried(a).value.ptype == UPGRADE <==> IsUpgrade(a)
  {
    if !a.isBinary && a.data != [] {
      assert a.data == [a.data[0]] + a.data[1..];
      assert [50] + PROBE == [50, 112, 114, 111, 98, 101];
      assert a.data == [50, 112, 114, 111, 98, 101] ==> a.data[1..] == PROBE;
    }
  }

  /** A probe whose pong could not be sent has been aborted, and with that closed. */
  predicate Aborted(a: Arrival) {
    IsProbe(a) && !a.pongSent && a.current
  }

  lemma AnswersFrame(st: State, a: Arrival)
    requires a.Frame? && Carried(a).Some? && !Commits(a)
    ensures ProbeActions(Carried(a).value, a) == Answer(a)
    ensures AfterProbe(st, Carried(a).value, a) == st.(closed := st.closed || Aborted(a))
  {
    FrameMeans(a);
  }

  /**
   * A probe that does not commit answers every frame as it must, pings with a pong before
   * anything else; and it is abandoned by what ends its loop, unless it was closed before.
   */
  lemma {:induction false} ProbeAnswersExactly(st: State, arrivals: seq<Arrival>, n: nat)
    requires st.probing && n <= |arrivals| && (n < |arrivals| ==> Ends(arrivals[n]))
    requires forall k :: 0 <= k < n ==> !Ends(arrivals[k]) && !Commits(arrivals[k])
    ensures Run(st, arrivals)
            == Answers(arrivals[..n])
               + if n == |arrivals| then []
                 else if arrivals[n].ReadError? && (st.closed || arrivals[n].closed || exists k :: 0 <= k < n && Aborted(arrivals[k]))
                 then [] else [Abort(arrivals[n].current)]
    decreases |arrivals|
  {
    if n > 0 {
      var a, rest := arrivals[0], arrivals[1..];
      AnswersFrame(st, a);
      ProbeAnswersExactly(st.(closed := st.closed || Aborted(a)), rest, n - 1);
      assert arrivals[..n][1..] == rest[..n - 1];
      AbortedRest(arrivals, n);
    }
  }

  lemma AbortedRest(arrivals: seq<Arrival>, n: nat)
    requires 0 < n <= |arrivals|
    ensures (exists k :: 0 <= k < n && Aborted(arrivals[k])) <==>
            Aborted(arrivals[0]) || exists k :: 0 <= k < n - 1 && Aborted(arrivals[1..][k])
  {
    if k :| 0 < k < n && Aborted(arrivals[k]) {
      assert arrivals[1..][k - 1] == arrivals[k];
    }
    if k :| 0 <= k < n - 1 && Aborted(arrivals[1..][k]) {
      assert arrivals[k + 1] == arrivals[1..][k];
    }
  }

  function Pongs(actions: seq<Action>): nat {
    if actions == [] then 0 else (if actions[0].Pong? then 1 else 0) + Pongs(actions[1..])
  }

  /** The probe frames that can be answered. */
  function Pings(arrivals: seq<Arrival>): nat {
    if arrivals == [] then 0
    else (if IsProbe(arrivals[0]) && arrivals[0].pongSent then 1 else 0) + Pings(arrivals[1..])
  }

  lemma {:induction false} PongsAppend(a: seq<Action>, b: seq<Action>)
    ensures Pongs(a + b) == Pongs(a) + Pongs(b)
  {
    if a == [] {
      assert a + b == b;
    } else {
      assert (a + b)[1..] == a[1..] + b;
      PongsAppend(a[1..], b);
    }
  }

  lemma {:induction false} PongsAnswered(arrivals: seq<Arrival>)
    ensures Pongs(Answers(arrivals)) == Pings(arrivals)
  {
    if arrivals != [] {
      PongsAppend(Answer(arrivals[0]), Answers(arrivals[1..]));
      PongsAnswered(arrivals[1..]);
    }
  }

  /** Every probe ping that can be answered is answered with one pong, and nothing else is. */
  lemma OnePongPerPing(st: State, arrivals: seq<Arrival>)
    requires st.probing && forall k :: 0 <= k < |arrivals| ==> !Ends(arrivals[k]) && !Commits(arrivals[k])
    ensures Pongs(Run(st, arrivals)) == Pings(arrivals)
  {
    ProbeAnswersExactly(st, arrivals, |arrivals|);
    assert arrivals[..|arrivals|] == arrivals;
    PongsAppend(Answers(arrivals), []);
    PongsAnswered(arrivals);
  }

  /** The state of the transport after frames that end nothing. */
  function AfterAll(st: State, arrivals: seq<Arrival>): State
    requires forall k :: 0 <= k < |arrivals| ==> !Ends(arrivals[k])
    decreases |arrivals|
  {
    if arrivals == [] || !st.probing then st
    else
      assert !Ends(arrivals[0]);
      AfterAll(AfterProbe(st, Carried(arrivals[0]).value, arrivals[0]), arrivals[1..])
  }

  /**
   * The loop of a probe splits at its committing frame: handshake calls only before it,
   * then the completion, then the session's packets in order.
   */
  lemma {:induction false} CommitSplits(st: State, arrivals: seq<Arrival>, k: nat)
    requires st.probing && k < |arrivals| && Commits(arrivals[k])
    requires forall j :: 0 <= j < k ==> !Ends(arrivals[j]) && !Commits(arrivals[j])
    ensures Run(st, arrivals)
            == Run(st, arrivals[..k]) + [Complete(true)]
               + Run(AfterAll(st, arrivals[..k]).(probing := false), arrivals[k + 1..])
    ensures OnlyHandshake(Run(st, arrivals[..k]))
    decreases k
  {
    ProbeLeavesSessionAlone(st, arrivals[..k]);
    if k > 0 {
      var a, rest := arrivals[0], arrivals[1..];
      CommitSplits(AfterProbe(st, Carried(a).value, a), rest, k - 1);
      assert arrivals[..k][1..] == rest[..k - 1] && rest[k..] == arrivals[k + 1..];
    }
  }
}
