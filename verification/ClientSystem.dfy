/** The client polling transport's own state (socket_transport_polling.go). */
module ClientPolling {

  datatype TransportState = Opening | Open | Pausing | Paused | Closing | Closed

  predicate Running(st: TransportState) {
    st == Opening || st == Open
  }

  function Opened(st: TransportState): TransportState {
    if st == Closed then Opening else st
  }

  function Pause(st: TransportState): TransportState {
    if Running(st) then Pausing else st
  }

  function Close(st: TransportState): TransportState {
    if st != Closed then Closing else st
  }

  class PollingTransport {
    var state: TransportState

    constructor ()
      ensures state == Closed
    {
      state := Closed;
    }

    method BeginOpen() returns (ok: bool)
      modifies this
      ensures (ok <==> old(state) == Closed) && state == Opened(old(state))
    {
      ok := state == Closed;
      if ok {
        state := Opening;
      }
    }

    method BeginPause() returns (ok: bool)
      modifies this
      ensures (ok <==> Running(old(state))) && state == Pause(old(state))
    {
      ok := state == Opening || state == Open;
      if ok {
        state := Pausing;
      }
    }

    method BeginClose() returns (ok: bool)
      modifies this
      ensures (ok <==> old(state) != Closed) && state == Close(old(state))
    {
      ok := state != Closed;
      if ok {
        state := Closing;
      }
    }

    method OnClose() returns (notify: bool)
      modifies this
      ensures state == Closed && (notify <==> old(state) != Closed)
    {
      notify := state != Closed;
      state := Closed;
    }
  }
}

/**
 * The client socket as a step system: senders, the flush they share, the poll goroutine,
 * the read loop of the probing link with its pong handler, and the close paths.
 */
module ClientSystem {
  import opened Basics
  import opened Packets
  import opened Chunking
  import F = ClientFields
  import P = ClientPolling

  /** Program counter of the running flush; k chunks have been written. */
  datatype FlushPc =
    | Idle
    | Sending(via: F.Carrier, packets: seq<Packet>, k: nat)
    | Posting(packets: seq<Packet>, k: nat)
    | Ending(packets: seq<Packet>, k: nat, failed: bool)

  /** Program counter of the probe and its pong handler. */
  datatype UpgradePc =
    | NoProbe
    | Probing(id: nat)
    | Draining(id: nat)       // waiting on flushWG
    | Committing(id: nat)     // about to send the upgrade packet
    | Failing(id: nat)        // the upgrade packet could not be sent
    | Committed(id: nat)      // about to call Pause
    | PauseLocking(id: nat)   // in Pause, waiting for pollMu
    | PauseWaiting(id: nat)   // in Pause, waiting on pollWG
    | Adopting(id: nat)
    | Adopted(id: nat)

  /** The poll goroutines: at most one request or dispatch, plus those that only have to leave pollWG. */
  datatype PollPc = Stopped | Scheduled | Requesting | Dispatching(rest: seq<Packet>)

  /** History; no step reads it. */
  datatype Log = Log(
    accepted: seq<Packet>,     // packets taken by Send, from the handshake on
    trimmed: seq<Packet>,      // packets dropped from the buffer as sent
    counted: seq<Packet>,      // packets sendChunks counted as sent
    posted: seq<Packet>,       // packets whose POST the server acknowledged
    up: seq<Packet>,           // frames written to the link that was upgraded to
    link: nat,                 // that link
    dispatched: seq<Packet>,   // messages delivered to the application
    lost: seq<Packet>,         // packets the open socket lost to a polling transport that was not open
    cut: bool,                 // a chunk was lost to a closed link, or after the socket left the open state
    failed: bool,              // some flush ended with an error
    quiesced: bool)            // Pause, called on a running transport, has returned

  datatype System = System(
    f: F.Fields,
    maxPayload: int,
    pc: FlushPc,
    wants: nat,                // goroutines about to call flush
    up: UpgradePc,
    linkOpen: bool,
    used: set<nat>,
    polling: P.TransportState,
    poll: PollPc,
    finishing: nat,
    log: Log)

  datatype Event =
    | Send(packets: seq<Packet>)
    | FlushCall
    | FlushBegins
    | ChunkStarts(ok: bool)
    | PostEnds(ok: bool)
    | FlushEnds
    | ProbeStarts(id: nat)
    | ProbeFails
    | PongArrives
    | Drained
    | Commit(ok: bool)
    | CancelCommit
    | PauseBegins
    | PauseLocks
    | PauseReturns
    | AdoptLink
    | LinkCloses
    | PollStarts
    | PollReturns(payload: seq<Packet>)
    | PollFails
    | DispatchOne
    | DispatchEnds
    | PollLeaves
    | FrameArrives(p: Packet)
    | CloseCall
    | Teardown
    | TransportClose
    | TransportClosed

  const UpgradePacket := Packet(UPGRADE, [], false)
  const PongPacket := Packet(PONG, [], false)

  function Init(buffered: seq<Packet>, maxPayload: int): System {
    System(F.Opened(buffered), maxPayload, Idle, 1, NoProbe, false, {}, P.Open, Dispatching([]), 0,
           Log(buffered, [], [], [], [], 0, [], [], false, false, false))
  }

  function DoSend(s: System, packets: seq<Packet>): System {
    if s.f.state != F.Open then s
    else s.(f := F.Enqueue(s.f, packets), wants := s.wants + 1,
            log := s.log.(accepted := s.log.accepted + packets))
  }

  function DoFlushBegins(s: System): System {
    if s.wants == 0 then s
    else if F.CanFlush(s.f)
    then s.(f := F.BeginFlush(s.f), wants := s.wants - 1, pc := Sending(s.f.transport.value, s.f.writeBuffer, 0))
    else s.(wants := s.wants - 1)
  }

  /** The chunks a flush writes, and how many packets the first k of them hold. */
  function ChunksOf(s: System, packets: seq<Packet>): seq<seq<Packet>> {
    Chunks(packets, s.maxPayload)
  }

  /** transport.Send on the next chunk; a transport that is not open swallows it without an error. */
  function DoChunk(s: System, ok: bool): System {
    if !s.pc.Sending? then s
    else
      var chunks := ChunksOf(s, s.pc.packets);
      if s.pc.k >= |chunks| then s.(pc := Ending(s.pc.packets, s.pc.k, false))
      else
        var chunk := chunks[s.pc.k];
        var counted := s.log.counted + chunk;
        if s.pc.via.Poll? then
          if s.polling == P.Open then s.(pc := Posting(s.pc.packets, s.pc.k))
          else s.(pc := Sending(s.pc.via, s.pc.packets, s.pc.k + 1),
                  log := if s.f.state == F.Open then s.log.(counted := counted, lost := s.log.lost + chunk)
                         else s.log.(counted := counted, cut := true))
        else if !s.linkOpen then
          s.(pc := Sending(s.pc.via, s.pc.packets, s.pc.k + 1),
             log := s.log.(counted := counted, cut := true))
        else if !ok then s.(pc := Ending(s.pc.packets, s.pc.k, true))
        else s.(pc := Sending(s.pc.via, s.pc.packets, s.pc.k + 1),
                log := s.log.(counted := counted, up := s.log.up + chunk))
  }

  /** The POST in flight is acknowledged, or fails having delivered nothing. */
  function DoPostEnds(s: System, ok: bool): System {
    if !s.pc.Posting? then s
    else
      var chunks := ChunksOf(s, s.pc.packets);
      if !ok || s.pc.k >= |chunks| then s.(pc := Ending(s.pc.packets, s.pc.k, true))
      else s.(pc := Sending(F.Poll, s.pc.packets, s.pc.k + 1),
              log := s.log.(counted := s.log.counted + chunks[s.pc.k], posted := s.log.posted + chunks[s.pc.k]))
  }

  function SentCount(s: System): nat
    requires s.pc.Ending?
  {
    var chunks := ChunksOf(s, s.pc.packets);
    |Flat(chunks[..if s.pc.k <= |chunks| then s.pc.k else |chunks|])|
  }

  function DoFlushEnds(s: System): System {
    if !s.pc.Ending? || !F.CanTrim(s.f, SentCount(s)) then s
    else
      var f := F.EndFlush(s.f, SentCount(s));
      var trimmed := if s.f.state == F.Open then s.f.writeBuffer[..SentCount(s)] else [];
      s.(f := f, pc := Idle, wants := if !s.pc.failed && F.More(f) then s.wants + 1 else s.wants,
         log := s.log.(trimmed := s.log.trimmed + trimmed, failed := s.log.failed || s.pc.failed))
  }

  /** Probes are tried one after another, whatever has become of the socket. */
  function DoProbeStarts(s: System, id: nat): System {
    if s.up.NoProbe? && id !in s.used
    then s.(up := Probing(id), linkOpen := true, used := s.used + {id}) else s
  }

  function DoPong(s: System): System {
    if !s.up.Probing? then s
    else if s.f.state != F.Open then s.(up := NoProbe, linkOpen := false)
    else s.(f := F.BeginUpgrade(s.f), up := Draining(s.up.id))
  }

  /** The upgrade packet, the first frame of the link. */
  function DoCommit(s: System, ok: bool): System {
    if !s.up.Committing? then s
    else if !s.linkOpen then s.(up := Committed(s.up.id))
    else if !ok then s.(up := Failing(s.up.id))
    else s.(up := Committed(s.up.id), log := s.log.(up := s.log.up + [UpgradePacket], link := s.up.id))
  }

  function DoCancel(s: System): System {
    if !s.up.Failing? then s
    else s.(f := F.CancelUpgrade(s.f), up := NoProbe, linkOpen := false, wants := s.wants + 1)
  }

  function DoPauseBegins(s: System): System {
    if !s.up.Committed? then s
    else if P.Running(s.polling) then s.(polling := P.Pause(s.polling), up := PauseLocking(s.up.id))
    else s.(up := Adopting(s.up.id))
  }

  /** pollMu is free when no request is in flight. */
  function DoPauseLocks(s: System): System {
    if !s.up.PauseLocking? || s.poll.Requesting? then s
    else s.(polling := P.Paused, up := PauseWaiting(s.up.id))
  }

  function DoPauseReturns(s: System): System {
    if !s.up.PauseWaiting? || s.poll.Dispatching? || s.finishing > 0 then s
    else s.(up := Adopting(s.up.id), log := s.log.(quiesced := true))
  }

  function DoAdopt(s: System): System {
    if !s.up.Adopting? then s
    else if s.f.state != F.Open then s.(up := NoProbe, linkOpen := false)
    else s.(f := F.Adopt(s.f, s.up.id), up := Adopted(s.up.id), wants := s.wants + 1)
  }

  function DoPollStarts(s: System): System {
    if !s.poll.Scheduled? then s
    else s.(poll := if P.Running(s.polling) then Requesting else Stopped)
  }

  /** Socket.onPacket: dropped once closed; a message goes to the application, a ping is answered. */
  function Receive(s: System, p: Packet): System {
    if s.f.state == F.Closed then s
    else if IsMessage(p) then s.(log := s.log.(dispatched := s.log.dispatched + [p]))
    else if p.ptype == PING then DoSend(s, [PongPacket])
    else s
  }

  function DoDispatch(s: System): System {
    if !s.poll.Dispatching? || s.poll.rest == [] then s
    else
      var p := s.poll.rest[0];
      Receive(s.(poll := Dispatching(s.poll.rest[1..]),
                 polling := if p.ptype == CLOSE then P.Closed else s.polling), p)
  }

  function DoDispatchEnds(s: System): System {
    if s.poll != Dispatching([]) then s
    else s.(poll := if s.polling == P.Open then Scheduled else Stopped, finishing := s.finishing + 1)
  }

  function Apply(s: System, e: Event): System {
    match e
    case Send(packets) => DoSend(s, packets)
    case FlushCall => s.(wants := s.wants + 1)
    case FlushBegins => DoFlushBegins(s)
    case ChunkStarts(ok) => DoChunk(s, ok)
    case PostEnds(ok) => DoPostEnds(s, ok)
    case FlushEnds => DoFlushEnds(s)
    case ProbeStarts(id) => DoProbeStarts(s, id)
    case ProbeFails => if s.up.Probing? then s.(up := NoProbe, linkOpen := false) else s
    case PongArrives => DoPong(s)
    case Drained => if s.up.Draining? && s.f.flushWG == 0 then s.(up := Committing(s.up.id)) else s
    case Commit(ok) => DoCommit(s, ok)
    case CancelCommit => DoCancel(s)
    case PauseBegins => DoPauseBegins(s)
    case PauseLocks => DoPauseLocks(s)
    case PauseReturns => DoPauseReturns(s)
    case AdoptLink => DoAdopt(s)
    case LinkCloses => s.(linkOpen := false)
    case PollStarts => DoPollStarts(s)
    case PollReturns(payload) => if s.poll.Requesting? && payload != [] then s.(poll := Dispatching(payload)) else s
    case PollFails => if s.poll.Requesting? then s.(poll := Stopped, finishing := s.finishing + 1) else s
    case DispatchOne => DoDispatch(s)
    case DispatchEnds => DoDispatchEnds(s)
    case PollLeaves => if s.finishing > 0 then s.(finishing := s.finishing - 1) else s
    case FrameArrives(p) => if s.up.Adopted? then Receive(s, p) else s
    case CloseCall => s.(f := F.BeginCloseTransport(s.f))
    case Teardown => s.(f := F.BeginTeardown(s.f))
    case TransportClose => if s.f.state != F.Open then s.(polling := P.Close(s.polling)) else s
    case TransportClosed => if s.polling == P.Closing && !s.poll.Requesting? then s.(polling := P.Closed) else s
  }

  function RunAll(s: System, es: seq<Event>): System
    decreases |es|
  {
    if es == [] then s else RunAll(Apply(s, es[0]), es[1..])
  }
}
