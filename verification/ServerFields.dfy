/**
 * The fields of a server session guarded by its mutex, and every critical section of
 * server_socket.go as a function on them. A concurrent run of the session is a sequence
 * of these sections, one at a time.
 */
module ServerFields {
  import opened Basics
  import opened Packets

  datatype SessionState = Opening | Open | Closing | Closed

  /** A transport object, told apart by identity. */
  datatype Transport = Polling(id: nat) | Promotable(id: nat)

  /** A probe-noop stop channel, told apart by identity. */
  type Chan = nat

  /** A timer field is true while the source holds a timer in it that has not fired. */
  datatype Fields = Fields(
    state: SessionState,
    transport: Option<Transport>,
    upgradeTransport: Option<Transport>,
    upgrading: bool,
    writeBuffer: seq<Packet>,
    pingTimer: bool,
    pongTimer: bool,
    upgradeTimer: bool,
    closeTimer: bool,
    probeNoopStop: Option<Chan>)

  function NewSession(t: Transport): Fields {
    Fields(Opening, Some(t), None, false, [], false, false, false, false, None)
  }

  function StopTimers(f: Fields): Fields {
    f.(pingTimer := false, pongTimer := false, upgradeTimer := false, closeTimer := false)
  }

  /** Send: refused once closing. */
  predicate CanSend(f: Fields) {
    f.state != Closed && f.state != Closing
  }

  function Enqueue(f: Fields, p: Packet): Fields {
    f.(writeBuffer := f.writeBuffer + [p])
  }

  const ClosePacket := Packet(CLOSE, [], false)
  const PingPacket := Packet(PING, [], false)
  const NoopPacket := Packet(NOOP, [], false)

  predicate CanBeginClose(f: Fields) {
    f.state == Opening || f.state == Open
  }

  function BeginClose(f: Fields): Fields {
    Enqueue(StopTimers(f.(state := Closing)), ClosePacket)
  }

  function OpenSession(f: Fields): Fields {
    if f.state != Opening then f else f.(state := Open, pingTimer := true)
  }

  function OnPong(f: Fields): Fields {
    if f.state != Open then f else f.(pongTimer := false, pingTimer := true)
  }

  function SendPing(f: Fields): Fields {
    if f.state != Open then f else Enqueue(f, PingPacket).(pongTimer := true)
  }

  /** The ping timer fires; its callback is SendPing. */
  function PingFires(f: Fields): Fields {
    f.(pingTimer := false)
  }

  /** Close's last section: the fallback that ends a drain nobody polls for. */
  function ArmCloseTimer(f: Fields): Fields {
    if f.state == Closing && !f.closeTimer then f.(closeTimer := true) else f
  }

  predicate CanTeardown(f: Fields) {
    f.state != Closed
  }

  function BeginTeardown(f: Fields): Fields {
    StopTimers(f.(state := Closed, transport := None, upgradeTransport := None, upgrading := false,
                  probeNoopStop := None, writeBuffer := []))
  }

  predicate CanStartUpgrade(f: Fields) {
    f.state == Open && !f.upgrading && f.transport.Some? && f.transport.value.Polling?
  }

  function StartUpgrade(f: Fields, t: Transport): Fields {
    f.(upgrading := true, upgradeTransport := Some(t), upgradeTimer := true)
  }

  predicate CanProbe(f: Fields) {
    f.upgrading && f.probeNoopStop.None?
  }

  function OnProbe(f: Fields, ch: Chan): Fields {
    f.(probeNoopStop := Some(ch))
  }

  /** The in-flight upgrade is the one of transport t. */
  predicate Probing(f: Fields, t: Transport) {
    f.upgrading && f.upgradeTransport == Some(t)
  }

  function BeginCompleteUpgrade(f: Fields, t: Transport): Fields {
    f.(upgrading := false, transport := Some(t), upgradeTransport := None, upgradeTimer := false,
       probeNoopStop := None)
  }

  function BeginAbortUpgrade(f: Fields): Fields {
    f.(upgrading := false, upgradeTransport := None, upgradeTimer := false, probeNoopStop := None)
  }

  /** The flush loop has something to write. */
  predicate CanFlush(f: Fields) {
    f.state != Closed && f.transport.Some? && f.writeBuffer != []
  }

  /** Drops the packets just handed off, tolerating a teardown that emptied the buffer. */
  function Trim(f: Fields, count: nat): Fields {
    f.(writeBuffer := if count <= |f.writeBuffer| then f.writeBuffer[count..] else [])
  }

  /** What the session's fields satisfy in every reachable state. */
  ghost predicate Consistent(f: Fields) {
    && (f.upgrading <==> f.upgradeTransport.Some?)
    && (f.upgrading ==>
          && (f.state == Open || f.state == Closing)
          && f.transport.Some? && f.transport.value.Polling?
          && f.upgradeTransport.value.Promotable?)
    && (f.probeNoopStop.Some? || f.upgradeTimer ==> f.upgrading)
    && (f.upgrading && f.state == Open ==> f.upgradeTimer)
    && (f.pingTimer || f.pongTimer || f.upgradeTimer ==> f.state == Open)
    && (f.closeTimer ==> f.state == Closing)
    && (f.transport.None? <==> f.state == Closed)
    && (f.state == Closed ==> f.writeBuffer == [])
  }
}

/** The session object: each critical section updates the fields in place. */
module ServerSocketObject {
  import opened Basics
  import opened Packets
  import opened ServerFields

  class ServerSocket {
    var state: SessionState
    var transport: Option<Transport>
    var upgradeTransport: Option<Transport>
    var upgrading: bool
    var writeBuffer: seq<Packet>
    var pingTimer: bool
    var pongTimer: bool
    var upgradeTimer: bool
    var closeTimer: bool
    var probeNoopStop: Option<Chan>

    ghost function View(): Fields
      reads this
    {
      Fields(state, transport, upgradeTransport, upgrading, writeBuffer,
             pingTimer, pongTimer, upgradeTimer, closeTimer, probeNoopStop)
    }

    ghost predicate Valid()
      reads this
    {
      Consistent(View())
    }

    constructor (t: Transport)
      ensures Valid() && View() == NewSession(t)
    {
      state, transport, upgradeTransport, upgrading := Opening, Some(t), None, false;
      writeBuffer, probeNoopStop := [], None;
      pingTimer, pongTimer, upgradeTimer, closeTimer := false, false, false, false;
    }

    method StopTimersLocked()
      modifies this
      ensures View() == StopTimers(old(View()))
    {
      pingTimer := false;
      pongTimer := false;
      upgradeTimer := false;
      closeTimer := false;
    }

    method Send(data: seq<byte>, isBinary: bool) returns (accepted: bool)
      requires Valid()
      modifies this
      ensures Valid() && accepted == CanSend(old(View()))
      ensures View() == if accepted then Enqueue(old(View()), Packet(MESSAGE, data, isBinary)) else old(View())
    {
      if state == Closed || state == Closing {
        return false;
      }
      writeBuffer := writeBuffer + [Packet(MESSAGE, data, isBinary)];
      accepted := true;
    }

    method BeginClose() returns (ok: bool)
      requires Valid()
      modifies this
      ensures Valid() && ok == CanBeginClose(old(View()))
      ensures View() == if ok then ServerFields.BeginClose(old(View())) else old(View())
    {
      if state != Opening && state != Open {
        return false;
      }
      state := Closing;
      StopTimersLocked();
      writeBuffer := writeBuffer + [ClosePacket];
      ok := true;
    }

    method OpenSession()
      requires Valid()
      modifies this
      ensures Valid() && View() == ServerFields.OpenSession(old(View()))
    {
      if state == Opening {
        state := Open;
        pingTimer := true;
      }
    }

    method OnPong()
      requires Valid()
      modifies this
      ensures Valid() && View() == ServerFields.OnPong(old(View()))
    {
      if state == Open {
        pongTimer := false;
        pingTimer := true;
      }
    }

    method SendPing() returns (sent: bool)
      requires Valid()
      modifies this
      ensures Valid() && View() == ServerFields.SendPing(old(View()))
      ensures sent <==> old(state) == Open
    {
      if state != Open {
        return false;
      }
      writeBuffer := writeBuffer + [PingPacket];
      pongTimer := true;
      sent := true;
    }

    method ArmCloseTimer()
      requires Valid()
      modifies this
      ensures Valid() && View() == ServerFields.ArmCloseTimer(old(View()))
    {
      if state == Closing && !closeTimer {
        closeTimer := true;
      }
    }

    /** Claims the closed transition and hands the caller everything that must be released. */
    method BeginTeardown()
      returns (active: Option<Transport>, upgrade: Option<Transport>, stop: Option<Chan>, ok: bool)
      requires Valid()
      modifies this
      ensures Valid() && ok == CanTeardown(old(View()))
      ensures View() == if ok then ServerFields.BeginTeardown(old(View())) else old(View())
      ensures if ok then active == old(transport) && upgrade == old(upgradeTransport) && stop == old(probeNoopStop)
              else active == None && upgrade == None && stop == None
    {
      active, upgrade, stop, ok := None, None, None, false;
      if state == Closed {
        return;
      }
      state := Closed;
      StopTimersLocked();
      active, upgrade, stop, ok := transport, upgradeTransport, probeNoopStop, true;
      transport := None;
      upgradeTransport := None;
      upgrading := false;
      probeNoopStop := None;
      writeBuffer := [];
    }

    method StartUpgrade(t: Transport) returns (ok: bool)
      requires Valid() && t.Promotable?
      modifies this
      ensures Valid() && ok == CanStartUpgrade(old(View()))
      ensures View() == if ok then ServerFields.StartUpgrade(old(View()), t) else old(View())
    {
      if state != Open || upgrading || transport == None || !transport.value.Polling? {
        return false;
      }
      upgrading := true;
      upgradeTransport := Some(t);
      upgradeTimer := true;
      ok := true;
    }

    method OnProbe(ch: Chan) returns (started: bool)
      requires Valid()
      modifies this
      ensures Valid() && started == CanProbe(old(View()))
      ensures View() == if started then ServerFields.OnProbe(old(View()), ch) else old(View())
    {
      if !upgrading || probeNoopStop != None {
        return false;
      }
      probeNoopStop := Some(ch);
      started := true;
    }

    method BeginCompleteUpgrade(t: Transport) returns (old_: Option<Transport>, stop: Option<Chan>, ok: bool)
      requires Valid()
      modifies this
      ensures Valid() && ok == Probing(old(View()), t)
      ensures View() == if ok then ServerFields.BeginCompleteUpgrade(old(View()), t) else old(View())
      ensures if ok then old_ == old(transport) && stop == old(probeNoopStop) else old_ == None && stop == None
    {
      old_, stop, ok := None, None, false;
      if !upgrading || upgradeTransport != Some(t) {
        return;
      }
      upgrading := false;
      old_ := transport;
      transport := Some(t);
      upgradeTransport := None;
      upgradeTimer := false;
      stop := probeNoopStop;
      probeNoopStop := None;
      ok := true;
    }

    method BeginAbortUpgrade(t: Transport) returns (stop: Option<Chan>, ok: bool)
      requires Valid()
      modifies this
      ensures Valid() && ok == Probing(old(View()), t)
      ensures View() == if ok then ServerFields.BeginAbortUpgrade(old(View())) else old(View())
      ensures if ok then stop == old(probeNoopStop) else stop == None
    {
      stop, ok := None, false;
      if !upgrading || upgradeTransport != Some(t) {
        return;
      }
      upgrading := false;
      upgradeTransport := None;
      upgradeTimer := false;
      stop := probeNoopStop;
      probeNoopStop := None;
      ok := true;
    }

    /** The top of the flush loop: what to write, and over which transport. */
    method Snapshot() returns (packets: seq<Packet>, via: Option<Transport>)
      requires Valid()
      ensures if CanFlush(View()) then packets == writeBuffer && via == transport
              else packets == [] && via == None
    {
      if state == Closed || transport == None || |writeBuffer| == 0 {
        return [], None;
      }
      return writeBuffer, transport;
    }

    method TrimHandedOff(packets: seq<Packet>) returns (drained: bool, closing: bool, closed: bool)
      requires Valid()
      modifies this
      ensures Valid() && View() == Trim(old(View()), |packets|)
      ensures (drained <==> writeBuffer == []) && (closing <==> state == Closing) && (closed <==> state == Closed)
    {
      if |packets| <= |writeBuffer| {
        writeBuffer := writeBuffer[|packets|..];
      } else {
        writeBuffer := [];
      }
      drained, closing, closed := |writeBuffer| == 0, state == Closing, state == Closed;
    }
  }
}
