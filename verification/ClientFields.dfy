/**
 * The client socket between its handshake and its close: the fields guarded by the
 * socket's mutex and the critical sections of socket.go as functions on them.
 */
module ClientFields {
  import opened Basics
  import opened Packets

  datatype SocketState = Opening | Open | Closing | Closed

  /** The polling transport the socket started on, or the link of one upgrade probe. */
  datatype Carrier = Poll | Link(id: nat)

  datatype Fields = Fields(
    state: SocketState,
    transport: Option<Carrier>,
    writeBuffer: seq<Packet>,
    upgrading: bool,
    flushing: bool,
    flushWG: nat)

  function Opened(buffered: seq<Packet>): Fields {
    Fields(Open, Some(Poll), buffered, false, false, 0)
  }

  /** Sends are taken while opening too, and wait for the handshake. */
  predicate Live(f: Fields) {
    f.state == Open || f.state == Opening
  }

  function Enqueue(f: Fields, packets: seq<Packet>): Fields {
    if Live(f) then f.(writeBuffer := f.writeBuffer + packets) else f
  }

  predicate CanFlush(f: Fields) {
    f.state == Open && !f.upgrading && f.transport.Some? && f.writeBuffer != [] && !f.flushing
  }

  function BeginFlush(f: Fields): Fields {
    f.(flushing := true, flushWG := f.flushWG + 1)
  }

  /** The trimming slice is in bounds; otherwise the source would panic. */
  predicate CanTrim(f: Fields, sent: nat) {
    f.flushWG > 0 && (f.state == Open ==> sent <= |f.writeBuffer|)
  }

  function EndFlush(f: Fields, sent: nat): Fields
    requires CanTrim(f, sent)
  {
    f.(writeBuffer := if f.state == Open then f.writeBuffer[sent..] else f.writeBuffer,
       flushing := false, flushWG := f.flushWG - 1)
  }

  /** After a trim without error: the loop goes round again. */
  predicate More(f: Fields) {
    f.state == Open && !f.upgrading && f.transport.Some? && f.writeBuffer != []
  }

  function BeginUpgrade(f: Fields): Fields {
    f.(upgrading := true)
  }

  function CancelUpgrade(f: Fields): Fields {
    f.(upgrading := false)
  }

  function Adopt(f: Fields, id: nat): Fields {
    f.(transport := Some(Link(id)), upgrading := false)
  }

  function BeginCloseTransport(f: Fields): Fields {
    if Live(f) then f.(state := Closing) else f
  }

  function BeginTeardown(f: Fields): Fields {
    if f.state == Closed then f
    else f.(state := Closed, transport := None, writeBuffer := [], upgrading := false)
  }
}

/** What is sent before the socket is open waits for it, in order. */
module OpeningBuffer {
  import opened Basics
  import opened Packets
  import opened ClientFields

  function SendAll(f: Fields, sends: seq<seq<Packet>>): Fields
    decreases |sends|
  {
    if sends == [] then f else SendAll(Enqueue(f, sends[0]), sends[1..])
  }

  lemma {:induction false} AllAreKept(f: Fields, sends: seq<seq<Packet>>)
    ensures SendAll(f, sends) == if f.state == Opening || f.state == Open then f.(writeBuffer := f.writeBuffer + Flat(sends)) else f
    decreases |sends|
  {
    if sends != [] {
      AllAreKept(Enqueue(f, sends[0]), sends[1..]);
      Assoc(f.writeBuffer, sends[0], Flat(sends[1..]));
    }
  }

  /** Once it opens, a socket holds what was sent while it was opening; and it can be closed before. */
  lemma OpensWithWhatWasSent(sends: seq<seq<Packet>>)
    ensures var f := SendAll(Fields(Opening, Some(Poll), [], false, false, 0), sends);
            && f.(state := Open) == Opened(Flat(sends))
            && BeginCloseTransport(f) == f.(state := Closing)
  {
    AllAreKept(Fields(Opening, Some(Poll), [], false, false, 0), sends);
  }
}

/** The socket object: each critical section updates the fields in place. */
module SocketObject {
  import opened Basics
  import opened Packets
  import opened ClientFields
  import opened Chunking

  class Socket {
    var state: SocketState
    var transport: Option<Carrier>
    var writeBuffer: seq<Packet>
    var upgrading: bool
    var flushing: bool
    var flushWG: nat

    ghost function View(): Fields
      reads this
    {
      Fields(state, transport, writeBuffer, upgrading, flushing, flushWG)
    }

    constructor (buffered: seq<Packet>)
      ensures View() == Opened(buffered)
    {
      state, transport, writeBuffer := Open, Some(Poll), buffered;
      upgrading, flushing, flushWG := false, false, 0;
    }

    method Send(packets: seq<Packet>) returns (accepted: bool)
      modifies this
      ensures View() == Enqueue(old(View()), packets)
      ensures accepted == Live(old(View()))
    {
      if state != Open && state != Opening {
        return false;
      }
      writeBuffer := writeBuffer + packets;
      accepted := true;
    }

    /** The top of the flush loop: claims the flush and takes a copy of the buffer. */
    method BeginFlush() returns (ok: bool, packets: seq<Packet>, via: Option<Carrier>)
      modifies this
      ensures ok == CanFlush(old(View()))
      ensures View() == if ok then ClientFields.BeginFlush(old(View())) else old(View())
      ensures if ok then packets == old(writeBuffer) && via == old(transport) && via.Some? else packets == [] && via == None
    {
      if state != Open || upgrading || transport == None || |writeBuffer| == 0 || flushing {
        return false, [], None;
      }
      flushing := true;
      flushWG := flushWG + 1;
      return true, writeBuffer, transport;
    }

    method EndFlush(sent: nat, failed: bool) returns (more: bool)
      requires CanTrim(View(), sent)
      modifies this
      ensures View() == ClientFields.EndFlush(old(View()), sent)
      ensures more <==> !failed && More(View())
    {
      if state == Open {
        writeBuffer := writeBuffer[sent..];
      }
      flushing := false;
      flushWG := flushWG - 1;
      more := !failed && state == Open && !upgrading && transport != None && |writeBuffer| != 0;
    }

    method BeginUpgrade() returns (ok: bool, replaced: Option<Carrier>)
      modifies this
      ensures ok <==> old(state) == Open
      ensures View() == if ok then ClientFields.BeginUpgrade(old(View())) else old(View())
      ensures replaced == if ok then old(transport) else None
    {
      if state != Open {
        return false, None;
      }
      upgrading := true;
      return true, transport;
    }

    method CancelUpgrade()
      modifies this
      ensures View() == ClientFields.CancelUpgrade(old(View()))
    {
      upgrading := false;
    }

    method Adopt(id: nat) returns (ok: bool)
      modifies this
      ensures ok <==> old(state) == Open
      ensures View() == if ok then ClientFields.Adopt(old(View()), id) else old(View())
    {
      if state != Open {
        return false;
      }
      transport := Some(Link(id));
      upgrading := false;
      ok := true;
    }

    method BeginCloseTransport() returns (closing: Option<Carrier>)
      modifies this
      ensures View() == ClientFields.BeginCloseTransport(old(View()))
      ensures closing == if Live(old(View())) then old(transport) else None
    {
      if state != Open && state != Opening {
        return None;
      }
      state := Closing;
      return transport;
    }

    method BeginTeardown() returns (closing: Option<Carrier>, ok: bool)
      modifies this
      ensures ok <==> old(state) != Closed
      ensures View() == ClientFields.BeginTeardown(old(View()))
      ensures closing == if ok then old(transport) else None
    {
      if state == Closed {
        return None, false;
      }
      state := Closed;
      closing := transport;
      transport := None;
      writeBuffer := [];
      upgrading := false;
      ok := true;
    }
  }

  /**
   * sendChunks against a transport whose k-th write succeeds when results[k] does: it
   * stops at the first failure and counts the packets of the chunks before it.
   */
  method SendChunks(packets: seq<Packet>, maxPayload: int, results: seq<bool>)
    returns (sent: nat, failed: bool, done: nat)
    requires |results| == |Chunks(packets, maxPayload)|
    ensures done <= |results| && (forall k :: 0 <= k < done ==> results[k])
    ensures failed <==> done < |results|
    ensures failed ==> !results[done]
    ensures sent == |Flat(Chunks(packets, maxPayload)[..done])| && sent <= |packets|
    ensures packets[..sent] == Flat(Chunks(packets, maxPayload)[..done])
    ensures !failed ==> sent == |packets|
  {
    var chunks := ChunkPackets(packets, maxPayload);
    ChunksFlat(packets, maxPayload);
    sent, done, failed := 0, 0, false;
    while done < |chunks|
      invariant done <= |chunks| && sent == |Flat(chunks[..done])| && !failed
      invariant forall k :: 0 <= k < done ==> results[k]
    {
      if !results[done] {
        failed := true;
        break;
      }
      FlatTake(chunks, done);
      sent := sent + |chunks[done]|;
      done := done + 1;
    }
    FlatTake(chunks, done);
    if !failed {
      assert chunks[..done] == chunks;
    }
  }
}
