/** The server polling transport: a one-slot rendezvous with the held GET (server_transport_polling.go). */
module PollSlot {
  import opened Basics

  /** A poll's delivery channel, told apart by identity. */
  type Chan = nat

  datatype Fields = Fields(closed: bool, dataCh: Option<Chan>)

  datatype HoldResult = Held | Overlap | Refused

  function HoldOutcome(f: Fields): HoldResult {
    if f.closed then Refused else if f.dataCh.Some? then Overlap else Held
  }

  function Empty(f: Fields): Fields {
    f.(dataCh := None)
  }

  /** The channel send takes: none when the transport is closed or no poll is held. */
  function SendClaim(f: Fields): Option<Chan> {
    if f.closed then None else f.dataCh
  }

  class ServerPollingTransport {
    var closed: bool
    var dataCh: Option<Chan>

    ghost function View(): Fields
      reads this
    {
      Fields(closed, dataCh)
    }

    /** Once closed, no poll is held. */
    ghost predicate Valid()
      reads this
    {
      closed ==> dataCh == None
    }

    constructor ()
      ensures Valid() && View() == Fields(false, None)
    {
      closed, dataCh := false, None;
    }

    method Hold(ch: Chan) returns (r: HoldResult)
      requires Valid()
      modifies this
      ensures Valid() && r == HoldOutcome(old(View()))
      ensures View() == if r == Held then Fields(false, Some(ch)) else old(View())
    {
      if closed {
        return Refused;
      }
      if dataCh != None {
        return Overlap;
      }
      dataCh := Some(ch);
      return Held;
    }

    /** send up to the unlock: the channel to deliver on, or none. */
    method ClaimForSend() returns (ch: Option<Chan>)
      requires Valid()
      modifies this
      ensures Valid() && ch == old(dataCh) && View() == Empty(old(View()))
    {
      if closed {
        return None;
      }
      ch := dataCh;
      if ch == None {
        return;
      }
      dataCh := None;
    }

    method Release(ch: Chan) returns (reclaimed: bool)
      requires Valid()
      modifies this
      ensures Valid() && (reclaimed <==> old(dataCh) == Some(ch))
      ensures View() == if reclaimed then Empty(old(View())) else old(View())
    {
      if dataCh == Some(ch) {
        dataCh := None;
        return true;
      }
      return false;
    }

    method ClaimForNoop() returns (ch: Option<Chan>)
      requires Valid()
      modifies this
      ensures Valid() && ch == old(dataCh) && View() == Empty(old(View()))
    {
      ch := dataCh;
      dataCh := None;
    }

    method ClaimForClose() returns (ch: Option<Chan>)
      requires Valid()
      modifies this
      ensures Valid() && ch == old(dataCh) && View() == Fields(true, None)
    {
      if closed {
        return None;
      }
      closed := true;
      ch := dataCh;
      dataCh := None;
    }
  }
}

/**
 * The polls held on all polling transports of the process, the goroutines that deliver to
 * them and the buffers of the pool they share, as a step system.
 */
module PollLedger {
  import opened Basics
  import opened Packets
  import opened PollSlot

  /** A pooled byte buffer, told apart by identity. */
  type Buffer = nat

  /** A polling transport, told apart by identity. */
  type Id = nat

  /** handlePoll, once its channel is held. */
  datatype Handler =
    | Waiting                    // in the select
    | Taking                     // cancelled, but release said a delivery is in flight
    | Writing(buffer: Buffer)    // about to write the response
    | Returning(buffer: Buffer)  // about to put the buffer back
    | Released                   // cancelled before any delivery
    | Done

  /** A send, writeNoop or close that has claimed a channel. */
  datatype Sender = Claimed(ch: Chan, packets: seq<Packet>) | Encoded(ch: Chan, buffer: Buffer)

  datatype Owner = InPool | WithSender(i: nat) | InChannel(ch: Chan) | WithHandler(ch: Chan) | Dropped

  /** History; a step reads only `owner` and `senders`, to tell fresh identities, and whether `pushed` and `puts` know a channel. */
  datatype Log = Log(
    claimer: map<Chan, nat>,              // the goroutine that took each channel
    payload: map<Chan, seq<Packet>>,      // what it was asked to deliver
    pushed: map<Chan, nat>,               // payloads put on each channel
    answered: map<Chan, seq<Packet>>,     // the body each poll was answered with
    puts: map<Chan, nat>,                 // putPollBuffer calls of each handler
    owner: map<Buffer, Owner>,
    senders: set<nat>)

  datatype System = System(
    slots: map<Id, Fields>,
    handlers: map<Chan, Handler>,
    home: map<Chan, Id>,                  // the transport each poll was held on
    queue: map<Chan, seq<Buffer>>,        // channel contents; the capacity is 1
    senders: map<nat, Sender>,
    pool: multiset<Buffer>,
    content: map<Buffer, seq<Packet>>,    // what each buffer encodes
    log: Log)

  datatype Event =
    | Hold(t: Id, ch: Chan)
    | Send(t: Id, i: nat, packets: seq<Packet>)
    | WriteNoop(t: Id, i: nat)
    | Close(t: Id, i: nat)
    | Encode(i: nat, b: Buffer)
    | Push(i: nat)
    | Receive(ch: Chan)
    | Cancel(ch: Chan)
    | Take(ch: Chan)
    | Respond(ch: Chan)
    | Put(ch: Chan, keep: bool)

  function Init(): System {
    System(map[], map[], map[], map[], map[], multiset{}, map[],
           Log(map[], map[], map[], map[], map[], map[], {}))
  }

  /** A transport's fields; a new one is open and holds nothing. */
  function Slot(s: System, t: Id): Fields {
    if t in s.slots then s.slots[t] else Fields(false, None)
  }

  function DoHold(s: System, t: Id, ch: Chan): System {
    if ch in s.handlers || HoldOutcome(Slot(s, t)) != Held then s
    else s.(slots := s.slots[t := Fields(false, Some(ch))],
            handlers := s.handlers[ch := Waiting],
            home := s.home[ch := t],
            queue := s.queue[ch := []],
            log := s.log.(pushed := s.log.pushed[ch := 0], puts := s.log.puts[ch := 0]))
  }

  /** Goroutine i has taken the channel held on t, if there was one, leaving the slot as f. */
  function Claim(s: System, t: Id, i: nat, f: Fields, packets: seq<Packet>): System {
    var ch := Slot(s, t).dataCh;
    if ch == None then s.(slots := s.slots[t := f])
    else s.(slots := s.slots[t := f], senders := s.senders[i := Claimed(ch.value, packets)],
            log := s.log.(claimer := s.log.claimer[ch.value := i],
                          payload := s.log.payload[ch.value := packets],
                          senders := s.log.senders + {i}))
  }

  const NoopPayload := [Packet(NOOP, [], false)]
  const ClosePayload := [Packet(CLOSE, [], false)]

  function DoSend(s: System, t: Id, i: nat, packets: seq<Packet>): System {
    if i in s.log.senders || SendClaim(Slot(s, t)) == None then s
    else Claim(s, t, i, Empty(Slot(s, t)), packets)
  }

  function DoClose(s: System, t: Id, i: nat): System {
    if i in s.log.senders || Slot(s, t).closed then s
    else Claim(s, t, i, Fields(true, None), ClosePayload)
  }

  /** getPollBuffer: a buffer of the pool, or a new one, is overwritten with the payload. */
  function DoEncode(s: System, i: nat, b: Buffer): System {
    if i !in s.senders || !s.senders[i].Claimed? then s
    else if b in s.log.owner && b !in s.pool then s
    else
      var ch := s.senders[i].ch;
      s.(senders := s.senders[i := Encoded(ch, b)],
         pool := s.pool - multiset{b},
         content := s.content[b := s.senders[i].packets],
         log := s.log.(owner := s.log.owner[b := WithSender(i)]))
  }

  /** The channel send; on a full channel the goroutine would block. */
  predicate CanPush(s: System, i: nat) {
    && i in s.senders && s.senders[i].Encoded?
    && s.senders[i].ch in s.queue && |s.queue[s.senders[i].ch]| < 1
  }

  function DoPush(s: System, i: nat): System {
    if !CanPush(s, i) || s.senders[i].ch !in s.log.pushed then s
    else
      var ch, b := s.senders[i].ch, s.senders[i].buffer;
      s.(senders := s.senders - {i},
         queue := s.queue[ch := s.queue[ch] + [b]],
         log := s.log.(pushed := s.log.pushed[ch := s.log.pushed[ch] + 1],
                       owner := s.log.owner[b := InChannel(ch)]))
  }

  predicate CanReceive(s: System, ch: Chan, h: Handler) {
    ch in s.handlers && s.handlers[ch] == h && ch in s.queue && s.queue[ch] != []
  }

  function DoReceive(s: System, ch: Chan): System
    requires ch in s.queue && s.queue[ch] != [] && ch in s.handlers
  {
    var b := s.queue[ch][0];
    s.(queue := s.queue[ch := s.queue[ch][1..]],
       handlers := s.handlers[ch := if s.handlers[ch] == Waiting then Writing(b) else Returning(b)],
       log := s.log.(owner := s.log.owner[b := WithHandler(ch)]))
  }

  function DoCancel(s: System, ch: Chan): System {
    if ch !in s.handlers || s.handlers[ch] != Waiting || ch !in s.home then s
    else if Slot(s, s.home[ch]).dataCh == Some(ch)
    then s.(slots := s.slots[s.home[ch] := Empty(Slot(s, s.home[ch]))], handlers := s.handlers[ch := Released])
    else s.(handlers := s.handlers[ch := Taking])
  }

  function DoRespond(s: System, ch: Chan): System {
    if ch !in s.handlers || !s.handlers[ch].Writing? || s.handlers[ch].buffer !in s.content then s
    else
      var b := s.handlers[ch].buffer;
      s.(handlers := s.handlers[ch := Returning(b)],
         log := s.log.(answered := s.log.answered[ch := s.content[b]]))
  }

  /** putPollBuffer: truncated and pooled, or dropped when it has grown too large. */
  function DoPut(s: System, ch: Chan, keep: bool): System {
    if ch !in s.handlers || !s.handlers[ch].Returning? || ch !in s.log.puts then s
    else
      var b := s.handlers[ch].buffer;
      s.(handlers := s.handlers[ch := Done],
         pool := if keep then s.pool + multiset{b} else s.pool,
         content := if keep then s.content[b := []] else s.content,
         log := s.log.(puts := s.log.puts[ch := s.log.puts[ch] + 1],
                       owner := s.log.owner[b := if keep then InPool else Dropped]))
  }

  function Apply(s: System, e: Event): System {
    match e
    case Hold(t, ch) => DoHold(s, t, ch)
    case Send(t, i, packets) => DoSend(s, t, i, packets)
    case WriteNoop(t, i) => if i in s.log.senders then s else Claim(s, t, i, Empty(Slot(s, t)), NoopPayload)
    case Close(t, i) => DoClose(s, t, i)
    case Encode(i, b) => DoEncode(s, i, b)
    case Push(i) => DoPush(s, i)
    case Receive(ch) => if CanReceive(s, ch, Waiting) then DoReceive(s, ch) else s
    case Cancel(ch) => DoCancel(s, ch)
    case Take(ch) => if CanReceive(s, ch, Taking) then DoReceive(s, ch) else s
    case Respond(ch) => DoRespond(s, ch)
    case Put(ch, keep) => DoPut(s, ch, keep)
  }

  function RunAll(s: System, es: seq<Event>): System
    decreases |es|
  {
    if es == [] then s else RunAll(Apply(s, es[0]), es[1..])
  }
}

module PollLedgerProofs {
  import opened Basics
  import opened Packets
  import opened PollSlot
  import opened PollLedger

  predicate Finished(h: Handler) {
    h.Writing? || h.Returning? || h.Done?
  }

  /** Poll ch is the one its transport holds. */
  ghost predicate IsHeld(s: System, ch: Chan) {
    ch in s.home && Slot(s, s.home[ch]).dataCh == Some(ch)
  }

  /** A slot that is not closed may hold a waiting poll of its own. */
  ghost predicate OwnPolls(s: System) {
    && (forall ch :: ch in s.handlers ==> ch in s.home)
    && (forall t :: t in s.slots ==> s.slots[t].closed ==> s.slots[t].dataCh == None)
    && forall t :: t in s.slots && s.slots[t].dataCh.Some? ==>
         var ch := s.slots[t].dataCh.value;
         ch in s.handlers && s.handlers[ch] == Waiting && ch in s.home && s.home[ch] == t
  }

  /** Every poll is released, held or claimed, and only one of these. */
  ghost predicate Claims(s: System) {
    && (forall ch :: ch in s.log.claimer <==> ch in s.log.payload)
    && (forall ch :: ch in s.log.claimer ==> ch in s.handlers)
    && forall ch :: ch in s.handlers ==> (ch in s.log.claimer <==> s.handlers[ch] != Released && !IsHeld(s, ch))
  }

  ghost predicate Slots(s: System) {
    OwnPolls(s) && Claims(s)
  }

  /** Where channel ch stands: unclaimed, owed by its claimer, queued, or received. */
  ghost predicate Stage(s: System, ch: Chan)
    requires ch in s.handlers && ch in s.queue && ch in s.log.pushed
  {
    if ch !in s.log.claimer then
      s.queue[ch] == [] && s.log.pushed[ch] == 0 && !Finished(s.handlers[ch]) && s.handlers[ch] != Taking
    else if s.log.claimer[ch] in s.senders then
      && s.senders[s.log.claimer[ch]].ch == ch && s.queue[ch] == [] && s.log.pushed[ch] == 0
      && !Finished(s.handlers[ch])
    else
      s.log.pushed[ch] == 1 && |s.queue[ch]| == if Finished(s.handlers[ch]) then 0 else 1
  }

  ghost predicate Deliveries(s: System) {
    && (forall ch :: ch in s.queue <==> ch in s.handlers)
    && (forall i :: i in s.senders ==> i in s.log.senders)
    && (forall ch :: ch in s.log.claimer ==> s.log.claimer[ch] in s.log.senders)
    && (forall i :: i in s.senders ==> s.senders[i].ch in s.log.claimer && s.log.claimer[s.senders[i].ch] == i)
    && forall ch :: ch in s.handlers ==> ch in s.log.pushed && Stage(s, ch)
  }

  ghost predicate At(s: System, b: Buffer, o: Owner) {
    b in s.log.owner && s.log.owner[b] == o
  }

  /** Buffer b belongs to o alone and holds the payload of channel ch. */
  ghost predicate Carries(s: System, b: Buffer, o: Owner, ch: Chan) {
    At(s, b, o) && b in s.content && ch in s.log.payload && s.content[b] == s.log.payload[ch]
  }

  /** The pool holds exactly the buffers it owns, each once. */
  ghost predicate Pooled(s: System) {
    forall b :: s.pool[b] == if At(s, b, InPool) then 1 else 0
  }

  ghost predicate SenderBuffers(s: System) {
    forall i :: i in s.senders ==>
      if s.senders[i].Encoded? then Carries(s, s.senders[i].buffer, WithSender(i), s.senders[i].ch)
      else s.senders[i].ch in s.log.payload && s.log.payload[s.senders[i].ch] == s.senders[i].packets
  }

  ghost predicate QueueBuffers(s: System) {
    forall ch :: ch in s.queue && s.queue[ch] != [] ==> Carries(s, s.queue[ch][0], InChannel(ch), ch)
  }

  ghost predicate HandlerBuffers(s: System) {
    && (forall ch :: ch in s.handlers && s.handlers[ch].Writing? ==> Carries(s, s.handlers[ch].buffer, WithHandler(ch), ch))
    && (forall ch :: ch in s.handlers && s.handlers[ch].Returning? ==> At(s, s.handlers[ch].buffer, WithHandler(ch)))
    && (forall ch :: ch in s.log.answered ==> ch in s.log.payload && s.log.answered[ch] == s.log.payload[ch])
  }

  ghost predicate Buffers(s: System) {
    Pooled(s) && SenderBuffers(s) && QueueBuffers(s) && HandlerBuffers(s)
  }

  ghost predicate Puts(s: System) {
    forall ch :: ch in s.handlers ==> ch in s.log.puts && s.log.puts[ch] == if s.handlers[ch] == Done then 1 else 0
  }

  ghost predicate Inv(s: System) {
    Slots(s) && Deliveries(s) && Buffers(s) && Puts(s)
  }

  /** Nothing has happened on channel ch yet. */
  ghost predicate Unclaimed(s: System, ch: Chan) {
    && ch !in s.log.claimer && ch !in s.log.payload && ch in s.handlers && s.handlers[ch] == Waiting
    && ch in s.queue && s.queue[ch] == [] && ch !in s.log.answered
    && forall i :: i in s.senders ==> s.senders[i].ch != ch
  }

  lemma SlotUnclaimed(s: System, t: Id)
    requires Inv(s) && Slot(s, t).dataCh.Some?
    ensures Unclaimed(s, Slot(s, t).dataCh.value)
  {
    assert Stage(s, Slot(s, t).dataCh.value);
  }

  lemma HoldKeepsOwn(s: System, t: Id, ch: Chan)
    requires OwnPolls(s) && Puts(s)
    ensures OwnPolls(DoHold(s, t, ch)) && Puts(DoHold(s, t, ch))
  {}

  lemma HoldKeepsHeld(s: System, t: Id, ch: Chan, c: Chan)
    requires OwnPolls(s) && c in s.handlers
    ensures IsHeld(DoHold(s, t, ch), c) == IsHeld(s, c)
  {}

  lemma HoldKeepsSlots(s: System, t: Id, ch: Chan)
    requires Slots(s) && Puts(s)
    ensures Slots(DoHold(s, t, ch)) && Puts(DoHold(s, t, ch))
  {
    HoldKeepsOwn(s, t, ch);
    forall c | c in s.handlers
      ensures IsHeld(DoHold(s, t, ch), c) == IsHeld(s, c)
    {
      HoldKeepsHeld(s, t, ch, c);
    }
  }

  /** s' is s with a new poll ch. */
  ghost predicate Arrived(s: System, s': System, ch: Chan) {
    && ch !in s.handlers && s'.handlers == s.handlers[ch := Waiting] && s'.queue == s.queue[ch := []]
    && s'.log.pushed == s.log.pushed[ch := 0] && s'.log.claimer == s.log.claimer && s'.log.senders == s.log.senders
    && s'.senders == s.senders
  }

  lemma StageStays(s: System, s': System, ch: Chan, c: Chan)
    requires Arrived(s, s', ch) && c in s.handlers && c in s.queue && c in s.log.pushed
    ensures Stage(s', c) == Stage(s, c)
  {}

  lemma ArrivalKeepsDeliveries(s: System, s': System, ch: Chan)
    requires Deliveries(s) && Arrived(s, s', ch) && ch !in s.log.claimer
    ensures Deliveries(s')
  {
    forall c | c in s'.handlers
      ensures c in s'.log.pushed && c in s'.queue && Stage(s', c)
    {
      if c != ch {
        StageStays(s, s', ch, c);
      }
    }
  }

  lemma HoldKeepsDeliveries(s: System, t: Id, ch: Chan)
    requires Claims(s) && Deliveries(s)
    ensures Deliveries(DoHold(s, t, ch))
  {
    if DoHold(s, t, ch) != s {
      ArrivalKeepsDeliveries(s, DoHold(s, t, ch), ch);
    }
  }

  lemma HoldKeepsBuffers(s: System, t: Id, ch: Chan)
    requires Buffers(s)
    ensures Buffers(DoHold(s, t, ch))
  {}

  lemma ClaimKeepsSlots(s: System, t: Id, i: nat, ch: Chan, f: Fields, packets: seq<Packet>)
    requires Slots(s) && Puts(s)
    requires Unclaimed(s, ch) && Slot(s, t).dataCh == Some(ch) && f.dataCh == None
    ensures Slots(Claim(s, t, i, f, packets)) && Puts(Claim(s, t, i, f, packets))
  {}

  lemma ClaimKeepsDeliveries(s: System, t: Id, i: nat, ch: Chan, f: Fields, packets: seq<Packet>)
    requires Deliveries(s)
    requires Unclaimed(s, ch) && Slot(s, t).dataCh == Some(ch) && i !in s.log.senders
    ensures Deliveries(Claim(s, t, i, f, packets))
  {}

  lemma ClaimKeepsBuffers(s: System, t: Id, i: nat, ch: Chan, f: Fields, packets: seq<Packet>)
    requires Buffers(s)
    requires Unclaimed(s, ch) && Slot(s, t).dataCh == Some(ch)
    ensures Buffers(Claim(s, t, i, f, packets))
  {}

  lemma EncodeKeepsSlots(s: System, i: nat, b: Buffer)
    requires Slots(s) && Puts(s)
    ensures Slots(DoEncode(s, i, b)) && Puts(DoEncode(s, i, b))
  {}

  lemma EncodeKeepsDeliveries(s: System, i: nat, b: Buffer)
    requires Deliveries(s)
    ensures Deliveries(DoEncode(s, i, b))
  {}

  lemma EncodeKeepsPooled(s: System, i: nat, b: Buffer)
    requires Pooled(s)
    ensures Pooled(DoEncode(s, i, b))
  {}

  lemma EncodeKeepsOthers(s: System, i: nat, b: Buffer)
    requires Pooled(s) && QueueBuffers(s) && HandlerBuffers(s)
    ensures QueueBuffers(DoEncode(s, i, b)) && HandlerBuffers(DoEncode(s, i, b))
  {}

  lemma EncodeKeepsSenders(s: System, i: nat, b: Buffer)
    requires Pooled(s) && SenderBuffers(s)
    ensures SenderBuffers(DoEncode(s, i, b))
  {}

  lemma EncodeKeepsBuffers(s: System, i: nat, b: Buffer)
    requires Buffers(s)
    ensures Buffers(DoEncode(s, i, b))
  {
    EncodeKeepsPooled(s, i, b);
    EncodeKeepsOthers(s, i, b);
    EncodeKeepsSenders(s, i, b);
  }

  lemma PushKeepsSlots(s: System, i: nat)
    requires Slots(s) && Puts(s)
    ensures Slots(DoPush(s, i)) && Puts(DoPush(s, i))
  {}

  lemma PushKeepsDeliveries(s: System, i: nat)
    requires Deliveries(s)
    ensures Deliveries(DoPush(s, i))
  {}

  lemma PushKeepsQueues(s: System, i: nat)
    requires SenderBuffers(s) && QueueBuffers(s)
    ensures QueueBuffers(DoPush(s, i))
  {}

  lemma PushKeepsOthers(s: System, i: nat)
    requires Pooled(s) && SenderBuffers(s) && HandlerBuffers(s)
    ensures Pooled(DoPush(s, i)) && SenderBuffers(DoPush(s, i)) && HandlerBuffers(DoPush(s, i))
  {}

  lemma PushKeepsBuffers(s: System, i: nat)
    requires Buffers(s)
    ensures Buffers(DoPush(s, i))
  {
    PushKeepsQueues(s, i);
    PushKeepsOthers(s, i);
  }

  lemma ReceiveKeepsSlots(s: System, ch: Chan)
    requires Slots(s) && Puts(s)
    requires ch in s.queue && |s.queue[ch]| == 1 && ch in s.handlers && (s.handlers[ch] == Waiting || s.handlers[ch] == Taking) && ch in s.log.claimer
    ensures Slots(DoReceive(s, ch)) && Puts(DoReceive(s, ch))
  {}

  lemma ReceiveKeepsDeliveries(s: System, ch: Chan)
    requires Deliveries(s)
    requires ch in s.queue && |s.queue[ch]| == 1 && ch in s.handlers && (s.handlers[ch] == Waiting || s.handlers[ch] == Taking)
    ensures Deliveries(DoReceive(s, ch))
  {}

  lemma ReceiveKeepsBuffers(s: System, ch: Chan)
    requires Buffers(s)
    requires ch in s.queue && |s.queue[ch]| == 1 && ch in s.handlers && (s.handlers[ch] == Waiting || s.handlers[ch] == Taking)
    ensures Buffers(DoReceive(s, ch))
  {}

  lemma CancelKeepsOwn(s: System, ch: Chan)
    requires OwnPolls(s) && Puts(s)
    ensures OwnPolls(DoCancel(s, ch)) && Puts(DoCancel(s, ch))
  {}

  lemma CancelKeepsHeld(s: System, ch: Chan, c: Chan)
    requires OwnPolls(s) && c in s.handlers && c != ch
    ensures IsHeld(DoCancel(s, ch), c) == IsHeld(s, c)
  {}

  lemma CancelKeepsSlots(s: System, ch: Chan)
    requires Slots(s) && Puts(s)
    ensures Slots(DoCancel(s, ch)) && Puts(DoCancel(s, ch))
  {
    CancelKeepsOwn(s, ch);
    forall c | c in s.handlers && c != ch
      ensures IsHeld(DoCancel(s, ch), c) == IsHeld(s, c)
    {
      CancelKeepsHeld(s, ch, c);
    }
    if DoCancel(s, ch) != s {
      CancelDrops(s, ch);
      DropKeepsClaims(s, DoCancel(s, ch), ch);
    }
  }

  lemma DropKeepsClaims(s: System, s': System, ch: Chan)
    requires Claims(s) && Dropped(s, s', ch) && !IsHeld(s', ch)
    requires forall c :: c in s.handlers && c != ch ==> IsHeld(s', c) == IsHeld(s, c)
    ensures Claims(s')
  {}

  /** s' is s with poll ch dropped: released if it was held, otherwise waiting for its delivery. */
  ghost predicate Dropped(s: System, s': System, ch: Chan) {
    && ch in s.handlers && s.handlers[ch] == Waiting
    && s' == s.(slots := s'.slots, handlers := s.handlers[ch := if IsHeld(s, ch) then Released else Taking])
  }

  lemma CancelDrops(s: System, ch: Chan)
    requires DoCancel(s, ch) != s
    ensures Dropped(s, DoCancel(s, ch), ch) && !IsHeld(DoCancel(s, ch), ch)
  {}

  lemma DropKeepsDeliveries(s: System, s': System, ch: Chan)
    requires Deliveries(s) && Dropped(s, s', ch) && (ch in s.log.claimer <==> !IsHeld(s, ch))
    ensures Deliveries(s')
  {
    forall c | c in s.handlers
      ensures Stage(s', c)
    {
      DropKeepsStage(s, s', ch, c);
    }
  }

  lemma DropKeepsStage(s: System, s': System, ch: Chan, c: Chan)
    requires Deliveries(s) && Dropped(s, s', ch) && (ch in s.log.claimer <==> !IsHeld(s, ch)) && c in s.handlers
    ensures Stage(s', c)
  {
    assert Stage(s, c);
  }

  lemma CancelKeepsDeliveries(s: System, ch: Chan)
    requires Deliveries(s) && Claims(s)
    ensures Deliveries(DoCancel(s, ch))
  {
    if DoCancel(s, ch) != s {
      CancelDrops(s, ch);
      DropKeepsDeliveries(s, DoCancel(s, ch), ch);
    }
  }

  lemma DropKeepsBuffers(s: System, s': System, ch: Chan)
    requires Buffers(s) && Dropped(s, s', ch)
    ensures Buffers(s')
  {
    assert forall b, o :: At(s', b, o) == At(s, b, o);
    assert forall b, o, c :: Carries(s', b, o, c) == Carries(s, b, o, c);
  }

  lemma CancelKeepsBuffers(s: System, ch: Chan)
    requires Buffers(s)
    ensures Buffers(DoCancel(s, ch))
  {
    if DoCancel(s, ch) != s {
      CancelDrops(s, ch);
      DropKeepsBuffers(s, DoCancel(s, ch), ch);
    }
  }

  lemma RespondKeepsSlots(s: System, ch: Chan)
    requires Slots(s) && Puts(s)
    ensures Slots(DoRespond(s, ch)) && Puts(DoRespond(s, ch))
  {}

  lemma RespondKeepsDeliveries(s: System, ch: Chan)
    requires Deliveries(s)
    ensures Deliveries(DoRespond(s, ch))
  {}

  lemma RespondKeepsBuffers(s: System, ch: Chan)
    requires Buffers(s)
    ensures Buffers(DoRespond(s, ch))
  {}

  /** s' differs from s in poll ch's handler, which was and is neither waiting nor released. */
  ghost predicate Handled(s: System, s': System, ch: Chan) {
    && s'.slots == s.slots && s'.home == s.home && s'.log.claimer == s.log.claimer && s'.log.payload == s.log.payload
    && ch in s.handlers && ch in s'.handlers && s'.handlers == s.handlers[ch := s'.handlers[ch]]
    && s.handlers[ch] != Waiting && s.handlers[ch] != Released && s'.handlers[ch] != Released
  }

  lemma HandledKeepsSlots(s: System, s': System, ch: Chan)
    requires Slots(s) && Handled(s, s', ch)
    ensures Slots(s')
  {
    assert forall c :: IsHeld(s', c) == IsHeld(s, c);
  }

  lemma PutKeepsPuts(s: System, ch: Chan, keep: bool)
    requires Puts(s)
    ensures Puts(DoPut(s, ch, keep))
  {}

  lemma PutKeepsSlots(s: System, ch: Chan, keep: bool)
    requires Slots(s) && Puts(s)
    ensures Slots(DoPut(s, ch, keep)) && Puts(DoPut(s, ch, keep))
  {
    PutKeepsPuts(s, ch, keep);
    if DoPut(s, ch, keep) != s {
      HandledKeepsSlots(s, DoPut(s, ch, keep), ch);
    }
  }

  lemma PutKeepsDeliveries(s: System, ch: Chan, keep: bool)
    requires Deliveries(s)
    ensures Deliveries(DoPut(s, ch, keep))
  {}

  lemma PutKeepsPooled(s: System, ch: Chan, keep: bool)
    requires Pooled(s) && HandlerBuffers(s)
    ensures Pooled(DoPut(s, ch, keep))
  {}

  lemma PutKeepsOthers(s: System, ch: Chan, keep: bool)
    requires SenderBuffers(s) && QueueBuffers(s) && HandlerBuffers(s)
    ensures SenderBuffers(DoPut(s, ch, keep)) && QueueBuffers(DoPut(s, ch, keep))
  {}

  lemma PutKeepsHandlers(s: System, ch: Chan, keep: bool)
    requires HandlerBuffers(s)
    ensures HandlerBuffers(DoPut(s, ch, keep))
  {}

  lemma PutKeepsBuffers(s: System, ch: Chan, keep: bool)
    requires Buffers(s)
    ensures Buffers(DoPut(s, ch, keep))
  {
    PutKeepsPooled(s, ch, keep);
    PutKeepsOthers(s, ch, keep);
    PutKeepsHandlers(s, ch, keep);
  }

  lemma NoClaimKeepsSlots(s: System, t: Id, f: Fields)
    requires Slots(s) && Slot(s, t).dataCh == None && f.dataCh == None
    ensures Slots(s.(slots := s.slots[t := f]))
  {
    var s' := s.(slots := s.slots[t := f]);
    assert forall ch :: IsHeld(s', ch) == IsHeld(s, ch);
  }

  lemma NoClaimKeepsRest(s: System, slots: map<Id, Fields>)
    requires Deliveries(s) && Buffers(s) && Puts(s)
    ensures var s' := s.(slots := slots); Deliveries(s') && Buffers(s') && Puts(s')
  {
    var s' := s.(slots := slots);
    assert Deliveries(s') by {
      assert forall ch :: ch in s.handlers ==> Stage(s', ch) == Stage(s, ch);
    }
    assert forall b, o :: At(s', b, o) == At(s, b, o);
    assert forall b, o, ch :: Carries(s', b, o, ch) == Carries(s, b, o, ch);
  }

  lemma NoClaimKeepsInv(s: System, t: Id, f: Fields)
    requires Inv(s) && Slot(s, t).dataCh == None && f.dataCh == None
    ensures Inv(s.(slots := s.slots[t := f]))
  {
    NoClaimKeepsSlots(s, t, f);
    NoClaimKeepsRest(s, s.slots[t := f]);
  }

  lemma ClaimKeepsInv(s: System, t: Id, i: nat, f: Fields, packets: seq<Packet>)
    requires Inv(s) && i !in s.log.senders && f.dataCh == None
    ensures Inv(Claim(s, t, i, f, packets))
  {
    if Slot(s, t).dataCh.Some? {
      var ch := Slot(s, t).dataCh.value;
      SlotUnclaimed(s, t);
      ClaimKeepsSlots(s, t, i, ch, f, packets);
      ClaimKeepsDeliveries(s, t, i, ch, f, packets);
      ClaimKeepsBuffers(s, t, i, ch, f, packets);
    } else {
      NoClaimKeepsInv(s, t, f);
    }
  }

  lemma ReceiveKeepsInv(s: System, ch: Chan)
    requires Inv(s) && (CanReceive(s, ch, Waiting) || CanReceive(s, ch, Taking))
    ensures Inv(DoReceive(s, ch))
  {
    assert Stage(s, ch);
    ReceiveKeepsSlots(s, ch);
    ReceiveKeepsDeliveries(s, ch);
    ReceiveKeepsBuffers(s, ch);
  }

  lemma HoldKeepsInv(s: System, t: Id, ch: Chan)
    requires Inv(s)
    ensures Inv(Apply(s, Hold(t, ch)))
  {
    HoldKeepsSlots(s, t, ch);
    HoldKeepsDeliveries(s, t, ch);
    HoldKeepsBuffers(s, t, ch);
  }

  lemma CancelKeepsInv(s: System, ch: Chan)
    requires Inv(s)
    ensures Inv(Apply(s, Cancel(ch)))
  {
    CancelKeepsSlots(s, ch);
    CancelKeepsDeliveries(s, ch);
    CancelKeepsBuffers(s, ch);
  }

  lemma HandlerStepKeepsInv(s: System, e: Event)
    requires Inv(s) && (e.Hold? || e.Cancel? || e.Respond? || e.Put?)
    ensures Inv(Apply(s, e))
  {
    match e
    case Hold(t, ch) => HoldKeepsInv(s, t, ch);
    case Cancel(ch) => CancelKeepsInv(s, ch);
    case Respond(ch) => RespondKeepsSlots(s, ch); RespondKeepsDeliveries(s, ch); RespondKeepsBuffers(s, ch);
    case Put(ch, keep) => PutKeepsSlots(s, ch, keep); PutKeepsDeliveries(s, ch, keep); PutKeepsBuffers(s, ch, keep);
  }

  lemma SenderStepKeepsInv(s: System, e: Event)
    requires Inv(s) && (e.Encode? || e.Push?)
    ensures Inv(Apply(s, e))
  {
    match e
    case Encode(i, b) => EncodeKeepsSlots(s, i, b); EncodeKeepsDeliveries(s, i, b); EncodeKeepsBuffers(s, i, b);
    case Push(i) => PushKeepsSlots(s, i); PushKeepsDeliveries(s, i); PushKeepsBuffers(s, i);
  }

  lemma ClaimStepKeepsInv(s: System, e: Event)
    requires Inv(s) && (e.Send? || e.WriteNoop? || e.Close?)
    ensures Inv(Apply(s, e))
  {
    if Apply(s, e) != s {
      match e
      case Send(t, i, packets) => ClaimKeepsInv(s, t, i, Empty(Slot(s, t)), packets);
      case WriteNoop(t, i) => ClaimKeepsInv(s, t, i, Empty(Slot(s, t)), NoopPayload);
      case Close(t, i) => ClaimKeepsInv(s, t, i, Fields(true, None), ClosePayload);
    }
  }

  lemma StepKeepsInv(s: System, e: Event)
    requires Inv(s)
    ensures Inv(Apply(s, e))
  {
    if e.Send? || e.WriteNoop? || e.Close? {
      ClaimStepKeepsInv(s, e);
    } else if e.Encode? || e.Push? {
      SenderStepKeepsInv(s, e);
    } else if e.Receive? || e.Take? {
      if Apply(s, e) != s {
        ReceiveKeepsInv(s, e.ch);
      }
    } else {
      HandlerStepKeepsInv(s, e);
    }
  }

  lemma {:induction false} RunKeepsInv(s: System, es: seq<Event>)
    requires Inv(s)
    ensures Inv(RunAll(s, es))
    decreases |es|
  {
    if es != [] {
      StepKeepsInv(s, es[0]);
      RunKeepsInv(Apply(s, es[0]), es[1..]);
    }
  }
}

/** What every run of holds, deliveries, cancellations and closes guarantees. */
module PollLedgerTheorems {
  import opened Basics
  import opened Packets
  import opened PollSlot
  import opened PollLedger
  import opened PollLedgerProofs

  function Reach(es: seq<Event>): System {
    RunAll(Init(), es)
  }

  /** A held channel gets at most one payload, and the goroutine that puts it there never blocks. */
  lemma AtMostOnePayload(es: seq<Event>)
    ensures var s := Reach(es);
            && (forall ch :: ch in s.handlers ==> ch in s.log.pushed && s.log.pushed[ch] <= 1)
            && (forall i :: i in s.senders && s.senders[i].Encoded? ==> CanPush(s, i))
  {
    RunKeepsInv(Init(), es);
    var s := Reach(es);
    forall ch | ch in s.handlers
      ensures ch in s.log.pushed && s.log.pushed[ch] <= 1
    {
      assert Stage(s, ch);
    }
    forall i | i in s.senders && s.senders[i].Encoded?
      ensures CanPush(s, i)
    {
      assert Stage(s, s.senders[i].ch);
    }
  }

  /** Buffer b can be reached through o. */
  predicate Has(s: System, o: Owner, b: Buffer) {
    match o
    case InPool => b in s.pool
    case WithSender(i) => i in s.senders && s.senders[i].Encoded? && s.senders[i].buffer == b
    case InChannel(ch) => ch in s.queue && b in s.queue[ch]
    case WithHandler(ch) => ch in s.handlers && (s.handlers[ch] == Writing(b) || s.handlers[ch] == Returning(b))
    case Dropped => false
  }

  lemma HasMeansOwns(s: System, o: Owner, b: Buffer)
    requires Buffers(s) && Has(s, o, b) && (o.InChannel? ==> |s.queue[o.ch]| <= 1)
    ensures At(s, b, o)
  {}

  lemma OwnerIs(s: System, o: Owner, b: Buffer)
    requires Inv(s) && Has(s, o, b)
    ensures At(s, b, o)
  {
    assert o.InChannel? ==> Stage(s, o.ch);
    HasMeansOwns(s, o, b);
  }

  lemma OwnersAgree(s: System, b: Buffer, o: Owner, o': Owner)
    requires Inv(s)
    ensures Has(s, o, b) && Has(s, o', b) ==> o == o'
  {
    if Has(s, o, b) && Has(s, o', b) {
      OwnerIs(s, o, b);
      OwnerIs(s, o', b);
    }
  }

  lemma PooledOnce(s: System, b: Buffer)
    requires Inv(s)
    ensures s.pool[b] <= 1 && (forall ch :: ch in s.handlers ==> ch in s.log.puts && s.log.puts[ch] <= 1)
  {}

  /** A buffer has one owner at a time and is never in the pool twice; a poll returns at most one buffer. */
  lemma OneOwner(es: seq<Event>, b: Buffer, o: Owner, o': Owner)
    ensures var s := Reach(es);
            && (Has(s, o, b) && Has(s, o', b) ==> o == o')
            && s.pool[b] <= 1
            && (forall ch :: ch in s.handlers ==> ch in s.log.puts && s.log.puts[ch] <= 1)
  {
    RunKeepsInv(Init(), es);
    OwnersAgree(Reach(es), b, o, o');
    PooledOnce(Reach(es), b);
  }

  /** Nothing undoes a release, a claim, a payload or a close. */
  ghost predicate Settled(s: System, s': System, ch: Chan, t: Id) {
    && (ch in s.handlers && s.handlers[ch] == Released ==> ch in s'.handlers && s'.handlers[ch] == Released)
    && (ch in s.log.payload ==> ch in s'.log.payload && s'.log.payload[ch] == s.log.payload[ch])
    && (Slot(s, t).closed ==> Slot(s', t).closed)
  }

  lemma ClaimSettles(s: System, e: Event, ch: Chan, t: Id)
    requires e.Send? || e.WriteNoop? || e.Close?
    requires Slot(s, e.t).dataCh.Some? ==> Unclaimed(s, Slot(s, e.t).dataCh.value)
    ensures Settled(s, Apply(s, e), ch, t)
  {}

  lemma SenderSettles(s: System, e: Event, ch: Chan, t: Id)
    requires e.Encode? || e.Push? || e.Receive? || e.Take?
    ensures Settled(s, Apply(s, e), ch, t)
  {}

  lemma HandlerSettles(s: System, e: Event, ch: Chan, t: Id)
    requires e.Respond? || e.Put?
    ensures Settled(s, Apply(s, e), ch, t)
  {}

  lemma PollSettles(s: System, e: Event, ch: Chan, t: Id)
    requires e.Hold? || e.Cancel?
    ensures Settled(s, Apply(s, e), ch, t)
  {}

  lemma StepSettles(s: System, e: Event, ch: Chan, t: Id)
    requires Inv(s)
    ensures Settled(s, Apply(s, e), ch, t)
  {
    if e.Send? || e.WriteNoop? || e.Close? {
      if Slot(s, e.t).dataCh.Some? {
        SlotUnclaimed(s, e.t);
      }
      ClaimSettles(s, e, ch, t);
    } else if e.Encode? || e.Push? || e.Receive? || e.Take? {
      SenderSettles(s, e, ch, t);
    } else if e.Hold? || e.Cancel? {
      PollSettles(s, e, ch, t);
    } else {
      HandlerSettles(s, e, ch, t);
    }
  }

  lemma {:induction false} RunSettles(s: System, es: seq<Event>, ch: Chan, t: Id)
    requires Inv(s)
    ensures Settled(s, RunAll(s, es), ch, t)
    decreases |es|
  {
    if es != [] {
      StepSettles(s, es[0], ch, t);
      StepKeepsInv(s, es[0]);
      RunSettles(Apply(s, es[0]), es[1..], ch, t);
    }
  }

  /** Once closed a transport stays closed and never holds a poll again. */
  lemma ClosedHoldsNothing(es: seq<Event>, more: seq<Event>, t: Id)
    requires Slot(Reach(es), t).closed
    ensures Slot(RunAll(Reach(es), more), t) == Fields(true, None)
  {
    RunKeepsInv(Init(), es);
    RunSettles(Reach(es), more, 0, t);
    RunKeepsInv(Reach(es), more);
  }

  /** A poll that is answered is answered with exactly the packets its claimer set out to deliver. */
  lemma AnsweredIntact(es: seq<Event>, more: seq<Event>, ch: Chan)
    ensures var s, s' := Reach(es), RunAll(Reach(es), more);
            && (ch in s'.log.answered ==> ch in s'.log.payload && s'.log.answered[ch] == s'.log.payload[ch])
            && (ch in s.log.payload && ch in s'.log.answered ==> s'.log.answered[ch] == s.log.payload[ch])
  {
    RunKeepsInv(Init(), es);
    RunSettles(Reach(es), more, ch, 0);
    RunKeepsInv(Reach(es), more);
  }

  ghost predicate Delivered(s: System, ch: Chan) {
    ch in s.handlers && s.handlers[ch].Returning? && ch in s.log.pushed && s.log.pushed[ch] == 1
  }

  lemma QueuedArrives(s: System, ch: Chan)
    requires CanReceive(s, ch, Taking) && ch in s.log.pushed && s.log.pushed[ch] == 1
    ensures Delivered(Apply(s, Take(ch)), ch)
  {}

  lemma EncodedArrives(s: System, i: nat, ch: Chan)
    requires i in s.senders && s.senders[i].Encoded? && s.senders[i].ch == ch
    requires ch in s.handlers && s.handlers[ch] == Taking && ch in s.queue && s.queue[ch] == []
    requires ch in s.log.pushed && s.log.pushed[ch] == 0
    ensures Delivered(Apply(Apply(s, Push(i)), Take(ch)), ch)
  {
    QueuedArrives(Apply(s, Push(i)), ch);
  }

  lemma ClaimedArrives(s: System, i: nat, ch: Chan, b: Buffer)
    requires i in s.senders && s.senders[i].Claimed? && s.senders[i].ch == ch && b !in s.log.owner
    requires ch in s.handlers && s.handlers[ch] == Taking && ch in s.queue && s.queue[ch] == []
    requires ch in s.log.pushed && s.log.pushed[ch] == 0
    ensures Delivered(Apply(Apply(Apply(s, Encode(i, b)), Push(i)), Take(ch)), ch)
  {
    EncodedArrives(Apply(s, Encode(i, b)), i, ch);
  }

  lemma RunOne(s: System, e: Event)
    ensures RunAll(s, [e]) == Apply(s, e)
  {
    assert [e][1..] == [];
  }

  lemma RunMore(s: System, e: Event, es: seq<Event>)
    ensures RunAll(s, [e] + es) == RunAll(Apply(s, e), es)
  {
    assert ([e] + es)[1..] == es;
  }

  /** A delivery the cancelled handler waits for is not blocked: its goroutine encodes, pushes, and the handler takes it. */
  lemma DeliveryArrives(s: System, ch: Chan) returns (more: seq<Event>)
    requires Inv(s) && ch in s.handlers && s.handlers[ch] == Taking
    ensures Delivered(RunAll(s, more), ch)
  {
    assert Stage(s, ch);
    var i := s.log.claimer[ch];
    more := [Take(ch)];
    if i !in s.senders {
      QueuedArrives(s, ch);
      RunOne(s, Take(ch));
    } else if s.senders[i].Encoded? {
      EncodedArrives(s, i, ch);
      RunOne(Apply(s, Push(i)), Take(ch));
      RunMore(s, Push(i), more);
      more := [Push(i)] + more;
    } else {
      var b := Above(s.log.owner.Keys);
      ClaimedArrives(s, i, ch, b);
      var s' := Apply(s, Encode(i, b));
      RunOne(Apply(s', Push(i)), Take(ch));
      RunMore(s', Push(i), more);
      RunMore(s, Encode(i, b), [Push(i)] + more);
      more := [Encode(i, b)] + ([Push(i)] + more);
    }
  }

  lemma ReleasedGetsNothing(s: System, later: seq<Event>, ch: Chan)
    requires Inv(s) && ch in s.handlers && s.handlers[ch] == Released
    ensures var s' := RunAll(s, later); ch in s'.log.pushed && s'.log.pushed[ch] == 0
  {
    RunSettles(s, later, ch, 0);
    RunKeepsInv(s, later);
    assert Stage(RunAll(s, later), ch);
  }

  lemma CancelOutcome(s: System, ch: Chan)
    requires ch in s.handlers && s.handlers[ch] == Waiting && ch in s.home
    ensures ch in Apply(s, Cancel(ch)).handlers
    ensures Apply(s, Cancel(ch)).handlers[ch] == if IsHeld(s, ch) then Released else Taking
  {}

  /**
   * When the client drops its poll, release reports true exactly when the channel is still
   * in the slot. Then no payload was or ever will be put on it; otherwise one was or can still be.
   */
  lemma ReleaseIsExact(es: seq<Event>, ch: Chan) returns (more: seq<Event>)
    requires ch in Reach(es).handlers && Reach(es).handlers[ch] == Waiting
    ensures var s := Apply(Reach(es), Cancel(ch));
            && ch in s.handlers && (s.handlers[ch] == Released <==> IsHeld(Reach(es), ch))
            && (s.handlers[ch] == Released ==>
                  forall later :: var s' := RunAll(s, later); ch in s'.log.pushed && s'.log.pushed[ch] == 0)
            && (s.handlers[ch] != Released ==> Delivered(RunAll(s, more), ch))
  {
    RunKeepsInv(Init(), es);
    StepKeepsInv(Reach(es), Cancel(ch));
    CancelOutcome(Reach(es), ch);
    more := AfterCancel(Apply(Reach(es), Cancel(ch)), ch);
  }

  lemma AfterCancel(s: System, ch: Chan) returns (more: seq<Event>)
    requires Inv(s) && ch in s.handlers && (s.handlers[ch] == Released || s.handlers[ch] == Taking)
    ensures s.handlers[ch] == Released ==>
              forall later :: var s' := RunAll(s, later); ch in s'.log.pushed && s'.log.pushed[ch] == 0
    ensures s.handlers[ch] != Released ==> Delivered(RunAll(s, more), ch)
  {
    more := [];
    if s.handlers[ch] == Released {
      forall later
        ensures var s' := RunAll(s, later); ch in s'.log.pushed && s'.log.pushed[ch] == 0
      {
        ReleasedGetsNothing(s, later, ch);
      }
    } else {
      more := DeliveryArrives(s, ch);
    }
  }

  // ---- A held poll is answered with what was sent ----

  /** Goroutine i has claimed poll ch, whose handler waits, to deliver ps. */
  ghost predicate OnItsWay(s: System, i: nat, ch: Chan, ps: seq<Packet>) {
    && i in s.senders && s.senders[i] == Claimed(ch, ps) && ch in s.queue && s.queue[ch] == []
    && ch in s.handlers && s.handlers[ch] == Waiting && ch in s.log.pushed && ch in s.log.puts
  }

  /** Buffer b, in which ps are encoded, waits on channel ch for its handler. */
  ghost predicate OnChannel(s: System, ch: Chan, ps: seq<Packet>, b: Buffer) {
    && ch in s.queue && s.queue[ch] == [b] && ch in s.handlers && s.handlers[ch] == Waiting && ch in s.log.puts
    && b in s.content && s.content[b] == ps
  }

  lemma Pushed(s: System, i: nat, ch: Chan, ps: seq<Packet>, b: Buffer)
    requires OnItsWay(s, i, ch, ps) && b !in s.log.owner
    ensures OnChannel(Apply(Apply(s, Encode(i, b)), Push(i)), ch, ps, b)
  {}

  lemma Answered(s: System, ch: Chan, ps: seq<Packet>, b: Buffer)
    requires OnChannel(s, ch, ps, b)
    ensures var s' := Apply(Apply(Apply(s, Receive(ch)), Respond(ch)), Put(ch, true));
            ch in s'.log.answered && s'.log.answered[ch] == ps && b in s'.pool
  {
    var s1 := Apply(s, Receive(ch));
    assert s1.handlers[ch] == Writing(b);
  }

  /** Encoded, pushed, received and written, the payload is the poll's answer, and its buffer goes back to the pool. */
  lemma ClaimIsDelivered(s: System, i: nat, ch: Chan, ps: seq<Packet>, b: Buffer)
    requires OnItsWay(s, i, ch, ps) && b !in s.log.owner
    ensures var s' := RunAll(s, [Encode(i, b), Push(i), Receive(ch), Respond(ch), Put(ch, true)]);
            ch in s'.log.answered && s'.log.answered[ch] == ps && b in s'.pool
  {
    RunFive(s, Encode(i, b), Push(i), Receive(ch), Respond(ch), Put(ch, true));
    Pushed(s, i, ch, ps, b);
    Answered(Apply(Apply(s, Encode(i, b)), Push(i)), ch, ps, b);
  }

  lemma RunFive(s: System, a: Event, b: Event, c: Event, d: Event, e: Event)
    ensures RunAll(s, [a, b, c, d, e]) == Apply(Apply(Apply(Apply(Apply(s, a), b), c), d), e)
  {
    assert [a, b, c, d, e][1..] == [b, c, d, e] && [b, c, d, e][1..] == [c, d, e];
    assert [c, d, e][1..] == [d, e] && [d, e][1..] == [e] && [e][1..] == [];
    RunThree(Apply(Apply(s, a), b), c, d, e);
  }

  lemma RunThree(s: System, c: Event, d: Event, e: Event)
    ensures RunAll(s, [c, d, e]) == Apply(Apply(Apply(s, c), d), e)
  {
    assert [c, d, e][1..] == [d, e] && [d, e][1..] == [e] && [e][1..] == [];
    var s' := Apply(Apply(s, c), d);
    assert RunAll(s', [e]) == RunAll(Apply(s', e), []);
  }

  /**
   * Whoever finds a poll held on a transport answers it: send with its packets, writeNoop with
   * a noop, close with a close packet. Each leaves the slot empty, and close leaves it closed.
   */
  lemma HeldPollIsClaimed(es: seq<Event>, t: Id, i: nat, ch: Chan, ps: seq<Packet>)
    requires var s := Reach(es); Slot(s, t).dataCh == Some(ch) && i !in s.log.senders
    ensures var s := Reach(es);
            && OnItsWay(Apply(s, Send(t, i, ps)), i, ch, ps)
            && OnItsWay(Apply(s, WriteNoop(t, i)), i, ch, [Packet(6, [], false)])
            && OnItsWay(Apply(s, Close(t, i)), i, ch, [Packet(1, [], false)])
            && Slot(Apply(s, Send(t, i, ps)), t) == Fields(false, None)
            && Slot(Apply(s, WriteNoop(t, i)), t) == Fields(false, None)
            && Slot(Apply(s, Close(t, i)), t) == Fields(true, None)
  {
    RunKeepsInv(Init(), es);
    HeldIsFresh(Reach(es), t, ch);
    EachClaims(Reach(es), t, i, ch, ps);
  }

  lemma EachClaims(s: System, t: Id, i: nat, ch: Chan, ps: seq<Packet>)
    requires Fresh(s, t, ch) && i !in s.log.senders
    ensures OnItsWay(Apply(s, Send(t, i, ps)), i, ch, ps) && Slot(Apply(s, Send(t, i, ps)), t) == Fields(false, None)
    ensures OnItsWay(Apply(s, WriteNoop(t, i)), i, ch, [Packet(6, [], false)])
    ensures Slot(Apply(s, WriteNoop(t, i)), t) == Fields(false, None)
    ensures OnItsWay(Apply(s, Close(t, i)), i, ch, [Packet(1, [], false)])
    ensures Slot(Apply(s, Close(t, i)), t) == Fields(true, None)
  {
    ClaimIsOnItsWay(s, t, i, ch, Empty(Slot(s, t)), ps);
    ClaimIsOnItsWay(s, t, i, ch, Empty(Slot(s, t)), [Packet(6, [], false)]);
    ClaimIsOnItsWay(s, t, i, ch, Fields(true, None), [Packet(1, [], false)]);
  }

  /** Nothing has happened to a held poll, and its transport is open. */
  ghost predicate Fresh(s: System, t: Id, ch: Chan) {
    && Slot(s, t) == Fields(false, Some(ch)) && ch in s.queue && s.queue[ch] == []
    && ch in s.handlers && s.handlers[ch] == Waiting && ch in s.log.pushed && ch in s.log.puts
  }

  lemma HeldIsFresh(s: System, t: Id, ch: Chan)
    requires Inv(s) && Slot(s, t).dataCh == Some(ch)
    ensures Fresh(s, t, ch)
  {
    SlotUnclaimed(s, t);
  }

  lemma ClaimIsOnItsWay(s: System, t: Id, i: nat, ch: Chan, f: Fields, ps: seq<Packet>)
    requires Fresh(s, t, ch)
    ensures OnItsWay(Claim(s, t, i, f, ps), i, ch, ps) && Slot(Claim(s, t, i, f, ps), t) == f
  {}

  /** A poll is held exactly on a transport that is open and holds none; on one that holds one it is an overlap. */
  lemma HeldExactly(es: seq<Event>, t: Id, ch: Chan)
    requires ch !in Reach(es).handlers
    ensures var f := Slot(Reach(es), t);
            && (IsHeld(Apply(Reach(es), Hold(t, ch)), ch) <==> !f.closed && f.dataCh == None)
            && (HoldOutcome(f) == Overlap <==> f.dataCh.Some?) && (HoldOutcome(f) == Refused <==> f.closed)
  {
    RunKeepsInv(Init(), es);
    HoldsExactly(Reach(es), t, ch);
  }

  lemma HoldsExactly(s: System, t: Id, ch: Chan)
    requires OwnPolls(s) && ch !in s.handlers
    ensures var f := Slot(s, t);
            && (IsHeld(DoHold(s, t, ch), ch) <==> !f.closed && f.dataCh == None)
            && (HoldOutcome(f) == Overlap <==> f.dataCh.Some?) && (HoldOutcome(f) == Refused <==> f.closed)
  {
    assert t in s.slots ==> (s.slots[t].closed ==> s.slots[t].dataCh == None);
  }
}
