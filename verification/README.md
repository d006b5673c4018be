# go-engine.io: transport upgrades, heartbeats and codecs

go-engine.io is an Engine.IO protocol version 4 client and server. A session starts on HTTP
long-polling and may be upgraded, while it runs, to a WebSocket or WebTransport link; the project's
documentation promises that writes are buffered across the switch so that nothing is lost or
reordered. This project models the machinery behind that promise and proves it, together with the
heartbeat that decides when a peer is gone and the codecs that carry the packets.

Concurrency is modelled by step systems. Every critical section of the source is one step, every
goroutine that still has something to do after releasing a mutex is a thread with a list of what it
owes, and the goroutine inside a flush has its own program counter. `Apply` performs one event and
leaves the state unchanged when the event is not possible, so a theorem about `RunAll(s, es)` for
every event sequence `es` covers every interleaving. The critical sections are functions on the
guarded fields; the classes update the same fields in place and are proved against those functions.

- `Basics.dfy`, `Base64.dfy`, `Packets.dfy`, `Payload.dfy`: bytes, base64 (section 4 of RFC 4648),
  packets, and the v4 payload. `Legacy.dfy`: the v2 and v3 framings. `WebTransport.dfy`: the
  length-prefixed stream. `Chunking.dfy`, `Post.dfy`: cutting outbound packets to the server's
  limit, and the server taking them.
- `ServerFields.dfy`, `ServerSystem.dfy`: the server session, as fields and as a step system.
  `ServerBase.dfy`, `ServerWrites.dfy`, `ServerUpgrades.dfy`, `ServerWakeup.dfy`, `ServerLinks.dfy`,
  `ServerFacts.dfy`, `ServerQueue.dfy`: what each step keeps. `ServerTheorems.dfy`: what holds of
  every run. `ServerPromises.dfy`: when a session takes a call, closes, pings, accepts a probe and
  releases what it holds, exactly.
- `PollLedger.dfy`: the held polls of all polling transports of a process, the goroutines that
  deliver to them and the buffer pool they share. `WebSocketLoop.dfy`: the read loop of a probing and
  then promoted link.
- `ClientFields.dfy`, `ClientSystem.dfy`, `ClientProofs.dfy`, `ClientPromises.dfy`: the client socket
  and its polling transport, from the completed handshake until the socket leaves the open state, and
  how its polling and the socket end.
- `EndToEnd.dfy`, `Deliveries.dfy`: client and server together, passing packets, and the place of
  every packet delivered among those accepted. `Wire.dfy`: the same with every POST, poll answer and
  frame encoded where it is sent, and limited in size and decoded where it arrives. `NetworkGap.dfy`,
  `Retries.dfy`: the runs over the wire in which a message is lost, repeated or out of order, and the
  exact conditions. `Progress.dfy`, `Draining.dfy`: the pause before a switch, and a flush, can always
  be finished.
- `Heartbeat.dfy`: pings, pongs and timeouts on a discrete clock, and the session's timers following
  them. `Fallback.dfy`: trying transport
  after transport. `Yeast.dfy`: identifiers that never repeat.

## What was found

- The promise across the switch needs text free of the record separator 0x1e wherever it travels by
  POST or poll answer. A text message that holds one is read as two messages that were never sent
  (`SeparatorTearsAMessage`). A run whose payloads survive the codec, and whose packets are
  well-formed, behaves like one without codecs (`WireRun`), hop by hop exactly then (`PostHop`,
  `PollHop`, `FrameHop`), and the promise is proved for those runs. A packet larger than the server's
  limit is refused whenever it is posted; within the limit every POST is served (`PostsAreServed`).
- From server to client the promise holds in every such run. From client to server no packet is
  skipped as long as the server session is open, for good once the upgrade packet was sent to an open
  server (`CommittedIsSafe`), and whenever the server completed the upgrade while open. The one state
  in which completing an upgrade is not safe is closing (`SafeUnlessClosing`): the close packet closes
  the client's polling transport, a flush onto that transport is dropped without an error
  (`socket_transport_polling.go` lines 149 to 151), the upgrade still goes through, and a later message
  is dispatched without the lost one (`ClosingCanLoseAMessage`). Only that one block is missing.
- A POST that was served but whose acknowledgement is lost stays in the client's buffer and is posted
  again, so its messages are delivered twice (`LostAckRepeats`). A POST the client gave up on may even
  be served after what came later (`GivenUpReorders`). Delivery is exactly once and in order as long as
  no flush has returned an error, and not beyond (`OnceUnlessFailed`). Even beyond, no message is
  delivered for the first time before those accepted before it, and a drained client has had all of
  them delivered (`NothingLostOrReordered`, `DrainedMeansDelivered`).
- `WithTryAllTransports` does not always try every transport. A remembered upgrade takes the place
  of the first transport, which is then dropped from the list untried, and a transport that cannot be
  constructed ends the chain (`TriesAllExactly`, with `AllCreatable` and `NoRepetitions` as its two
  plain cases; `RememberedUpgradeSkipsFirst`).
- The comment that a binary packet is always a message does not hold of the v2 and v3 decoders:
  neither for packets in text (`LegacyWellFormed`, `BinaryPongDecodes`) nor for raw frames and whole
  payloads (`PayloadWellFormed`, `RawPongDecodes`). It does hold for v4 (`DecodedWellFormed`).
- The v2 and v3 decoders do not check the arithmetic of their lengths. A length in the binary framing
  wraps, so that one of 2^64 + 2 announces two bytes (`WrappedLengthDecodes`), and both framings can
  panic on a slice; `PanicsExactly` says on which inputs, and `DecodesExactlyFrames` is stated with the
  wrapped lengths.
- The comment that the string framing always begins with a digit is not quite so: "+1:6" is accepted
  (`SignedCountDecodes`), and a plus sign in front of an accepted payload that begins with a digit
  changes nothing (`PlusDecodesAlike`). An accepted payload begins with a digit exactly when it does not begin with a
  plus sign (`OpensWithDigit`). The selection of the v3 machine by its first byte is unambiguous all
  the same (`SelectionLosesNothing`).

## Model

| member | source | states |
|---|---|---|
| `NetworkTheorems.NothingLostOrReordered` | socket.go:940-1047 | without codecs, in every interleaving of client, server and links, POSTs lost, unacknowledged or given up included: messages dispatched at the client are a prefix of those queued at the server; those dispatched at the server are those at recorded places of what the client accepted; what reached it for good is in order a prefix of that with at most one block left out; unless a POST was given up while being served, each unacknowledged one stands repeated in its place; while the server is open, or once it completed the upgrade while open, nothing is left out, no packet comes before those accepted before it, and without a flush that returned an error each comes once |
| `NetworkTheorems.CommittedIsSafe` | socket.go:955-1027 | once the client has sent its upgrade packet to a server that is still open, nothing is lost, no packet comes before those accepted before it, and without a flush that returned an error each comes once, whatever happens later |
| `NetworkTheorems.DrainedMeansDelivered` | server_socket.go:490-531 | once a direction has nothing buffered, in flight or unread, everything accepted was delivered; upward at least once, exactly once and in order without a flush that returned an error, with the server open or switched while open, the upgrade packet not too late and the adopted link open |
| `NetworkTheorems.PongIsHeard` | server_socket.go:284-325 | a pong posted or sent over the upgraded link ends the deadline of an open session and schedules the next ping, and is not given to the application |
| `WireTheorems.NothingLostOrReordered` | payload.go:36-100 | the same of every run in which POSTs, poll answers and frames are encoded, limited in size and decoded, provided the packets accepted at either end are well-formed and the payloads read survive the codec |
| `WireTheorems.CommittedIsSafe` | socket.go:955-1027 | the same of every such run over the codecs |
| `WireTheorems.DrainedMeansDelivered` | server_socket.go:490-531 | the same of every such run over the codecs |
| `WireTheorems.PostsAreServed` | server.go:403-445 | in every reachable state, with every accepted packet within the limit alone and surviving the codecs, the POST in flight is accepted and served whole, as it was cut |
| `WireTheorems.SeparatorTearsAMessage` | payload.go:87-100 | a concrete run in which the client sends one message with a separator and the server dispatches two messages never sent |
| `WireProofs.FrameHop` | encoding_webtransport.go:40-128 | a packet sent as one frame is read back as itself exactly when it is well-formed and within the reader's limit |
| `WireProofs.PostHop` | server.go:411-437 | a POST is read as it was written exactly when it is within the limit and its packets survive the codec |
| `WireProofs.PollHop` | socket_transport_polling.go:311-343 | a poll answer is read as it was written exactly when its packets survive the codec |
| `WireProofs.WireRun` | payload.go:36-100 | a run over the codecs whose packets are well-formed and whose payloads survive ends where some run without codecs does, refused POSTs being lost and refused frames ending the link |
| `ServerQueue.StepQueued` | server_socket.go:233-282 | every step keeps that whatever the server puts into a poll answer or a frame was queued, or is a bare close or noop |
| `NetworkGap.ClosingCanLoseAMessage` | socket_transport_polling.go:144-154 | a concrete run over the codecs in which the server is closing, the client's first message is lost and its second is dispatched |
| `NetworkGap.SafeUnlessClosing` | server_socket.go:512-531 | for each state of the server session: in every run over the codecs in which it completes the upgrade in that state, no packet is skipped, and none repeated without a flush that returned an error, if and only if the state is not closing |
| `Retries.LostAckRepeats` | socket.go:525-575 | a concrete run in which one message is accepted, its POST served but not acknowledged, and the message dispatched twice |
| `Retries.GivenUpReorders` | server.go:403-445 | a concrete run in which a POST given up by the client is served after a later one, so that the first message comes again after the second |
| `Retries.OnceUnlessFailed` | socket.go:525-575 | with the server open or switched while open: in all runs over the codecs in which some flush has, or has not, returned an error, the server's application got a prefix of what the client accepted, if and only if none has |
| `NetworkProofs.StepKeepsInv` | server.go:361-445 | every step of either end or of a link keeps the relation between what was written, what is in flight and what was read |
| `DeliveryProofs.StepKeepsPlaces` | server.go:403-445 | every step keeps that what was dispatched is what stands at the recorded places, that these are in order, and that they are consecutive until a flush returns an error |
| `ServerTheorems.SessionInvariant` | server_socket.go:384-456 | in every reachable state: upgrading exactly when a probing transport is set, upgrading only while open or closing on polling, the upgrade timer armed throughout while open and upgrading, noop channel and upgrade timer only while upgrading, timers only in their states, closed means no transport, empty buffer and no timer |
| `ServerTheorems.ClosedIsFinal` | server_socket.go:384-404 | no step changes any field of a closed session |
| `ServerTheorems.NothingLostOrRepeated` | server_socket.go:233-282 | packets handed to transports are a prefix of those queued; until closed, queued is handed off plus buffered, and the flusher's snapshot stays a prefix of the buffer through concurrent sends, swaps and teardown |
| `ServerTheorems.OneSwitch` | server_socket.go:512-531 | messages of poll answers come before messages of frames, all frames are on one transport, and the transport is swapped at most once |
| `ServerTheorems.NoLostWakeup` | server_socket.go:229-282 | with no flush running or owed, a non-empty buffer means the session is polling and no poll is held |
| `ServerTheorems.ClosePacketIsLast` | server_socket.go:202-214 | once closing, nothing is ever queued again |
| `ServerTheorems.GracefulClose` | server_socket.go:171-214 | a closing session has queued its close packet once and last, a drained flush has handed everything off, and with no Close call in progress the fallback timer is armed; that the drained session then closes is `DrainedSessionCloses` |
| `ServerTheorems.FallbackCloses` | server_socket.go:171-194 | the armed fallback's callback takes a closing session to closed |
| `ServerPromises.CloseTakenExactly` | server_socket.go:171-214 | Close is taken exactly by an opening or open session, which then is closing with its close packet queued; otherwise nothing changes |
| `ServerPromises.DrainedSessionCloses` | server_socket.go:257-281 | a closing session with no flush running has something left to hand off; a closing session with an empty buffer has a flush running whose next step closes it |
| `ServerPromises.FailedWriteCloses` | server_socket.go:233-252 | a write that fails puts nothing on the link, and the next step of its flush closes the session |
| `ServerPromises.BrokenPollCloses` | server.go:361-398 | a second poll while one is held closes the session, and so does a poll the client drops, which is no longer held |
| `ServerPromises.SendTakenExactly` | server_socket.go:156-167 | Send is taken exactly by an opening or open session, which queues the message; otherwise nothing changes |
| `ServerPromises.ClosedTakesNothing` | server_socket.go:233-256 | a flush that finds its transport closed hands nothing off, keeps the buffer and leaves |
| `ServerPromises.DeadlineRunsFromPingToPong` | server_socket.go:313-352 | in every reachable open session the pong deadline runs exactly from the last ping until the pong after it, and while it does not run the next ping is scheduled |
| `ServerPromises.PingQueuedExactly` | server_socket.go:336-352 | the ping timer queues a ping in an open session and does nothing in any other |
| `ServerPromises.ProbeAcceptedExactly` | server_socket.go:429-444 | a probe is accepted exactly when the session is open on the polling transport it began with and every accepted probe before has its outcome; otherwise its transport is closed at once |
| `ServerPromises.ProbeTimesOut` | server_socket.go:429-444 | a probe in flight in an open session has its timeout armed, and after the callback the next probe is accepted |
| `ServerPromises.NoopLoopStartsExactly` | server_socket.go:449-474 | a probe ping starts the noop loop exactly when a probe is in flight and every earlier loop was stopped or is about to be |
| `ServerPromises.NoopAnswersPoll` | server_socket.go:477-486 | the noop loop answers the held poll with one noop packet |
| `ServerPromises.TransportClosedOnce` | server_socket.go:357-377 | whoever is about to close a transport is the only one, it is still open and no longer in use, and a poll held on it is answered with one close packet |
| `ServerPromises.PromotedBeforeClosing` | server_socket.go:490-505 | after a switch the polling transport is closed only once the new link passes packets to the session |
| `ServerPromises.HandlerRunsLast` | server_socket.go:357-377 | when the close handler has run, every transport and noop channel the teardown took is closed |
| `ServerReleases.StepKeepsOrderly` | server_socket.go:156-568 | every step keeps the deadline between ping and pong, that only a flush about to close has emptied the buffer of a closing session, and who closes what and in which order |
| `ServerTheorems.ClaimedOnce` | server_socket.go:512-568 | the outcome of an accepted probe, once it is completion, abort or teardown, never changes |
| `ServerTheorems.StaleClaimIgnored` | server_socket.go:551-568 | a timer or read loop of a probe already resolved changes nothing, whatever probe is in flight |
| `ServerTheorems.UnclaimedIsInFlight` | server_socket.go:429-444 | the accepted probes without an outcome are exactly the one in flight |
| `ServerTheorems.StopClosedOnce` | server_socket.go:449-474 | whoever is about to close a probe-noop channel is its only holder, and it is still open |
| `ServerTheorems.EverythingReleased` | server_socket.go:357-377 | after teardown and all tails every owned transport and every noop channel is closed and the close handler has run once |
| `ServerTheorems.HandlerAtMostOnce` | server_socket.go:357-377 | the close handler runs at most once, and never before the session is closed |
| `ServerTheorems.NeverBackToPolling` | server_socket.go:490-531 | a session on a promoted transport stays on it until closed |
| `ServerTheorems.StepKeepsInv` | server_socket.go:156-568 | every critical section and every tail keeps the session invariant, conservation, ownership, wakeup and promotion |
| `ServerProgress.HeldPollIsAnswered` | server_socket.go:229-282 | from every reachable state some steps of the server's own, without the probe's noops, answer the held poll |
| `Progress.PauseEndsInAdoption` | socket_transport_polling.go:110-127 | from every reachable state of client, server and links in which the client waits in Pause, steps in which nothing fails lead to the adoption of its link |
| `ServerSocketObject.ServerSocket.constructor` | server_socket.go:108-116 | a new session is opening on its first transport |
| `ServerSocketObject.ServerSocket.Send` | server_socket.go:156-167 | accepted unless closing or closed; appends the message to the buffer and nothing else |
| `ServerSocketObject.ServerSocket.BeginClose` | server_socket.go:202-214 | from opening or open: closing, timers stopped, close packet queued; otherwise unchanged |
| `ServerSocketObject.ServerSocket.OpenSession` | server_socket.go:218-227 | an opening session becomes open with its ping timer armed |
| `ServerSocketObject.ServerSocket.OnPong` | server_socket.go:313-325 | an open session clears its pong deadline and arms the next ping, any other is unchanged; over runs this is `DeadlineRunsFromPingToPong` and `TimersAgree` |
| `ServerSocketObject.ServerSocket.SendPing` | server_socket.go:336-352 | an open session queues a ping and arms the pong deadline |
| `ServerSocketObject.ServerSocket.ArmCloseTimer` | server_socket.go:171-194 | the fallback is armed only while closing and only once |
| `ServerSocketObject.ServerSocket.BeginTeardown` | server_socket.go:384-404 | the first caller gets every transport and the noop channel and leaves the session closed and empty; later callers get nothing |
| `ServerSocketObject.ServerSocket.StopTimersLocked` | server_socket.go:408-425 | clears the four timers and nothing else |
| `ServerSocketObject.ServerSocket.StartUpgrade` | server_socket.go:429-444 | accepted only on an open polling session with no probe in flight, arming the upgrade timer; over runs this is `ProbeAcceptedExactly` and `ProbeTimesOut` |
| `ServerSocketObject.ServerSocket.OnProbe` | server_socket.go:449-474 | starts the noop loop once per upgrade |
| `ServerSocketObject.ServerSocket.BeginCompleteUpgrade` | server_socket.go:512-531 | only the probe in flight is swapped in; the old transport and the noop channel go to the caller |
| `ServerSocketObject.ServerSocket.BeginAbortUpgrade` | server_socket.go:551-568 | only the probe in flight is dropped; its noop channel goes to the caller |
| `ServerSocketObject.ServerSocket.Snapshot` | server_socket.go:233-282 | a flush takes the whole buffer and the transport, or nothing when there is nothing to do |
| `ServerSocketObject.ServerSocket.TrimHandedOff` | server_socket.go:233-282 | drops exactly the packets handed off, tolerating an emptied buffer, and reports what the loop decides on |
| `PollLedgerTheorems.AtMostOnePayload` | server_transport_polling.go:70-160 | in every run of all polling transports of a process a held channel gets at most one payload across send, writeNoop and close, and the send on it never blocks |
| `PollLedgerTheorems.OneOwner` | server_transport_polling.go:29-45 | a buffer of the process-wide pool is with one sender, channel, handler or the pool, never in the pool twice, and a poll returns at most one |
| `PollLedgerTheorems.ReleaseIsExact` | server.go:390-397 | release reports true exactly when the channel is still in its slot; then no payload was or ever will be sent on it, and when it reports false one was or can still arrive |
| `PollLedgerTheorems.DeliveryArrives` | server.go:378-398 | a delivery a cancelled handler waits for always has a way to reach it |
| `PollLedgerTheorems.ClosedHoldsNothing` | server_transport_polling.go:91-107 | once closed, always closed, and no poll is held again |
| `PollLedgerTheorems.AnsweredIntact` | server_transport_polling.go:70-87 | a poll is answered with exactly the packets its claimer set out to deliver, whatever buffers are reused meanwhile |
| `PollLedgerTheorems.HeldPollIsClaimed` | server_transport_polling.go:70-160 | in every run whoever finds a poll held sets out to answer it, send with its packets, writeNoop with a noop, close with a close packet, and leaves the slot empty, close also closed |
| `PollLedgerTheorems.ClaimIsDelivered` | server.go:361-398 | a payload set out with is, once encoded, pushed, received and written, the answer of that poll, and its buffer is back in the pool |
| `PollLedgerTheorems.HeldExactly` | server_transport_polling.go:91-107 | in every run a poll is held exactly by an open transport that holds none, is an overlap exactly where one is held, and refused exactly where closed |
| `PollSlot.ServerPollingTransport.constructor` | server_transport_polling.go:59-61 | no poll held, not closed |
| `PollSlot.ServerPollingTransport.Hold` | server_transport_polling.go:91-107 | refused when closed, overlap when a poll is held, otherwise held |
| `PollSlot.ServerPollingTransport.ClaimForSend` | server_transport_polling.go:70-87 | takes the held channel if there is one and empties the slot |
| `PollSlot.ServerPollingTransport.Release` | server_transport_polling.go:114-124 | reclaims the slot exactly when it still holds this channel |
| `PollSlot.ServerPollingTransport.ClaimForNoop` | server_transport_polling.go:128-137 | takes the held channel if there is one and empties the slot |
| `PollSlot.ServerPollingTransport.ClaimForClose` | server_transport_polling.go:146-160 | closes, taking the held channel the first time |
| `WebSocketLoop.CommitSplits` | server_transport_websocket.go:94-159 | the loop of a probe makes only handshake calls up to the committing upgrade packet, then completes, then passes packets to the session |
| `WebSocketLoop.ProbeLeavesSessionAlone` | server_transport_websocket.go:94-138 | a probe that never commits neither dispatches to the session nor closes it, however it fails |
| `WebSocketLoop.ProbeAnswersExactly` | server_transport_websocket.go:94-159 | a probe that does not commit answers the frame "2probe" with a pong and then the noop loop, or is aborted if the pong cannot be sent; a frame that begins with 5 with a completion; any other with nothing; and what ends its loop aborts it unless it was closed |
| `WebSocketLoop.OnePongPerPing` | server_transport_websocket.go:141-159 | a probe that neither ends nor commits writes as many pongs as it got frames "2probe" it could answer |
| `WebSocketLoop.PromotedDispatches` | server_transport_websocket.go:94-138 | a promoted link dispatches every frame in order up to the one that ends the loop, which closes the session, for a parse error or a transport error, unless the link was closed before the read failed |
| `WebSocketLoop.ServerWebSocketTransport.constructor` | server_transport_websocket.go:41-51 | open, probing as told |
| `WebSocketLoop.ServerWebSocketTransport.Promote` | server_transport_websocket.go:177-181 | ends probing and nothing else |
| `WebSocketLoop.ServerWebSocketTransport.Close` | server_transport_websocket.go:185-202 | marks closed, idempotent |
| `WebSocketLoop.ServerWebSocketTransport.AbortUpgrade` | server_socket.go:535-545 | closes the transport when its probe is the one in flight |
| `WebSocketLoop.ServerWebSocketTransport.CompleteUpgrade` | server_socket.go:490-505 | promotes the transport when its probe is the one in flight |
| `WebSocketLoop.ServerWebSocketTransport.HandleProbePacket` | server_transport_websocket.go:141-159 | probe ping answered or aborted, upgrade completed, anything else ignored; in bytes and over the whole loop this is `ProbeAnswersExactly` |
| `WebSocketLoop.ServerWebSocketTransport.Finish` | server_transport_websocket.go:94-126 | nothing after a server close, abort while probing, otherwise the session closes for the right reason |
| `WebSocketLoop.ServerWebSocketTransport.ReadLoop` | server_transport_websocket.go:94-138 | the calls made are those of the specified loop, in order |
| `ClientTheorems.NothingLostOrRepeated` | socket.go:531-589 | while open, accepted is counted as sent plus the buffer without what the running flush wrote; counted is, in order, what was posted, what a closed polling transport swallowed and what the link took, up to chunks cut off by a close |
| `ClientTheorems.TrimNeverPanics` | socket.go:553-558 | the trim after a flush is always within the buffer |
| `ClientTheorems.UpgradeSeparates` | socket.go:955-1027 | the upgrade packet is the first frame of the link, and no packet goes over the old transport after it |
| `ClientTheorems.NothingFlushedWhileSwitching` | socket.go:955-1027 | no flush runs between the drain and the adoption, and a flush onto the link runs only after adoption with no poll request in flight |
| `ClientTheorems.NoLostWakeup` | socket.go:531-575 | without a failed write, an open socket that is not upgrading leaves packets buffered only while a flush is owed or running |
| `ClientTheorems.PauseQuiesces` | socket_transport_polling.go:110-127 | once Pause on a running transport has returned, no poll request or dispatch is running, then or ever after |
| `ClientTheorems.NothingLeftBehind` | socket.go:718-742 | in every run a closed socket has no buffer, transport or upgrade left, and the link of a probe given up is closed |
| `ClientTheorems.PacketsAreHandled` | socket.go:745-789 | in every run a packet from either transport is handled alike: a ping queues one pong while open, a message is dispatched until closed; a close packet in a poll answer ends the polling |
| `ClientTheorems.ClosedLinkDropsSilently` | socket_transport_websocket.go:163-171 | what is flushed onto a link that has closed is counted as sent and written nowhere |
| `ClientPromises.EveryPollIsWaitedFor` | socket_transport_polling.go:207-245 | over every run the goroutines Pause waits for grow by one with every poll request that ends, failed or answered, and shrink by one with every goroutine that leaves |
| `ClientPromises.ClosingEndsPolling` | socket_transport_polling.go:156-185 | in every run the transport of a socket that is no longer open closes as soon as its request has ended and not before, and then nothing is ever polled again |
| `ClientPromises.TeardownIsFinal` | socket.go:687-742 | from every reachable state one teardown closes the socket for good, and Close alone only turns open into closing |
| `ClientPromises.FlushGoesOnExactly` | socket.go:553-575 | a flush ends and goes round again exactly when it had no error and the open socket is not upgrading and has packets left |
| `ClientProofs.StepKeepsInv` | socket.go:513-1047 | every step keeps the flush and upgrade handshake, conservation, the order of the two streams, polling quiescence and the wakeup |
| `Draining.OpenClientDrains` | socket.go:525-575 | from every reachable state an open client can finish its flush and its upgrade and hand every accepted packet to a transport |
| `SocketObject.Socket.constructor` | socket.go:814-851 | an open socket on polling with what was buffered while opening |
| `SocketObject.Socket.Send` | socket.go:513-523 | accepted exactly while opening or open; appends in order |
| `OpeningBuffer.OpensWithWhatWasSent` | socket.go:513-523 | what is sent while opening, in any number of calls, is in order what the socket opens with, and a socket that is opening can be closed |
| `SocketObject.Socket.BeginFlush` | socket.go:531-552 | claims the flush and copies the buffer only when open, not upgrading, not flushing and not empty |
| `SocketObject.Socket.EndFlush` | socket.go:553-575 | drops what was written if still open, releases the flush, and reports whether to go round again |
| `SocketObject.Socket.BeginUpgrade` | socket.go:955-966 | an open socket stops flushing from here on |
| `SocketObject.Socket.CancelUpgrade` | socket.go:988-1010 | a failed commit resumes flushing |
| `SocketObject.Socket.Adopt` | socket.go:1012-1033 | an open socket switches to the link and resumes flushing; otherwise the link is refused |
| `SocketObject.Socket.BeginCloseTransport` | socket.go:495-505 | only an opening or open socket starts closing |
| `SocketObject.Socket.BeginTeardown` | socket.go:718-742 | the first caller gets the transport and leaves the socket closed and empty |
| `SocketObject.SendChunks` | socket.go:579-589 | stops at the first failed chunk and counts exactly the packets before it, a prefix of the input |
| `ClientPolling.PollingTransport.BeginOpen` | socket_transport_polling.go:96-106 | only from closed |
| `ClientPolling.PollingTransport.BeginPause` | socket_transport_polling.go:131-141 | only while running |
| `ClientPolling.PollingTransport.BeginClose` | socket_transport_polling.go:190-200 | claims closing unless closed |
| `ClientPolling.PollingTransport.OnClose` | socket_transport_polling.go:358-371 | closed, notifying only the first time |
| `Chunking.ChunkPackets` | socket.go:594-624 | the loop cuts exactly the greedy chunks, one if there is no limit |
| `Chunking.ChunksCorrect` | socket.go:594-624 | chunks concatenate to the input, every multi-packet chunk is within the limit if there is one, no order-preserving partition within the limit has fewer chunks, and without a limit there is one chunk |
| `PostRequest.HandleSend` | server.go:403-445 | octet-stream and undecodable bodies are refused and close the session, one that cannot be read or is oversized is refused, an empty one acknowledged, others dispatched packet by packet |
| `PostRequest.ServedExactly` | server.go:403-445 | by the whole body: too large exactly when readable and beyond the limit; acknowledged exactly when within it and empty or decodable, and then dispatched whole; the session closes exactly on an octet stream or a body within the limit that does not decode |
| `PostRequest.ChunkServed` | server.go:411-437 | a posted chunk is dispatched whole exactly when it is within the limit and its packets survive the codec |
| `PostRequest.ChunksAreServed` | server.go:411-437 | when every packet fits the limit alone and survives the codec, each chunk the client cuts to that limit is accepted and dispatched as it was cut |
| `Heartbeat.NoFalseAlarm` | socket.go:789-810 | no end ever gives up on a live peer exactly when the longest ping and pong delays together, and the opening lag and ping delay together, stay below the ping timeout |
| `Heartbeat.SilenceCloses` | server_socket.go:313-352 | whatever arrives, the server is not open later than interval plus timeout after the last pong or its opening, nor the client after the last packet |
| `Heartbeat.HearingPostpones` | socket.go:745-810 | every message or ping handled moves the deadline of an open client to interval plus timeout from now, a ping is answered with a pong, and a pong ends the server's deadline and schedules its next ping |
| `SessionHeartbeat.TimersAgree` | server_socket.go:218-352 | in every run of the heartbeat the session's critical sections keep its state and its two timers equal to those of the clock model |
| `SessionHeartbeat.TimersAgreeFromTheStart` | server_socket.go:218-352 | so from a new session and a new heartbeat on |
| `Heartbeat.SlowRoundTrip` | server_socket.go:336-352 | whenever ping and pong delays reach the timeout there is a run in which the server gives up on a live client |
| `Heartbeat.LateOpen` | socket.go:791-810 | whenever the opening lag and ping delay reach the timeout there is a run in which the client gives up on a live server |
| `Packets.PacketRoundTrip` | encoding.go:31-64 | a packet comes back from its text form exactly when its type is known and binary only on a message |
| `Packets.DecodedWellFormed` | encoding.go:42-64 | whatever v4 decodes is well-formed, binary implying message |
| `Packets.TypeBytesInverse` | packet.go:115-130 | type byte and type are inverse in both directions, wrap-around included |
| `Packets.KindsOnTheWire` | packet.go:115-130 | close, ping, pong, message, upgrade and noop are the digits 1 to 6 on the wire, and a binary message begins with b |
| `Packets.DecodeFailsExactly` | encoding.go:42-64 | a text fails as empty exactly when empty, as bad base64 exactly when what follows b is none, and as of unknown type exactly when it begins with neither b nor a digit 0 to 6 |
| `Base64.RoundTrip` | encoding.go:31-64 | the decoder, which skips line breaks, inverts the padded encoder |
| `Base64.DigitsAreLetters` | encoding.go:31-64 | each digit is written as its letter of table 1 of RFC 4648, and read as such |
| `Base64.DecodesExactly` | encoding.go:42-64 | a text without line breaks decodes exactly when it is groups of four letters, the last padded by at most two |
| `Base64.LineBreaksAreSkipped` | encoding.go:42-64 | a line feed or carriage return changes nothing, wherever it stands |
| `Payload.AppendPayload` | payload.go:44-53 | the loop appends the joined packets to what is there |
| `Payload.DecodeRecordSeparatorPayload` | payload.go:87-100 | the loop decodes the segments in order and fails with the first that fails |
| `Payload.SplitExactly` | payload.go:87-100 | the segments hold no separator, and joined by it are the input, empty segments included |
| `Payload.FirstBadSegmentFails` | payload.go:87-100 | a payload fails with an error exactly when that is the error of its first segment that is no packet |
| `Payload.PayloadRoundTrip` | payload.go:36-100 | exactly the non-empty lists of well-formed packets without a separator in their text survive encoding and decoding |
| `Payload.ReencodingIsStable` | payload.go:87-100 | whatever bytes decode to packets, encoding those decodes to them again |
| `LegacyPackets.LegacyWellFormed` | payload.go:143-172 | what a v2 or v3 packet decodes to is well-formed exactly when its binary form names a message |
| `LegacyPackets.BinaryPongDecodes` | payload.go:143-172 | a concrete packet that decodes to a binary pong |
| `LegacyPackets.StringPacketFailsExactly` | payload.go:143-172 | which texts are no v2 or v3 packet, and for which of the four reasons |
| `BinaryFraming.ReadLength` | payload.go:187-203 | the inner loop wraps at every digit and still reads the decimal value up to the terminator modulo 2^64, or finds none |
| `BinaryFraming.ReadFrame` | payload.go:180-216 | one turn of the loop reads the frame at the cursor, fails for the same reason as the specification, or panics on the slice |
| `BinaryFraming.DecodeBinaryFramedPayload` | payload.go:177-219 | the loop consumes the whole input frame by frame, or fails or panics with the first bad frame |
| `BinaryFraming.DecodesExactlyFrames` | payload.go:177-239 | decoding yields a packet list exactly when the input is a concatenation of frames of marker, value bytes, terminator and decodable body that decode to that list, the value bytes counting the body modulo 2^64 |
| `BinaryFraming.PanicsExactly` | payload.go:205-210 | decoding panics exactly on frames followed by a header whose wrapped length is negative or runs past the largest int |
| `BinaryFraming.FailsExactly` | payload.go:177-239 | decoding fails with an error other than malformed exactly on valid frames followed by one of the right length whose body fails with it |
| `BinaryFraming.TextFrameDecodes` | payload.go:177-239 | a concrete text frame, byte by byte, and its packet |
| `BinaryFraming.WrappedLengthDecodes` | payload.go:187-203 | a concrete frame whose length of 2^64 + 2 announces two bytes |
| `BinaryFraming.NegativeLengthPanics` | payload.go:205-210 | a concrete header whose length of 2^63 makes the slice panic |
| `BinaryFraming.PayloadWellFormed` | payload.go:225-239 | what a v3 binary payload decodes to is well-formed, binary implying message, exactly when each of its frames that decodes to a binary packet names a message |
| `BinaryFraming.RawPongDecodes` | payload.go:225-239 | a concrete raw frame that decodes to a binary pong |
| `StringFraming.ReadFrame` | payload.go:109-134 | one turn of the loop reads the frame at the cursor, fails for the same reason as the specification, or panics on the slice |
| `StringFraming.DecodeStringFramedPayload` | payload.go:105-137 | the loop consumes the whole input frame by frame, or fails or panics with the first bad frame |
| `StringFraming.DecodesExactlyFrames` | payload.go:105-172 | for any packet decoder, decoding yields a packet list exactly when the input is a concatenation of count, colon and body of that many runes that decode to that list |
| `StringFraming.PanicsExactly` | payload.go:122-128 | for any packet decoder, decoding panics exactly on frames followed by a count that fits an int but makes the end of its body wrap |
| `StringFraming.FailsExactly` | payload.go:105-172 | for any packet decoder, decoding fails with an error other than malformed exactly on valid frames followed by one of the right count whose body fails with it |
| `StringFraming.LargestCountPanics` | payload.go:122-128 | the largest int as a count makes the slice panic |
| `StringFraming.PayloadWellFormed` | payload.go:143-172 | what a v2 or v3 text payload decodes to is well-formed exactly when each frame in binary form names a message |
| `StringFraming.OpensWithDigit` | payload.go:66-76 | an accepted payload begins with a digit exactly when it does not begin with a plus sign |
| `StringFraming.PlusDecodesAlike` | payload.go:110-121 | for any packet decoder, a plus sign in front of an accepted payload that begins with a digit changes nothing |
| `StringFraming.SignedCountDecodes` | payload.go:110-121 | a concrete accepted payload that begins with a sign |
| `StringFraming.FramedDecodes` | payload.go:105-172 | every list of decodable packet texts, each prefixed by its rune count, decodes to exactly their packets |
| `VersionedPayload.SelectionLosesNothing` | payload.go:63-83 | the first byte sends every payload either v3 machine accepts to that machine |
| `VersionedPayload.MarkerIsNotText` | payload.go:55-83 | a text that opens with a binary frame marker is malformed under the string framing |
| `WebTransportFraming.AppendWebTransportFrame` | encoding_webtransport.go:40-69 | appends the header and the body to what is there |
| `WebTransportStream.Reader.constructor` | encoding_webtransport.go:77-81 | a stream holding the given bytes |
| `WebTransportStream.Reader.ReadFull` | encoding_webtransport.go:77-117 | takes exactly n bytes, or fails and exhausts the stream |
| `WebTransportStream.ReadHeader` | encoding_webtransport.go:77-107 | reads flag and length in the form the first byte announces |
| `WebTransportStream.ReadWebTransportPacket` | encoding_webtransport.go:77-128 | returns what the specification reads and leaves the stream exactly after it |
| `WebTransportProofs.FrameRoundTrip` | encoding_webtransport.go:40-128 | a frame is read back, leaving the rest, exactly when its packet is well-formed and within the limit |
| `WebTransportProofs.StreamRoundTrip` | encoding_webtransport.go:40-128 | reading the concatenated frames of any packets returns them and leaves the remainder |
| `WebTransportProofs.ShortestHeader` | encoding_webtransport.go:56-67 | no header announcing the same length is shorter than the one written |
| `WebTransportProofs.NoPrefixReads` | encoding_webtransport.go:77-128 | every strict prefix of the bytes of a packet that reads is truncated |
| `WebTransportProofs.HeaderBytes` | encoding_webtransport.go:50-69 | the header in bytes: the length itself below 126, 126 and two bytes below 65536, otherwise 127 and eight, the top bit telling binary |
| `WebTransportProofs.RefusedFrames` | encoding_webtransport.go:77-128 | a frame beyond the limit is refused with its body unread, and one within it that holds no packet with the stream right after it |
| `Yeast.YeastEncode` | yeast.go:42-57 | the loop writes the base-64 digits, most significant first |
| `Yeast.EncodeInverts` | yeast.go:42-57 | the number is recovered from its encoding, which never holds the separator and begins with zero only for zero |
| `Yeast.LettersAreTheAlphabet` | yeast.go:8-11 | each digit is written as its letter of the alphabet: digits, capitals, small letters, hyphen, underscore |
| `Yeast.YeastGenerator.constructor` | yeast.go:25-39 | a generator that has emitted nothing |
| `Yeast.YeastGenerator.Next` | yeast.go:64-88 | emits the clamped time, with a sequence number when it repeats, and advances |
| `Yeast.AllDistinct` | yeast.go:42-88 | for every sequence of clock readings, backward jumps included, all values are pairwise distinct |
| `Yeast.ShapeOfValues` | yeast.go:64-88 | for every sequence of clock readings, a reading above all before it is emitted alone, and any other as the highest so far with the number of repeats behind a dot |
| `Fallback.Socket.constructor` | socket.go:235-271 | a closed socket with its list and options |
| `Fallback.Socket.BeginOpen` | socket.go:320-351 | only a closed socket starts opening |
| `Fallback.Socket.SelectTransport` | socket.go:398-414 | the remembered upgrade if usable, otherwise the first of the list, or none |
| `Fallback.Socket.BeginRetry` | socket.go:658-684 | forgets the upgrade; retries only while opening with a transport left, dropping the head |
| `Fallback.Socket.OpenFailing` | socket.go:279-311 | when no transport opens, the attempts are those of the specification and the socket ends closed |
| `Fallback.Socket.OnError` | socket.go:628-649 | falls back or tears down; ends closed |
| `Fallback.AttemptsBounded` | socket.go:628-684 | a chain of failing opens makes at most as many attempts as there are transports |
| `Fallback.TriesInOrder` | socket.go:658-684 | without a usable memory the list is tried in order, to its end |
| `Fallback.AttemptsAre` | socket.go:628-684 | the attempts of a failing chain are the choice and then the rest of the list, cut after the first transport that cannot be created |
| `Fallback.LeavesTheRest` | socket.go:628-684 | a failing chain that ends at place c leaves the list from there on, and no memory unless the remembered transport itself could not be created |
| `Fallback.TriesAllExactly` | socket.go:357-414 | with c the place of the first planned transport that cannot be created, or the last: all are tried exactly when the first of the list and those beyond place c are the choice or stand at places 1 to c |
| `Fallback.AllCreatable` | socket.go:398-414 | with every transport creatable, all are tried exactly when no usable upgrade is remembered, or it is the first, or the first occurs again |
| `Fallback.NoRepetitions` | socket.go:357-414 | on a list without repetitions all are tried exactly when the memory is none or the first, and all but the last can be created |
| `Fallback.RememberedUpgradeSkipsFirst` | socket.go:398-414 | a concrete list whose first transport is never tried |

## Left out

- HTTP, gzip, CORS, cookies, JSON, URLs, WebSocket and QUIC dialing, the session store and the option plumbing: calls into libraries, with only easy facts to state.
- The WebTransport transports' probe and read loops mirror the WebSocket ones; one promotable link stands for both.
- One client epoch: runs start at the completed handshake and the guarantees are stated until the socket leaves the open state; reopening while an old flush or probe is still in flight is not modelled.
- The links do not lose or reorder what they carry, with these exceptions: a POST may be lost before it is read, its acknowledgement may be lost after it is served, and the client may give it up at any moment in between. A poll answer the client never receives ends the session in the source and is not modelled end to end.
- A session closed because a payload or a frame does not decode: in the end-to-end model that is a step the session may take at any time, not one forced by the bad input.
- What happens end to end to payloads that do not survive the codec, beyond the concrete run of `SeparatorTearsAMessage`.
- The probe's pong may reach the client at any time after its probe starts; the pong frame itself is not matched with the server's write.
- Prompt closure of a client that closes during an upgrade, which in the source may wait for the ping timeout, is not claimed; nor is that no message is dispatched after a server close.
- Close-handler counts of the client transports.
- A chunk the client fails to write to its link is modelled as not written at all; in the source some of its frames may be out, on a connection that takes nothing more.
- The close packet of a client that closes: the server session's closing is a step it may take at any time, not one forced by that packet.
- Integers are unbounded but for the lengths of the v2 and v3 framings, which are 64 bits wide, and the type byte. The yeast counter and the pool's capacity limit are unbounded.
- ReadWebTransportPacket: an allocation failure for an absurd length without a limit is reported as truncation, and the kind of end-of-file error is not told apart.
- UTF-8 decoding of bytes: the string framing works on runes, and only their encoding is modelled.
- Timers fire on time and settings are whole milliseconds in the heartbeat model; a ping reaches a client only after the open packet did.
- FallbackCloses: that the timer fires is an event, not a promise of the scheduler; what is proved is that its callback closes the session.
- PauseEndsInAdoption: states that a way on exists, not that the scheduler takes it; the held poll may be answered because the application sends something.
- OpenClientDrains: states that a way on exists when transports take what is written and polls are answered; whether the server accepts the link is not part of it.
- DeliveryArrives: that a goroutine with a step to take takes it is an event, not a promise of the scheduler.
