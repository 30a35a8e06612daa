# Stream engine: model and proofs

The WebRTC mapping carries each byte stream on a data channel of its own and bounds memory with
credit: a receiver announces absolute limits, per stream and per connection, and a sender may not
pass them. This project models that engine (the counters, the life of a stream, the task that
writes frames, the handshake that opens a connection, and the bytes on the wire) and proves what
it is for: two conforming endpoints behave as a FIFO byte pipe, never stall for credit, and keep their
memory within the announced windows whoever the peer is. They accuse each other in one narrow race only,
and every stream both have closed retires but for another; both races are given exactly.

`dafny verify dfyconfig.toml` checks everything.

## How it is built

| file | contents |
|---|---|
| `Basics`, `Wire`, `Trace` | bytes and sums; frames and control messages with their codec; what a sequence of frames says |
| `Flow`, `CreditEngine` | credit arithmetic; its state machine; `ConnFlow`, the object that runs it |
| `Streams`, `StreamInv`, `StreamSteps`, `StreamFacts`, `StreamLaws` | one stream end, one lock section a step; its invariant; every step keeps it; what it means, in terms of the frames that came |
| `StreamRuns`, `SentCodes`, `CancelRace` | runs of one stream end and what holds ever after; the codes it sends; the blocking form's DATA handler |
| `StreamEngine` | `WebrtcStream`, the object whose methods are those lock sections and the calls made of them |
| `Endpoints`, `EndpointFacts` | all streams of one endpoint on one ledger, against any peer |
| `Systems`, `Guarantees`, `Delivery`, `Retirement`, `Openings` | two endpoints and their channels: no violation, byte pipe, credit, delivery, retirement; runs that open and close a stream |
| `Gate`, `GateRuns`, `GateControl` | HELLO, staging, accepting, teardown, and `ConnCore`, the object that does it; what its runs give to accepts and say on the control channel, told from the events alone |
| `WriteLoop` | the blocking write call |

Three activities share a stream: the channel's callbacks, the application's calls, the writer task.
A step is what one of them does under one lock; what it has in hand between two locks is part of
the state, so every other step may come in between. `Owed` says which section a call takes next.
Frames handed to the transport and frames taken from it are kept as histories; what one end has
sent and the other not taken is in flight, with no order between any two channels. A close is
delivered after everything its sender put on that channel, and an end that closes may lose what was
still coming.

These pieces are one step each, because nothing another activity can do between their parts changes
the outcome: handing a frame to the transport and committing its credit; choosing a terminal in a call
of the application, failing pending reservations and, for a reset, queueing RESET; failing
reservations and queueing RESET in the second half of the STOP_SENDING handler; marking the cancel and
queueing STOP_SENDING when nothing was buffered; taking an item off the ordered queue and looking whether
its data is void; returning a dropped handle's grant and dropping its senders; the parts of the
channel-close callback; creating a channel and committing its slot; consuming and queueing the
advertisement it makes due. The two halves of the STOP_SENDING handler are steps of their own, and so is
noting that a terminal frame was sent.
When the handle is dropped the senders of the ordered queue go with it; the writer may then end as
soon as that queue is empty, whatever is in the lifecycle queue, as it looks at the two one after the
other. Connection-level advertisements go straight to the control channel. The two ends of a stream
have the same number, and a retired stream is kept as history.

What is asked of the environment:

- frames and messages have passed the decoder;
- a second poll of a write passes a buffer no shorter than the grant still held;
- HELLO is taken once, and announced windows are at most `MAX_OFFSET`;
- between two endpoints, a channel's close does not arrive between the hand-off of our own terminal
  frame and its note (`Systems.ClosesEarly`). Everything else may come in that gap. A close that does
  come there is a violation, and nothing else ever is (`Systems.NoViolation`);
- for retirement, both applications close the stream, and close it before they drop it; and no writer
  ends before its terminal frame was handed over. Without the last a stream is retired at neither end,
  and with it at both (`Retirement.RetirementTerminates`). Nothing else is asked of handles: all other
  results hold of streams dropped at any time.

## What the proofs found

- A terminal frame is noted after `send` returns, under another lock. A peer that has ended too can
  take it and close first; the close then finds the note missing and the connection is ended as
  "closed mid-stream". An arriving close is a violation if and only if it comes in that gap
  (`Systems.NoViolation`, `Guarantees.NeverKilled`), and two conforming endpoints can come to it:
  each finishes an empty stream, and the close is quick (`Openings.CloseCanBeEarly`).
- The Rust STOP_SENDING handler chooses RESET under the lock and queues it later. In between a close
  returns at once, since the write half counts as ended; if the handle is then dropped, the writer finds
  its queue empty and without senders, and ends, and the RESET is lost (`StreamRuns.ResetIsLost`). A
  RESET the application has queued itself is lost the same way if the writer looked at the lifecycle
  queue just before (`StreamRuns.QueuedResetIsLost`). FIN and data are never lost, and a terminal frame
  is lost exactly when it is such a RESET (`StreamFacts.WriterLosesNothing`). That end sends no further
  frame (`StreamRuns.GaveUpForGood`), and no run retires the stream at either end
  (`Retirement.GaveUpNeverRetires`); two conforming endpoints that have both closed the stream come to it
  (`Openings.ResetCanBeLost`), and the slot does not return (`Retirement.WindowsAreBack`).
- The Rust `poll_write` of no bytes parks, with all windows open, on a stream that has sent nothing
  (`CreditEngine.EmptyWriteParks`). It is never granted; it is refused once the stream or the
  connection has failed (`Flow.NothingIsNeverGranted`). Go and JavaScript return at once.
- The repository's wire rules ask for RESET in answer to STOP_SENDING while no terminal frame has been
  handed to the transport. The code answers if and only if none has been chosen
  (`StreamRuns.StopAnsweredExactly`). Two runs end unanswered: a FIN still in the queue
  (`StreamRuns.StopAfterQueuedFin`), and a `poll_shutdown` that finds the queue full and takes its
  choice back (`StreamRuns.StopDuringShutdown`). They stay unanswered through every later run in which
  the application does not reset the stream itself (`StreamRuns.StopNeverAnswered`).
- Between the two locks of `cancel_read` a discard may still advertise stream credit, exactly when it
  is due (`StreamFacts.CreditAfterCancelExactly`); it happens (`StreamRuns.CreditAfterCancelHappens`).
- The Go handler looks at the cancel flag before it counts a frame and puts the frame by what it saw.
  On a stream its application has abandoned, with a peer that does not reset, bytes are left over if
  and only if the cancel came between the look and the put (`CancelRace.LeftoverExactly`). Then no rung
  of the ladder is ever taken: the stream never retires and its slot never returns
  (`CancelRace.RacedNeverRetires`, with a run in `CancelRace.RaceHappens`). The model otherwise follows
  the Rust handler.
- The repository's flow-control rules want unaccepted streams bounded by the window. What is bounded is
  opened less retired streams, and a stream can retire before it is accepted
  (`StreamRuns.RetiresUnaccepted`). A run keeps the accept queue within the window if and only if no
  channel arrives at a full queue after more streams retired than were accepted
  (`Gate.QueueExceedsExactly`, `Gate.QueueStaysInWindow`; a failing run in `Gate.QueueOutgrows`).
- The JavaScript gate registers and queues a channel that arrives after teardown, exactly when a slot
  is free (`Gate.LateChannel`), and no later run destroys it (`Gate.NeverDestroyed`; it happens, by
  `Gate.LateChannelHappens`).
- After teardown the JavaScript gate still answers a HELLO of another version, and nothing else, if none of
  our version was taken and the host still has the control channel open (`GateControl.SilentAfterwards`;
  a run in `GateControl.LateVersionAnswered`). Both hosts close the transport at teardown.

## Model

| member | source | states |
|---|---|---|
| Wire.FrameRoundTrip | libs/go/framing.go:64-137 | every valid frame is at most the maximum message size and is parsed back as itself |
| Wire.FrameCanonical | libs/go/framing.go:97-137 | every accepted message is the one encoding of the valid frame it is read as, so parsing and encoding are inverse bijections |
| Wire.ControlRoundTrip | libs/js/packages/core/src/control.ts:28-101 | every valid control message, HELLO of any version included, is decoded back as itself |
| Wire.ControlCanonical | libs/js/packages/core/src/control.ts:66-101 | every accepted control message is the one encoding of what it is read as, and its limits are at most MAX_OFFSET |
| Wire.FrameBytes | libs/go/framing.go:15-137 | a message is read as a frame, and the frame written as that message, if and only if type byte, length and big-endian value are those of the wire rules, byte by byte |
| Wire.ControlBytes | libs/js/packages/core/src/control.ts:16-101 | the same of every control message, with the order of the three limits in HELLO |
| Wire.PutUint64 | libs/js/packages/core/src/control.ts:35-44 | eight big-endian bytes are written in place and the rest of the buffer is left alone |
| Wire.EncodeHello | libs/js/packages/core/src/control.ts:35-44 | for any version the buffer filled field by field is the encoding the decoder inverts |
| Trace.LegalMeansEndsOnce | libs/rust/kps/src/stream.rs:117-180 | the step-by-step rule of the write half is the rule by positions: no DATA and no second terminal after a terminal frame |
| Flow.ParkedExactly | libs/rust/kps/src/flow.rs:200-231 | a live reservation waits exactly when a window is used up or nothing was asked for |
| Flow.NothingIsNeverGranted | libs/rust/kps/src/flow.rs:200-231 | a request for no bytes is refused after a failure and otherwise waits, however much credit there is |
| Flow.GrantIsWhole | libs/rust/kps/src/flow.rs:200-231 | a grant is all that was asked for or uses up the stream's or the connection's window, and a request is refused exactly after a failure |
| Flow.SlotParkedExactly | libs/rust/kps/src/flow.rs:281-298 | a slot request is refused exactly after a failure, waits exactly at the peer's limit, and otherwise takes one slot |
| Flow.GrantFits | libs/rust/kps/src/flow.rs:200-231 | a grant is between 1 and what was asked, and sent plus reserved stays within the peer's limits at both levels |
| Flow.ReceivedExactly | libs/rust/kps/src/flow.rs:317-333 | bytes are taken if and only if they fit both windows, and then both counters move by them; those of an unknown stream move nothing |
| Flow.ConsumeKeeps | libs/rust/kps/src/flow.rs:342-361 | consuming keeps both receive windows in order; the enforcement limit moves exactly by what is advertised, and a cancelled stream is granted nothing |
| Flow.AdvertsAreCoarse | libs/rust/kps/src/flow.rs:342-361 | credit is advertised exactly when half a window was consumed since last time, and each advertisement raises the limit by at least half a window, short of MAX_OFFSET |
| Flow.WindowReopens | libs/rust/kps/src/flow.rs:342-361 | with everything consumed more than half of the window is open, and at least a byte of a window of one |
| CreditEngine.StepKeeps | libs/rust/kps/src/flow.rs:123-392 | every operation, in any order its callers may use, keeps all counters in range, reservations equal to those of live streams, and no blocked caller that could be served |
| CreditEngine.EveryRun | libs/rust/kps/src/flow.rs:94-392 | the same of every run from a fresh engine: exact arithmetic, balanced reservations, no lost wakeup |
| CreditEngine.WaitersKept | libs/rust/kps/src/flow.rs:200-298 | whoever is answered with a wait is recorded, and stays so until all are woken |
| CreditEngine.SlotsAreCounted | libs/rust/kps/src/flow.rs:281-310 | over any run the slots reserved are those granted and neither committed nor given back, those opened are those committed |
| CreditEngine.EnforcedIsAnnounced | libs/rust/kps/src/flow.rs:342-392 | in every run the limits enforced on the peer are the first windows or the largest it was told since |
| CreditEngine.EmptyWriteParks | libs/rust/kps/src/stream.rs:558-565 | after the peer's HELLO a new stream with credit at both levels parks an empty write |
| CreditEngine.LimitsOnlyRise | libs/rust/kps/src/flow.rs:147-171 | no operation lowers any limit, announced or received |
| CreditEngine.LateReturnIsNothing | libs/rust/kps/src/flow.rs:184-252 | after a stream is dropped its commits and releases move no counter, and the drop returned exactly its reservation |
| CreditEngine.CommitFreesNothing | libs/rust/kps/src/flow.rs:234-242 | a commit changes nobody's next answer, which is why it wakes nobody |
| CreditEngine.ConnFlow.constructor | libs/rust/kps/src/flow.rs:94-121 | a new engine is the initial state of the machine |
| CreditEngine.ConnFlow.FailAll | libs/rust/kps/src/flow.rs:131-138 | failing refines the machine's step: everyone is woken, once |
| CreditEngine.ConnFlow.OnPeerHello | libs/rust/kps/src/flow.rs:148-154 | HELLO refines the machine's step on every send-side limit and wakes everyone |
| CreditEngine.ConnFlow.OnPeerMaxData | libs/rust/kps/src/flow.rs:157-163 | a raise is taken and wakes, a decrease is ignored |
| CreditEngine.ConnFlow.OnPeerMaxStreams | libs/rust/kps/src/flow.rs:165-171 | a raise is taken and wakes, a decrease is ignored |
| CreditEngine.ConnFlow.NewStreamId | libs/rust/kps/src/flow.rs:174-181 | a new stream has a new number and a full receive window |
| CreditEngine.ConnFlow.DropStreamState | libs/rust/kps/src/flow.rs:184-191 | the stream's unsent reservation returns to the connection, once |
| CreditEngine.ConnFlow.PollReserve | libs/rust/kps/src/flow.rs:200-231 | reserves at both levels or joins the waiters, as the machine's step does |
| CreditEngine.ConnFlow.CommitBytes | libs/rust/kps/src/flow.rs:234-242 | moves bytes from reserved to sent at both levels, nothing for a dropped stream |
| CreditEngine.ConnFlow.ReleaseBytes | libs/rust/kps/src/flow.rs:245-252 | returns a reservation at both levels and wakes |
| CreditEngine.ConnFlow.FailSending | libs/rust/kps/src/flow.rs:256-264 | fails one stream's reservations and wakes the first time |
| CreditEngine.ConnFlow.OnPeerMaxStreamData | libs/rust/kps/src/flow.rs:267-275 | a raise of one stream is taken and wakes, a decrease is ignored |
| CreditEngine.ConnFlow.PollStreamSlot | libs/rust/kps/src/flow.rs:281-298 | takes a slot or waits at the peer's limit |
| CreditEngine.ConnFlow.CommitStreamSlot | libs/rust/kps/src/flow.rs:300-304 | turns a reserved slot into an opened stream |
| CreditEngine.ConnFlow.ReleaseStreamSlot | libs/rust/kps/src/flow.rs:306-310 | returns a reserved slot and wakes |
| CreditEngine.ConnFlow.OnDataReceived | libs/rust/kps/src/flow.rs:317-333 | both windows are enforced before either counter moves |
| CreditEngine.ConnFlow.OnConsumed | libs/rust/kps/src/flow.rs:342-361 | both receive counters advance and due advertisements are made, as the machine's step does |
| CreditEngine.ConnFlow.MarkStreamCancelled | libs/rust/kps/src/flow.rs:365-370 | the stream is granted no more credit |
| CreditEngine.ConnFlow.PeerStreamWasOpened | libs/rust/kps/src/flow.rs:377-384 | a peer stream takes a slot or is refused at the advertised limit |
| CreditEngine.ConnFlow.PeerStreamHasRetired | libs/rust/kps/src/flow.rs:387-392 | a retired peer stream raises and announces the limit, short of MAX_OFFSET |
| StreamSteps.DoKeeps | libs/rust/kps/src/stream.rs:98-715 | every lock section of a stream, with any decoded input, keeps the stream's invariant and moves the connection's counters by exactly what it moves in the stream |
| StreamSteps.HelloKeeps | libs/rust/kps/src/flow.rs:147-154 | a stream opened before the peer's HELLO is as good as one opened after it |
| StreamFacts.PhaseOnlyAdvances | libs/rust/kps/src/stream.rs:233-258 | retirement advances one rung at a time and never back: the hook fires once |
| StreamFacts.DroppedStreamTakesNoData | libs/rust/kps/src/flow.rs:321-323 | data for a stream without credit state is a violation first, so the engine's lenient answer is never used |
| StreamFacts.CreditAfterCancelExactly | libs/rust/kps/src/stream.rs:637-657 | a discard after cancel advertises stream credit only between the cancel's two locks, and then exactly when it is due |
| StreamFacts.WriterLosesNothing | libs/rust/kps/src/stream.rs:446-488 | a writer that stops on a closing channel holds no frame, no terminal is queued, and queued data was already void; one that ends because the handle is gone loses no data and no FIN, and loses the terminal exactly when it is a RESET not yet queued or not yet sent |
| StreamLaws.ReadsAnswer | libs/rust/kps/src/stream.rs:494-533 | which answer a read gives, from the frames that came and the cancel |
| StreamLaws.WritesAreWhole | libs/rust/kps/src/stream.rs:554-566 | a write let through with nothing in hand is granted a full frame, its whole buffer, or the last of a window |
| SentCodes.CodesAreGiven | libs/rust/kps/src/stream.rs:181-674 | over any run the codes of STOP_SENDING and RESET sent, queued or pending are, in order, those of cancels before the peer ended, of resets, and of a STOP_SENDING that found no terminal chosen |
| StreamRuns.NothingAcceptedAfter | libs/rust/kps/src/stream.rs:537-553 | once asked to stop, ended or closed, with no write past its first look, no run accepts another byte |
| StreamRuns.LifecycleFirst | libs/rust/kps/src/stream.rs:387-454 | in any run a queued lifecycle frame waits for at most the one frame the writer has in hand |
| StreamRuns.RetiresUnaccepted | libs/rust/kps/src/stream.rs:181-278 | a run without any step of an application takes a new peer stream to retirement |
| StreamRuns.StopAnsweredExactly | libs/rust/kps/src/stream.rs:181-204 | whatever happens between the halves of the handler, the second queues RESET if and only if no local terminal was chosen when STOP_SENDING came |
| StreamRuns.StopNeverAnswered | libs/rust/kps/src/stream.rs:181-204 | a STOP_SENDING left unanswered stays so in every later run, repeated or not, whatever other streams do, unless the application resets |
| StreamRuns.StopAfterQueuedFin | libs/rust/kps/src/stream.rs:181-204 | a run from a new stream leaves STOP_SENDING unanswered with nothing yet on the wire, against the wire rules |
| StreamRuns.StopDuringShutdown | libs/rust/kps/src/stream.rs:594-617 | a run of full queue, shutdown and STOP_SENDING ends with the write half open and STOP_SENDING unanswered |
| StreamRuns.ResetIsLost | libs/rust/kps/src/stream.rs:181-204 | a run from a new stream in which close and drop come between the handler's halves and the writer ends: the stream is closed by its application, its RESET queued and its writer gone |
| StreamRuns.QueuedResetIsLost | libs/rust/kps/src/stream.rs:446-456 | a run of reset, cancel and drop that ends with the application's own RESET queued and the writer gone |
| StreamRuns.GaveUpForGood | libs/rust/kps/src/stream.rs:446-488 | after that no later run sends a frame from this end or takes a rung of its ladder |
| StreamRuns.CreditAfterCancelHappens | libs/rust/kps/src/stream.rs:637-657 | a run from a new stream advertises stream credit after the cancel |
| CancelRace.LeftoverExactly | libs/go/stream.go:117-139 | in every run of an abandoned stream bytes are left after a cancel if and only if the cancel came after a handler's look and before it put the payload |
| CancelRace.RacedNeverRetires | libs/go/stream.go:216-246 | after such a race no run takes any rung of the ladder |
| CancelRace.RaceHappens | libs/go/stream.go:117-139 | a run to a stream closed by its application and ended on the wire by both, with a byte left and nothing owed |
| StreamEngine.SettleKeeps | libs/rust/kps/src/stream.rs:213-278 | whatever a call still owes can be done, is no violation, and leaves nothing owed |
| StreamEngine.LadderIsDecided | libs/rust/kps/src/stream.rs:223-278 | after any call or callback that runs alone, a stream complete and drained is retired if its channel closed and otherwise its close is on the way |
| StreamEngine.WebrtcStream.constructor | libs/rust/kps/src/stream.rs:322-382 | a new stream is the initial state and has a new number in the engine |
| StreamEngine.WebrtcStream.OnFrame | libs/rust/kps/src/stream.rs:106-209 | a frame is refused exactly when it breaks a wire or credit rule, changing nothing; otherwise the handler is its first step and all it owes |
| StreamEngine.WebrtcStream.OnChannelClose | libs/rust/kps/src/stream.rs:261-278 | a close is refused exactly when the stream is not complete on the wire |
| StreamEngine.WebrtcStream.PollRead | libs/rust/kps/src/stream.rs:494-533 | returns the outcome the stream's state dictates, and consumes exactly what it returns |
| StreamEngine.WebrtcStream.PollWrite | libs/rust/kps/src/stream.rs:537-586 | takes exactly the granted bytes as one frame at the end of the queue, blocks exactly for want of credit or room, and touches no other stream's account |
| StreamEngine.WebrtcStream.PollShutdown | libs/rust/kps/src/stream.rs:594-617 | ready exactly if already ended, or there is room or no writer; otherwise the choice is taken back |
| StreamEngine.WebrtcStream.CloseWrite | libs/rust/kps/src/stream.rs:622-635 | the first call chooses FIN and queues it behind every accepted write, a later one does nothing |
| StreamEngine.WebrtcStream.CancelRead | libs/rust/kps/src/stream.rs:637-658 | the first call discards, returns the credit and asks the peer to stop, a later one does nothing |
| StreamEngine.WebrtcStream.ResetWrite | libs/rust/kps/src/stream.rs:660-674 | the first ending call voids queued data and queues RESET ahead of it, a later one does nothing |
| StreamEngine.WebrtcStream.Close | libs/rust/kps/src/stream.rs:680-684 | with a full queue it waits for the writer; afterwards both halves are ended, the premise of the retirement theorem, and a peer that had not ended is asked to stop with the code of a plain close |
| StreamEngine.WebrtcStream.DropHandle | libs/rust/kps/src/stream.rs:709-715 | a grant still held goes back to the connection, whatever the state of the halves, and the ordered queue has no sender any more |
| StreamEngine.WebrtcStream.RunWriter | libs/rust/kps/src/stream.rs:395-491 | run to the end the loop puts the lifecycle frames first, then DATA and FIN in order with DATA left out after a reset; then every accepted byte is on the wire and only the grant in hand is reserved |
| StreamEngine.WebrtcStream.FinishWriter | libs/rust/kps/src/stream.rs:446-488 | with the handle gone and nothing in between, the writer sends all it has and ends; the terminal frame is then on the wire if and only if one was chosen and is not still with the STOP_SENDING handler |
| StreamEngine.WebrtcStream.EndWriter | libs/rust/kps/src/stream.rs:455-456 | the writer task ends with the last sender of an empty queue, whatever is in the other |
| StreamEngine.WebrtcStream.StopWriter | libs/rust/kps/src/stream.rs:464-488 | on a closing channel the task ends with its frame's reservation returned |
| StreamEngine.WebrtcStream.RunCloser | libs/rust/kps/src/stream.rs:242-253 | the closing task closes the channel and the stream stays in order |
| Endpoints.StepKeeps | libs/rust/kps/src/conn.rs:353-458 | every event at an endpoint keeps its ledger equal to the sums over its streams and its limits equal to what was announced |
| Endpoints.ReachableInv | libs/rust/kps/src/conn.rs:353-458 | so does every run, whatever the peer sends |
| EndpointFacts.FirstLimits | libs/rust/kps/src/flow.rs:84-121 | an endpoint's windows are those it was created with, in every reachable state |
| EndpointFacts.ReceiverIsBounded | libs/rust/kps/src/flow.rs:317-392 | unread data stays within the first connection and stream windows, and streams not yet retired within the first stream window, against any peer, for good |
| EndpointFacts.CreditIsConserved | libs/rust/kps/src/flow.rs:342-361 | received is consumed plus unread, over all streams dead or alive; reservations are what the writers hold; nothing is lost or counted twice by reset, cancel or retirement |
| EndpointFacts.ArithmeticIsExact | libs/rust/kps/src/flow.rs:38-40 | every counter stays within 0 and MAX_OFFSET at both levels, so no difference wraps and no sum overflows |
| EndpointFacts.TracesAreLegal | libs/rust/kps/src/stream.rs:395-491 | on every stream of every reachable endpoint the wire carries DATA and then at most one terminal frame, a prefix of the accepted bytes, and all of them before a FIN |
| EndpointFacts.OutcomesAreExact | libs/rust/kps/src/stream.rs:494-533 | on every such stream each answer of a read if and only if what came says so: end of file, the peer's reset with its code, failure after a cancel, nothing yet, or the next bytes, as many as the first chunk has or there is room for |
| EndpointFacts.WritesEndExactly | libs/rust/kps/src/flow.rs:254-264 | on every such stream a request for credit is refused if and only if STOP_SENDING was handled, a terminal was chosen for good, or the channel closed |
| EndpointFacts.DiesExactly | libs/rust/kps/src/stream.rs:106-278 | against any peer an event ends the connection if and only if it breaks a rule that can be read off the traces; any other frame or message is taken |
| EndpointFacts.LadderIsExact | libs/rust/kps/src/stream.rs:223-278 | on every such stream the next rung was taken or a check is owed as soon as it is complete and drained, and none before |
| Systems.PeerLimits | libs/rust/kps/src/flow.rs:147-171 | a sender's limits never exceed the receiver's enforcement limits, advertisements in flight included |
| Systems.SentFitsStream | libs/rust/kps/src/flow.rs:200-252 | what one end has sent fits the limit the other enforces on that stream |
| Systems.SentFitsConn | libs/rust/kps/src/flow.rs:317-333 | and on the whole connection, for every frame still in flight |
| Systems.NoViolation | libs/rust/kps/src/stream.rs:106-278 | between conforming endpoints whatever arrives is a violation if and only if it is a close in the gap between hand-off and note of our terminal frame |
| Systems.MoveKeeps | libs/rust/kps/src/conn.rs:388-458 | every move of either endpoint or of any channel keeps the joint invariant |
| Systems.ReachableInv | libs/rust/kps/src/conn.rs:388-458 | the joint invariant holds after every run |
| Systems.FirstLimits | libs/rust/kps/src/flow.rs:84-121 | both endpoints' windows are those they were created with, in every reachable state |
| Guarantees.NeverKilled | libs/rust/kps/src/stream.rs:117-208 | in every reachable state both connections live, and anything that can happen next leaves them alive if and only if it is not such an early close |
| Guarantees.EmittedIsAccepted | libs/rust/kps/src/framing.rs:69-206 | each message an endpoint emits, in any state against any peer, is read back as itself |
| Guarantees.BytePipe | libs/rust/kps/src/stream.rs:106-533 | reads are a prefix of writes, end of file means all of them, and without reset or cancel every accepted byte is read, buffered, in flight, with the writer or queued, in order |
| Guarantees.StreamCreditReopens | libs/rust/kps/src/flow.rs:342-356 | on an idle stream the sender has credit if and only if the window is not empty and MAX_OFFSET is not used up, and more than half the window |
| Guarantees.ConnCreditReopens | libs/rust/kps/src/flow.rs:354-359 | the same of the connection, cancelled and reset streams included |
| Guarantees.CreditNeverWedges | libs/rust/kps/src/flow.rs:200-231 | with nothing under way and everything consumed a request for credit is granted |
| Delivery.Delivers | libs/rust/kps/src/stream.rs:395-533 | while neither application acts on a stream the steps on it are bounded, and when none is left, its channel open or closed, every byte accepted and not reset or cancelled is read or buffered at the reader, in order |
| Retirement.MoveShrinks | libs/rust/kps/src/stream.rs:223-278 | every step on a stream leaves less to do, an application's too once both have closed it, and no step elsewhere adds any |
| Retirement.RetirementTerminates | libs/rust/kps/src/stream.rs:622-684 | so every run takes a bounded number of steps on it, and at the end of one that can take no more, but to drop a handle, each end has retired it if and only if no writer ended before its terminal frame was handed over |
| Retirement.GaveUpNeverRetires | libs/rust/kps/src/stream.rs:446-488 | a stream one of whose writers so ended is retired by no later run, at neither end, whether or not it was closed |
| Retirement.SlotsReturn | libs/rust/kps/src/flow.rs:387-392 | when the announcements have arrived the opener has the whole window again but for streams not retired, and all of it when all are |
| Retirement.WindowsAreBack | libs/rust/kps/src/flow.rs:387-392 | in a reachable state in which every stream is closed by both applications and nothing more can happen, each opener has the acceptor's whole first window again if and only if no writer of its streams ended too early |
| Openings.Greeted | libs/rust/kps/src/conn.rs:375-416 | a run in which both HELLOs cross establishes both endpoints with the other's limits |
| Openings.StreamOpens | libs/rust/kps/src/conn.rs:525-553 | for any limits with a slot some run opens a stream; new at both ends it meets the premises of the credit theorem |
| Openings.StreamCloses | libs/rust/kps/src/stream.rs:680-684 | and some run goes on to both applications having closed it, the premise of the retirement theorem |
| Openings.CloseCanBeEarly | libs/rust/kps/src/stream.rs:436-443 | a reachable state of two conforming endpoints in which an arriving close comes before the note and ends the connection |
| Openings.ResetCanBeLost | libs/rust/kps/src/stream.rs:181-204 | two conforming endpoints come to a stream both applications have closed and no run retires |
| Gate.GateKeeps | libs/js/packages/core/src/conn-core.ts:133-248 | every handler keeps the order of streams, the accept queue, the handshake and the slots |
| Gate.EnqueueAllSurfaces | libs/js/packages/core/src/conn-core.ts:197-200 | staged streams go to the waiting accepts, first come first served, and the rest stay in order |
| Gate.AcceptedInOrder | libs/js/packages/core/src/conn-core.ts:190-248 | in every run accepted streams are exactly the observed ones in order, none before mutual HELLO, none left staged after it, and streams never wait together with accepts |
| GateRuns.AcceptsGetStreams | libs/js/packages/core/src/conn-core.ts:190-298 | in every run each stream handed out went to one accept, which was told of it, in the order both came; every accept waits, got a stream, was given up, or was refused by the closing |
| GateRuns.AcceptIsAnswered | libs/js/packages/core/src/conn-core.ts:279-298 | an accept gets the first stream not handed out yet if there is one, is refused if closed, and else waits |
| GateControl.RunTells | libs/js/packages/core/src/conn-core.ts:133-188 | in every run what was said, whether the connection is over, the peer's limits and the registered streams are functions of the events: while up every message was in order and of version 1, and the send limits are the largest that came |
| GateControl.ClosesExactly | libs/js/packages/core/src/conn-core.ts:133-389 | an event ends the connection if and only if it is one of those that must, and then one close is said, with the code of what ended it, unless it was the peer's close or a loss of the transport |
| GateControl.SilentAfterwards | libs/js/packages/core/src/conn-core.ts:140-160 | once it is over nothing more is said if and only if no HELLO of another version comes before any of ours on an open control channel |
| GateControl.LateVersionAnswered | libs/js/packages/core/src/conn-core.ts:154-160 | a run in which such a HELLO is answered after the transport was lost |
| Gate.TornDownOnce | libs/js/packages/core/src/conn-core.ts:371-389 | in every run teardown happens at most once, leaves no accept waiting and fails all credit waits |
| Gate.TeardownSettlesAll | libs/js/packages/core/src/conn-core.ts:371-389 | the step that tears down refuses every waiting accept and destroys every registered stream |
| Gate.OutcomesAreFinal | libs/js/packages/core/src/conn-core.ts:279-298 | how an accept ended never changes |
| Gate.SlotsAreBounded | libs/js/packages/core/src/conn-core.ts:218-228 | streams opened less streams retired never exceed the announced window |
| Gate.AdmittedExactly | libs/js/packages/core/src/conn-core.ts:218-228 | a channel is let in if and only if fewer streams than the window have yet to retire |
| Gate.QueueFits | libs/js/packages/core/src/conn-core.ts:218-248 | streams waiting to be accepted fit the window but for those that retired unaccepted |
| Gate.QueueExceedsExactly | libs/js/packages/core/src/conn-core.ts:218-248 | a queue within the window leaves it at a step if and only if a channel arrives, the queue is full and more streams retired than were accepted |
| Gate.QueueStaysInWindow | libs/js/packages/core/src/conn-core.ts:218-248 | a whole run keeps the queue within the window if and only if no such channel arrives in it |
| Gate.QueueOutgrows | libs/js/packages/core/src/conn-core.ts:218-248 | a run in which two streams wait on a window of one |
| Gate.LateChannel | libs/js/packages/core/src/conn-core.ts:218-228 | after teardown a channel is registered and queued if and only if a slot is free |
| Gate.NeverDestroyed | libs/js/packages/core/src/conn-core.ts:371-389 | such a channel's stream is destroyed in no later run; it stays registered until it retires |
| Gate.LateChannelHappens | libs/js/packages/core/src/conn-core.ts:367-369 | a run ends closed with a slot free |
| Gate.ConnCore.constructor | libs/js/packages/core/src/conn-core.ts:95-125 | a new connection is the initial state |
| Gate.ConnCore.OnControlOpen | libs/js/packages/core/src/conn-core.ts:133-138 | HELLO is sent once and may establish |
| Gate.ConnCore.OnControlMessage | libs/js/packages/core/src/conn-core.ts:140-188 | a message of any bytes has the effect of its decoding, and a bad one ends the connection |
| Gate.ConnCore.SurfaceStaged | libs/js/packages/core/src/conn-core.ts:197-200 | the loop surfaces everything staged |
| Gate.ConnCore.HandleIncomingChannel | libs/js/packages/core/src/conn-core.ts:218-228 | a channel takes a slot at once, then is surfaced or staged |
| Gate.ConnCore.AcceptStream | libs/js/packages/core/src/conn-core.ts:279-298 | takes the oldest waiting stream, or is refused when closed, or waits |
| Gate.ConnCore.AbortAccept | libs/js/packages/core/src/conn-core.ts:290-294 | exactly the aborted accept leaves the line |
| Gate.ConnCore.RefuseWaiting | libs/js/packages/core/src/conn-core.ts:382-384 | the loop refuses every waiting accept |
| Gate.ConnCore.CloseConnection | libs/js/packages/core/src/conn-core.ts:346-359 | says the code once and tears down |
| Gate.ConnCore.OnReservedLost | libs/js/packages/core/src/conn-core.ts:209-213 | fatal unless already tearing down |
| Gate.ConnCore.OnTransportGone | libs/js/packages/core/src/conn-core.ts:363-369 | tears down without a message |
| Gate.ConnCore.OnStreamRetired | libs/js/packages/core/src/conn-core.ts:230-242 | a retired peer stream leaves the registry and returns its slot |
| WriteLoop.Write | libs/go/stream.go:302-366 | whatever others do meanwhile, the frames are 1 to 16383 bytes and carry a prefix of the buffer, the count returned is what was committed on every way out, nothing stays reserved, only want of credit keeps the call waiting, and a call that fails does so with the status found when the last frame was due |
| WriteLoop.TurnsAreWhole | libs/go/stream.go:302-366 | each turn takes a full frame, the rest of the buffer, or the last of a window; one that waits finds a window used up, one refused a failure |
| WriteLoop.OthersKeep | libs/go/flow.go:143-186 | no step of others moves this stream's sent or reserved bytes |

## Left out

- QUIC adapters, listeners, UDP and peer-connection setup, certificates, addresses: thin wrappers over other libraries.
- Datagrams and the error-code table: would add only easy members; codes are kept as raw numbers and error texts are not compared.
- Time: the HELLO timeout is one of the local fatal conditions; the flush delay, the periodic re-checks and `bufferedAmount` only delay steps that may come at any time anyway.
- Opening of a data channel: a scheduling condition of the writer and of `open_stream`.
- Cancelling a future in mid-call, a handle dropped in the middle of one included.
- Graceful close and transport failure between two endpoints: `Systems` has endpoints that stay connected; what a close does is in `Gate`.
- Destroying streams at teardown: `Gate` records which streams are destroyed, not their last accounting.
- Staging in Go and Rust, which test and stage in separate critical sections: `Gate` follows the single-threaded form.
- The Go and JavaScript stream objects, except where `WriteLoop` and `CancelRace` follow them; a concurrent Go `Write` and `CloseWrite` is not modelled.
- Lifecycle frames the writer can no longer send stay in the modelled queue; the original drops the queue with the task.
- Fairness: the delivery and retirement theorems bound runs and say how they end, not that a scheduler takes an enabled step.
- Locks and wakers themselves: a step is a lock section, a waker is an entry in the set of waiters.
- WriteLoop.OthersKeep: one writer per stream; two calls writing the same stream at once are not modelled.
- StreamEngine.WebrtcStream.CloseWrite: with the queue full the call stays in progress; `Close` shows it continued once the writer has made room.
