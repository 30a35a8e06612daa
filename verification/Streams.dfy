/** One end of a stream, in steps as large as its lock sections.

    Three activities share the state: the channel's callbacks (`Handler`), the application
    (`App`) and the writer task (`Writer`). What each has in hand between two lock sections is
    part of the state, so any other step may come in between. `log` is every frame handed to
    the transport, `rx.log` every frame taken from it. */
module Streams {
  import opened Basics
  import opened Wire
  import opened Trace
  import opened Flow

  /** Slots of the ordered DATA/FIN queue. */
  const QUEUE_CAPACITY := 32

  datatype Item = Item(frame: Frame, reserved: nat)

  /** `Noting`: a terminal frame was handed to the transport and is yet to be noted. */
  datatype Writer = Ready | Holding(item: Item) | Noting | Stopped

  /** A callback between its lock sections: a counted payload not yet buffered, discarded bytes
      not yet returned as credit (then, perhaps, a retirement check), or a STOP_SENDING of which
      only the flags are set. */
  datatype Handler = Idle | Buffering(payload: seq<byte>) | Discarding(n: nat, retire: bool) | Stopping

  /** An application call between its lock sections. `stop` is the STOP_SENDING still to send.
      `Gone`: the handle was dropped, and with it the senders of the ordered queue. */
  datatype App =
    | Quiet
    | Consuming(n: nat, stop: Option<nat>)
    | Cancelling(n: nat, stop: Option<nat>)
    | Finishing
    | ShuttingDown
    | Checked(buf: seq<byte>)
    | Admitted(buf: seq<byte>)
    | Gone

  /** How far retirement has come: the hook fires on the way from Dropped to Reported. */
  datatype Phase = Live | Fired | Dropped | Reported

  datatype Rx = Rx(
    inbuf: seq<seq<byte>>, fin: bool, reset: Option<nat>, cancel: bool,
    handler: Handler, log: seq<Frame>, read: seq<byte>)

  /** `resetDue`: the RESET that the STOP_SENDING handler has chosen and not queued yet. */
  datatype Tx = Tx(
    stop: Option<nat>, terminal: Ending, resetDue: Option<nat>, sent: bool, drop: bool, grant: nat,
    dataQ: seq<Item>, lifeQ: seq<Frame>, writer: Writer,
    log: seq<Frame>, accepted: seq<byte>)

  /** `due`: a retirement check is owed. `closeDue`: the closing task is spawned.
      `closeSent`: the channel close was called. */
  datatype Life = Life(closed: bool, due: bool, closeDue: bool, closeSent: bool, phase: Phase)

  datatype Stream = Stream(inbound: bool, credit: Option<StreamCredit>, rx: Rx, tx: Tx, life: Life, app: App)
  {
    /** The peer's terminal frame was seen. */
    predicate PeerEnded() { rx.fin || rx.reset.Some? }

    predicate WireComplete() { tx.sent && PeerEnded() }

    predicate Drained() { rx.inbuf == [] }

    predicate CanSend() { !life.closed && !life.closeSent }

    function WithAdvert(adv: Option<nat>): Stream {
      if adv.Some? then this.(tx := tx.(lifeQ := tx.lifeQ + [MaxStreamData(adv.value)])) else this
    }

    function WithStop(stop: Option<nat>): Stream {
      if stop.Some? then this.(tx := tx.(lifeQ := tx.lifeQ + [StopSending(stop.value)])) else this
    }

    function Due(): Stream { this.(life := life.(due := true)) }

    function Taken(f: Frame): Stream { this.(rx := rx.(log := rx.log + [f])) }
  }

  function NewStream(lim: Limits, inbound: bool): Stream {
    Stream(inbound, Some(NewCredit(lim)),
           Rx([], false, None, false, Idle, [], []),
           Tx(None, NotEnded, None, false, false, 0, [], [], Ready, [], []),
           Life(false, false, false, false, Live), Quiet)
  }

  datatype Out = Next(g: Ledger, s: Stream, ctl: seq<Control>) | Violation(why: string)

  function ConnAdvert(limit: Option<nat>): seq<Control> {
    if limit.Some? then [MaxData(limit.value)] else []
  }

  // ---- callbacks of the channel ----

  function RecvData(g: Ledger, s: Stream, payload: seq<byte>): Out {
    if s.PeerEnded() then Violation("DATA after terminal frame")
    else
      match DataReceived(g, s.credit, |payload|)
      case Err(why) => Violation(why)
      case Ok(a) =>
        var t := s.Taken(Data(payload));
        Next(a.g, t.(credit := a.c, rx := t.rx.(handler := Buffering(payload))), [])
  }

  function RecvFin(g: Ledger, s: Stream): Out {
    if s.PeerEnded() then Violation("second terminal frame")
    else
      var t := s.Taken(Fin);
      Next(g, t.(rx := t.rx.(fin := true)).Due(), [])
  }

  /** The unread bytes are discarded. */
  function RecvReset(g: Ledger, s: Stream, code: nat): Out {
    if s.PeerEnded() then Violation("second terminal frame")
    else
      var n := |Flatten(s.rx.inbuf)|;
      var t := s.Taken(Reset(code));
      var u := t.(rx := t.rx.(reset := Some(code), inbuf := []));
      Next(g, if n > 0 then u.(rx := u.rx.(handler := Discarding(n, true))) else u.Due(), [])
  }

  /** Answered with RESET only while no local terminal has been chosen: the choice is made here, the
      rest of the handler comes later. */
  function RecvStop(g: Ledger, s: Stream, code: nat): Out {
    var t := s.Taken(StopSending(code));
    if s.tx.stop.Some? then Next(g, t, [])
    else
      var u := t.(rx := t.rx.(handler := Stopping), tx := t.tx.(stop := Some(code)));
      Next(g,
           if s.tx.terminal == NotEnded
           then u.(tx := u.tx.(terminal := ByReset, drop := true, resetDue := Some(code)))
           else u,
           [])
  }

  /** Reservations fail, and the RESET that was chosen is queued. */
  function StopDone(g: Ledger, s: Stream): Out {
    var t := s.(credit := FailSend(s.credit), rx := s.rx.(handler := Idle));
    match s.tx.resetDue
    case None => Next(g, t, [])
    case Some(code) => Next(g, t.(tx := t.tx.(resetDue := None, lifeQ := t.tx.lifeQ + [Reset(code)])).Due(), [])
  }

  function RecvFrame(g: Ledger, s: Stream, f: Frame): Out {
    match f
    case Data(p) => RecvData(g, s, p)
    case Fin => RecvFin(g, s)
    case Reset(c) => RecvReset(g, s, c)
    case StopSending(c) => RecvStop(g, s, c)
    case MaxStreamData(v) =>
      Next(g, s.Taken(f).(credit := RaiseStreamMax(s.credit, v)), [])
  }

  /** The counted payload is buffered, or discarded if the read was cancelled meanwhile. */
  function Buffer(g: Ledger, s: Stream, payload: seq<byte>): Out {
    Next(g,
         s.(rx := if s.rx.cancel then s.rx.(handler := Discarding(|payload|, false))
                  else s.rx.(inbuf := s.rx.inbuf + [payload], handler := Idle)),
         [])
  }

  function Discard(lim: Limits, g: Ledger, s: Stream, n: nat, retire: bool): Out {
    var u := OnConsumed(lim, g, s.credit, n);
    var t := s.(credit := u.c, rx := s.rx.(handler := Idle)).WithAdvert(u.streamAdvert);
    Next(u.g, if retire then t.Due() else t, ConnAdvert(u.connAdvert))
  }

  function ChannelClosed(g: Ledger, s: Stream): Out {
    if !s.WireComplete() then Violation("data channel closed mid-stream")
    else Next(g, s.(credit := FailSend(s.credit), life := s.life.(closed := true)).Due(), [])
  }

  // ---- reading ----

  /** `ResetBy`: the peer's RESET, with its code. */
  datatype ReadResult = Chunk(data: seq<byte>) | Eof | ResetBy(code: nat) | Failed | Blocked

  /** What a read with room for `room` bytes returns. */
  function ReadOutcome(s: Stream, room: nat): ReadResult {
    if s.rx.inbuf != [] then Chunk(s.rx.inbuf[0][..Min(|s.rx.inbuf[0]|, room)])
    else if s.rx.cancel then Failed
    else if s.rx.reset.Some? then ResetBy(s.rx.reset.value)
    else if s.rx.fin then Eof
    else if s.life.closed then Failed
    else Blocked
  }

  /** The first chunk, as far as there is room, goes to the application. */
  function AfterRead(r: Rx, room: nat): Rx
    requires r.inbuf != []
  {
    var n := Min(|r.inbuf[0]|, room);
    r.(read := r.read + r.inbuf[0][..n],
       inbuf := if n == |r.inbuf[0]| then r.inbuf[1..] else [r.inbuf[0][n..]] + r.inbuf[1..])
  }

  function Read(g: Ledger, s: Stream, room: nat): Out
    requires s.rx.inbuf != []
  {
    Next(g, s.(rx := AfterRead(s.rx, room), app := Consuming(Min(|s.rx.inbuf[0]|, room), None)), [])
  }

  function Consume(lim: Limits, g: Ledger, s: Stream, n: nat, stop: Option<nat>): Out {
    var u := OnConsumed(lim, g, s.credit, n);
    Next(u.g, s.(credit := u.c, app := Quiet).WithAdvert(u.streamAdvert).WithStop(stop).Due(), ConnAdvert(u.connAdvert))
  }

  function CancelRead(g: Ledger, s: Stream, code: nat): Out {
    Next(g,
         s.(rx := s.rx.(cancel := true, inbuf := []),
            app := Cancelling(|Flatten(s.rx.inbuf)|, if s.PeerEnded() then None else Some(code))),
         [])
  }

  function CancelMark(g: Ledger, s: Stream, n: nat, stop: Option<nat>): Out {
    var t := s.(credit := MarkCancelled(s.credit));
    Next(g, if n > 0 then t.(app := Consuming(n, stop)) else t.(app := Quiet).WithStop(stop).Due(), [])
  }

  // ---- writing ----

  predicate QueueOpen(s: Stream) { |s.tx.dataQ| < QUEUE_CAPACITY }

  function Take(buf: seq<byte>, n: nat): seq<byte> { buf[..Min(|buf|, n)] }

  function WithFin(s: Stream): Stream {
    s.(tx := s.tx.(dataQ := s.tx.dataQ + [Item(Fin, 0)]), app := Quiet).Due()
  }

  function CloseWrite(g: Ledger, s: Stream): Out {
    Next(g, s.(credit := FailSend(s.credit), tx := s.tx.(terminal := ByFin), app := Finishing), [])
  }

  function QueueFin(g: Ledger, s: Stream): Out {
    Next(g, if s.tx.writer.Stopped? then s.(app := Quiet) else WithFin(s), [])
  }

  function Shutdown(g: Ledger, s: Stream): Out {
    Next(g, s.(tx := s.tx.(terminal := ByFin), app := ShuttingDown), [])
  }

  /** With the queue full the choice of FIN is undone. */
  function ShutdownPoll(g: Ledger, s: Stream): Out {
    if s.tx.writer.Stopped? then Next(g, s.(app := Quiet), [])
    else if QueueOpen(s) then Next(g, WithFin(s).(credit := FailSend(s.credit)), [])
    else Next(g, s.(tx := s.tx.(terminal := NotEnded), app := Quiet), [])
  }

  function ResetWrite(g: Ledger, s: Stream, code: nat): Out {
    Next(g,
         s.(credit := FailSend(s.credit),
            tx := s.tx.(terminal := ByReset, drop := true, lifeQ := s.tx.lifeQ + [Reset(code)])).Due(),
         [])
  }

  function WriteCheck(g: Ledger, s: Stream, buf: seq<byte>): Out {
    Next(g, s.(app := Checked(buf)), [])
  }

  /** Credit before the frame may enter the queue; a grant still held is used first. */
  function WriteReserve(g: Ledger, s: Stream, buf: seq<byte>): Out {
    if s.tx.grant > 0 then Next(g, s.(app := Admitted(buf)), [])
    else
      match PollReserve(g, s.credit, Min(|buf|, MAX_FRAME_PAYLOAD))
      case (a, Granted(n)) => Next(a.g, s.(credit := a.c, tx := s.tx.(grant := n), app := Admitted(buf)), [])
      case _ => Next(g, s.(app := Quiet), [])
  }

  function ReleaseGrant(g: Ledger, s: Stream): Out {
    var a := Release(g, s.credit, s.tx.grant);
    Next(a.g, s.(credit := a.c, tx := s.tx.(grant := 0), app := Quiet), [])
  }

  /** The handle goes, and a grant it still held goes back. */
  function DropHandle(g: Ledger, s: Stream): Out {
    var a := Release(g, s.credit, s.tx.grant);
    Next(a.g, s.(credit := a.c, tx := s.tx.(grant := 0), app := Gone), [])
  }

  function WriteQueue(g: Ledger, s: Stream, buf: seq<byte>): Out {
    if s.tx.writer.Stopped? then ReleaseGrant(g, s)
    else if QueueOpen(s) then
      var p := Take(buf, s.tx.grant);
      Next(g,
           s.(tx := s.tx.(dataQ := s.tx.dataQ + [Item(Data(p), s.tx.grant)], accepted := s.tx.accepted + p, grant := 0),
              app := Quiet),
           [])
    else Next(g, s.(app := Quiet), [])
  }

  // ---- the writer task ----

  /** One frame to the transport. A terminal frame is noted in a lock section of its own. */
  function Sent(s: Stream, f: Frame): Stream {
    s.(tx := s.tx.(log := s.tx.log + [f], writer := if EndingOf(f) != NotEnded then Noting else Ready))
  }

  /** The write half is now terminal on the wire. */
  function Note(g: Ledger, s: Stream): Out {
    Next(g, s.(tx := s.tx.(sent := true, writer := Ready)).Due(), [])
  }

  function SendLife(g: Ledger, s: Stream): Out
    requires s.tx.lifeQ != []
  {
    Next(g, Sent(s.(tx := s.tx.(lifeQ := s.tx.lifeQ[1..])), s.tx.lifeQ[0]), [])
  }

  function PopData(g: Ledger, s: Stream): Out
    requires s.tx.dataQ != []
  {
    var it := s.tx.dataQ[0];
    var t := s.(tx := s.tx.(dataQ := s.tx.dataQ[1..]));
    if s.tx.drop && it.frame.Data? then
      var a := Release(g, s.credit, it.reserved);
      Next(a.g, t.(credit := a.c), [])
    else Next(g, t.(tx := t.tx.(writer := Holding(it))), [])
  }

  function SendHeld(g: Ledger, s: Stream, it: Item): Out {
    var a := Commit(g, s.credit, it.reserved);
    Next(a.g, Sent(s.(credit := a.c), it.frame), [])
  }

  function WriterStop(g: Ledger, s: Stream): Out {
    var t := s.(tx := s.tx.(writer := Stopped));
    match s.tx.writer
    case Holding(it) =>
      var a := Release(g, s.credit, it.reserved);
      Next(a.g, t.(credit := a.c), [])
    case _ => Next(g, t, [])
  }

  /** Without senders the ordered queue ends when it is empty, and the task with it. What is then in
      the lifecycle queue, or comes to it, is never sent: the task may have looked there first. */
  function WriterEnd(g: Ledger, s: Stream): Out {
    Next(g, s.(tx := s.tx.(writer := Stopped)), [])
  }

  // ---- the retirement ladder ----

  function MaybeRetire(g: Ledger, s: Stream): Out {
    var l := s.life.(due := false);
    Next(g,
         s.(life := if !s.WireComplete() || !s.Drained() then l
                    else if !s.life.closed then l.(closeDue := true)
                    else if s.life.phase == Live then l.(phase := Fired)
                    else l),
         [])
  }

  function CloseChannel(g: Ledger, s: Stream): Out {
    Next(g, s.(life := s.life.(closeDue := false, closeSent := true)), [])
  }

  function DropCredit(g: Ledger, s: Stream): Out {
    Next(DropStream(g, s.credit), s.(credit := None, life := s.life.(phase := Dropped)), [])
  }

  /** The retire hook: only a peer-initiated stream returns its slot. */
  function Report(lim: Limits, g: Ledger, s: Stream): Out {
    var t := s.(life := s.life.(phase := Reported));
    if s.inbound then
      var g' := PeerStreamRetired(lim, g);
      Next(g', t, [MaxStreams(Limit(g'.advertisedMaxStreams))])
    else Next(g, t, [])
  }

  // ---- all steps ----

  datatype Act =
    | ARecv(f: Frame)
    | ABuffer
    | ADiscard
    | AStopDone
    | AClosed
    | ARead(room: nat)
    | AConsume
    | ACancelRead(code: nat)
    | ACancelMark
    | ACloseWrite
    | AQueueFin
    | AShutdown
    | AShutdownPoll
    | AResetWrite(code: nat)
    | AWriteCheck(buf: seq<byte>)
    | AWriteReserve
    | AWriteQueue
    | ADropHandle
    | ASendLife
    | APopData
    | ASendHeld
    | ANote
    | AWriterStop
    | AWriterEnd
    | AMaybeRetire
    | ACloseChannel
    | ADropCredit
    | AReport

  /** Steps that need the application to hold the stream. */
  predicate ByApp(a: Act) {
    a.ARead? || a.AConsume? || a.ACancelRead? || a.ACancelMark? || a.ACloseWrite? || a.AQueueFin? || a.AShutdown? ||
    a.AShutdownPoll? || a.AResetWrite? || a.AWriteCheck? || a.AWriteReserve? || a.AWriteQueue? || a.ADropHandle?
  }

  predicate Enabled(s: Stream, a: Act) {
    match a
    case ARecv(_) => s.rx.handler == Idle && !s.life.closed
    case ABuffer => s.rx.handler.Buffering?
    case ADiscard => s.rx.handler.Discarding?
    case AStopDone => s.rx.handler.Stopping?
    case AClosed => s.rx.handler == Idle && !s.life.closed
    case ARead(_) => s.app == Quiet && s.rx.inbuf != []
    case AConsume => s.app.Consuming?
    case ACancelRead(_) => s.app == Quiet && !s.rx.cancel
    case ACancelMark => s.app.Cancelling?
    case ACloseWrite => s.app == Quiet && s.tx.terminal == NotEnded
    case AQueueFin => s.app == Finishing && (s.tx.writer.Stopped? || QueueOpen(s))
    case AShutdown => s.app == Quiet && s.tx.terminal == NotEnded
    case AShutdownPoll => s.app == ShuttingDown
    case AResetWrite(_) => s.app == Quiet && s.tx.terminal == NotEnded
    case AWriteCheck(buf) =>
      s.app == Quiet && s.tx.stop.None? && s.tx.terminal == NotEnded && !s.life.closed && s.tx.grant <= |buf|
    case AWriteReserve => s.app.Checked?
    case AWriteQueue => s.app.Admitted?
    case ADropHandle => s.app == Quiet
    case ASendLife => s.tx.writer == Ready && s.tx.lifeQ != [] && s.CanSend()
    case APopData => s.tx.writer == Ready && s.tx.lifeQ == [] && s.tx.dataQ != []
    case ASendHeld => s.tx.writer.Holding? && s.CanSend()
    case ANote => s.tx.writer.Noting?
    case AWriterStop => !s.CanSend() && (s.tx.writer.Holding? || (s.tx.writer == Ready && s.tx.lifeQ != []))
    case AWriterEnd => s.tx.writer == Ready && s.tx.dataQ == [] && s.app == Gone
    case AMaybeRetire => s.life.due
    case ACloseChannel => s.life.closeDue
    case ADropCredit => s.life.phase == Fired
    case AReport => s.life.phase == Dropped
  }

  /** What the decoder and the application's types guarantee about a step's input. */
  predicate InputOk(a: Act) {
    match a
    case ARecv(f) => FrameOk(f)
    case ACancelRead(c) => c < U32_LIMIT
    case AResetWrite(c) => c < U32_LIMIT
    case _ => true
  }

  function Do(lim: Limits, g: Ledger, s: Stream, a: Act): Out
    requires Enabled(s, a)
  {
    match a
    case ARecv(f) => RecvFrame(g, s, f)
    case ABuffer => Buffer(g, s, s.rx.handler.payload)
    case AStopDone => StopDone(g, s)
    case ADiscard => Discard(lim, g, s, s.rx.handler.n, s.rx.handler.retire)
    case AClosed => ChannelClosed(g, s)
    case ARead(room) => Read(g, s, room)
    case AConsume => Consume(lim, g, s, s.app.n, s.app.stop)
    case ACancelRead(c) => CancelRead(g, s, c)
    case ACancelMark => CancelMark(g, s, s.app.n, s.app.stop)
    case ACloseWrite => CloseWrite(g, s)
    case AQueueFin => QueueFin(g, s)
    case AShutdown => Shutdown(g, s)
    case AShutdownPoll => ShutdownPoll(g, s)
    case AResetWrite(c) => ResetWrite(g, s, c)
    case AWriteCheck(buf) => WriteCheck(g, s, buf)
    case AWriteReserve => WriteReserve(g, s, s.app.buf)
    case AWriteQueue => WriteQueue(g, s, s.app.buf)
    case ADropHandle => DropHandle(g, s)
    case ASendLife => SendLife(g, s)
    case APopData => PopData(g, s)
    case ASendHeld => SendHeld(g, s, s.tx.writer.item)
    case ANote => Note(g, s)
    case AWriterStop => WriterStop(g, s)
    case AWriterEnd => WriterEnd(g, s)
    case AMaybeRetire => MaybeRetire(g, s)
    case ACloseChannel => CloseChannel(g, s)
    case ADropCredit => DropCredit(g, s)
    case AReport => Report(lim, g, s)
  }
}
