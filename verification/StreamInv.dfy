/** What every step of one stream end keeps, whatever the peer sends. */
module StreamInv {
  import opened Basics
  import opened Wire
  import opened Trace
  import opened Flow
  import opened Streams

  // ---- what is queued and in hand ----

  function QueuedBytes(q: seq<Item>): seq<byte> {
    if q == [] then [] else PayloadOf(q[0].frame) + QueuedBytes(q[1..])
  }

  function QueuedGrants(q: seq<Item>): nat {
    if q == [] then 0 else q[0].reserved + QueuedGrants(q[1..])
  }

  lemma {:induction false} QueuePush(q: seq<Item>, it: Item)
    ensures QueuedBytes(q + [it]) == QueuedBytes(q) + PayloadOf(it.frame)
    ensures QueuedGrants(q + [it]) == QueuedGrants(q) + it.reserved
  {
    if q == [] {
      assert q + [it] == [it] && [it][1..] == [] && QueuedBytes([it][1..]) == [] && QueuedGrants([it][1..]) == 0;
    } else {
      QueuePush(q[1..], it);
      assert (q + [it])[1..] == q[1..] + [it];
      Associative(PayloadOf(q[0].frame), QueuedBytes(q[1..]), PayloadOf(it.frame));
      hide PayloadOf;
    }
  }

  lemma QueuePop(q: seq<Item>)
    requires q != []
    ensures QueuedBytes(q) == PayloadOf(q[0].frame) + QueuedBytes(q[1..])
    ensures QueuedGrants(q) == q[0].reserved + QueuedGrants(q[1..])
  {
  }

  lemma Empties()
    ensures QueuedBytes([]) == [] && QueuedGrants([]) == 0 && Flatten([]) == [] && Trace.Bytes([]) == []
  {
  }

  function HeldBytes(w: Writer): seq<byte> {
    if w.Holding? then PayloadOf(w.item.frame) else []
  }

  function HeldGrant(w: Writer): nat {
    if w.Holding? then w.item.reserved else 0
  }

  function BufferingBytes(h: Handler): seq<byte> {
    if h.Buffering? then h.payload else []
  }

  function HandlerHand(h: Handler): nat {
    match h
    case Idle => 0
    case Buffering(p) => |p|
    case Discarding(n, _) => n
    case Stopping => 0
  }

  function AppHand(a: App): nat {
    if a.Consuming? || a.Cancelling? then a.n else 0
  }

  /** Received and not yet returned as credit: buffered, or in hand between two lock sections. */
  function Unread(s: Stream): nat {
    |Flatten(s.rx.inbuf)| + HandlerHand(s.rx.handler) + AppHand(s.app)
  }

  function Reserved(s: Stream): int {
    if s.credit.Some? then s.credit.value.send.reserved else 0
  }

  // ---- receiving ----

  ghost predicate RxInv(r: Rx) {
    && Legal(r.log) && (forall f :: f in r.log ==> FrameOk(f))
    && r.fin == (End(r.log) == ByFin) && r.reset.Some? == (End(r.log) == ByReset)
    && (forall c :: c in r.inbuf ==> c != [])
    && (r.cancel || r.reset.Some? ==> r.inbuf == [])
    && r.read <= Bytes(r.log)
    && (!r.cancel && r.reset.None? ==> r.read + Flatten(r.inbuf) + BufferingBytes(r.handler) == Bytes(r.log))
    && (r.handler.Buffering? ==> End(r.log) == NotEnded && r.handler.payload != [])
  }

  // ---- sending ----

  ghost predicate ItemOk(it: Item) {
    (it.frame.Data? && it.reserved == |it.frame.payload| && FrameOk(it.frame)) || it == Item(Fin, 0)
  }

  ghost predicate AllData(q: seq<Item>) { forall i :: 0 <= i < |q| ==> q[i].frame.Data? }

  ghost predicate LastIsFin(q: seq<Item>) {
    q != [] && q[|q| - 1].frame.Fin? && AllData(q[..|q| - 1])
  }

  predicate HoldsFin(w: Writer) { w.Holding? && w.item.frame.Fin? }

  ghost predicate LifecycleOnly(q: seq<Frame>) {
    Legal(q) && End(q) != ByFin && (forall f :: f in q ==> !f.Data? && FrameOk(f))
  }

  predicate AddingFin(a: App) { a == Finishing || a == ShuttingDown }

  /** The local terminal frame is on the wire, noted or about to be. */
  predicate OnWire(t: Tx) { t.sent || t.writer.Noting? }

  /** Where the local terminal frame is: nowhere, or in exactly one place. */
  ghost predicate TerminalPlace(t: Tx, a: App) {
    match t.terminal
    case NotEnded =>
      !OnWire(t) && AllData(t.dataQ) && !HoldsFin(t.writer) && End(t.lifeQ) == NotEnded && !AddingFin(a)
    case ByFin =>
      && End(t.lifeQ) == NotEnded && !a.Checked? && !a.Admitted?
      && if AddingFin(a) then !OnWire(t) && AllData(t.dataQ) && !HoldsFin(t.writer)
         else || (!OnWire(t) && LastIsFin(t.dataQ) && !HoldsFin(t.writer))
              || (!OnWire(t) && t.dataQ == [] && HoldsFin(t.writer))
              || (OnWire(t) && End(t.log) == ByFin && t.dataQ == [])
    case ByReset =>
      && AllData(t.dataQ) && !HoldsFin(t.writer) && !AddingFin(a)
      && if OnWire(t) then t.resetDue.None? && End(t.log) == ByReset && End(t.lifeQ) == NotEnded
         else if t.resetDue.Some? then End(t.lifeQ) == NotEnded
         else End(t.lifeQ) == ByReset
  }

  ghost predicate TxInv(t: Tx, a: App) {
    && Legal(t.log) && (forall f :: f in t.log ==> FrameOk(f))
    && OnWire(t) == (End(t.log) != NotEnded) && (t.sent ==> t.writer == Ready || t.writer.Stopped?)
    && t.drop == (t.terminal == ByReset)
    && LifecycleOnly(t.lifeQ)
    && (forall it :: it in t.dataQ ==> ItemOk(it)) && (t.writer.Holding? ==> ItemOk(t.writer.item))
    && TerminalPlace(t, a)
    && (if t.drop then Bytes(t.log) + HeldBytes(t.writer) <= t.accepted
        else Bytes(t.log) + HeldBytes(t.writer) + QueuedBytes(t.dataQ) == t.accepted)
    && (t.resetDue.Some? ==> t.terminal == ByReset && t.resetDue.value < U32_LIMIT)
    && t.grant <= MAX_FRAME_PAYLOAD
    && ((a.Consuming? || a.Cancelling?) && a.stop.Some? ==> a.stop.value < U32_LIMIT)
    && (a.Checked? ==> t.grant <= |a.buf|) && (a.Admitted? ==> 1 <= t.grant <= |a.buf|)
  }

  // ---- credit ----

  ghost predicate CreditInv(lim: Limits, peerInit: int, s: Stream) {
    && s.credit.None? == (s.life.phase == Dropped || s.life.phase == Reported)
    && |Bytes(s.tx.log)| <= Max(peerInit, Announced(s.rx.log))
    && (s.credit.Some? ==> SendInv(peerInit, s) && RecvInv(lim, s))
  }

  /** The reservation is what the writer side holds: grant in hand, queued, and with the writer. */
  ghost predicate SendInv(peerInit: int, s: Stream)
    requires s.credit.Some?
  {
    var c := s.credit.value.send;
    && SendOk(peerInit, c)
    && c.sent == |Bytes(s.tx.log)|
    && c.reserved == s.tx.grant + QueuedGrants(s.tx.dataQ) + HeldGrant(s.tx.writer)
    && c.explicitMax == Announced(s.rx.log)
  }

  ghost predicate RecvInv(lim: Limits, s: Stream)
    requires s.credit.Some?
  {
    var c := s.credit.value.recv;
    && RecvOk(lim.maxStreamData, c)
    && c.received == |Bytes(s.rx.log)|
    && c.consumed == c.received - Unread(s)
    && c.localMax == Max(lim.maxStreamData, Max(Announced(s.tx.log), Announced(s.tx.lifeQ)))
    && c.cancelled == (s.rx.cancel && !s.app.Cancelling?)
    && (s.app.Cancelling? ==> s.rx.cancel)
  }

  // ---- the ladder ----

  /** Some step that is already owed will check for retirement. */
  predicate CheckOwed(s: Stream) {
    s.life.due || (s.rx.handler.Discarding? && s.rx.handler.retire) || s.app.Consuming? || s.app.Cancelling?
  }

  ghost predicate LifeInv(s: Stream) {
    && (s.life.closeDue || s.life.closeSent || s.life.closed ==> s.WireComplete())
    && (s.life.closeDue || s.life.closeSent ==> s.Drained())
    && (s.life.phase != Live ==> s.life.closed && s.Drained())
    && (s.tx.writer.Stopped? ==> !s.CanSend() || (s.app == Gone && s.tx.dataQ == []))
    && (s.tx.resetDue.Some? ==> s.rx.handler.Stopping?)
    && (s.WireComplete() && s.Drained() && !CheckOwed(s) ==>
          if s.life.closed then s.life.phase != Live else s.life.closeDue || s.life.closeSent)
  }

  ghost predicate Inv(lim: Limits, peerInit: int, s: Stream) {
    RxInv(s.rx) && TxInv(s.tx, s.app) && CreditInv(lim, peerInit, s) && LifeInv(s)
  }

  // ---- what a step does to the connection's counters ----

  /** The ledger moves by exactly what the stream moves. */
  ghost predicate Moves(g: Ledger, s: Stream, g': Ledger, s': Stream) {
    && g'.failed == g.failed
    && g'.peerInit == g.peerInit && g'.peerMaxData == g.peerMaxData && g'.peerMaxStreams == g.peerMaxStreams
    && g'.streamsOpened == g.streamsOpened && g'.streamsReserved == g.streamsReserved
    && g'.peerOpened == g.peerOpened && s'.inbound == s.inbound
    && g'.reserved - g.reserved == Reserved(s') - Reserved(s)
    && g'.sent - g.sent == |Bytes(s'.tx.log)| - |Bytes(s.tx.log)|
    && g'.received - g.received == |Bytes(s'.rx.log)| - |Bytes(s.rx.log)|
    && (g'.received - g'.consumed) - (g.received - g.consumed) == Unread(s') - Unread(s)
    && g'.peerRetired - g.peerRetired ==
       (if s.inbound && s.life.phase != Reported && s'.life.phase == Reported then 1 else 0)
    && (s.life.phase == Reported ==> s'.life.phase == Reported)
    && s.tx.log <= s'.tx.log && s.rx.log <= s'.rx.log
  }

  /** The stream's share of the ledger is there to be taken. */
  ghost predicate Covered(g: Ledger, s: Stream) {
    && 0 <= Reserved(s) <= g.reserved
    && Unread(s) <= g.received - g.consumed
    && (s.inbound && s.life.phase != Reported ==> g.peerRetired < g.peerOpened)
  }

  ghost predicate Pre(lim: Limits, g: Ledger, s: Stream) {
    LimitsOk(lim) && LedgerOk(lim, g) && Inv(lim, g.peerInit, s) && Covered(g, s)
  }

  ghost predicate Good(lim: Limits, g: Ledger, s: Stream, o: Out) {
    o.Next? ==> LedgerOk(lim, o.g) && Inv(lim, g.peerInit, o.s) && Moves(g, s, o.g, o.s)
  }
}
