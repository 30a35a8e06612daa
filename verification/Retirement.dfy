/** Once both applications have closed a stream, every run retires it at both ends, unless a writer
    ended before its terminal frame was handed over. */
module Retirement {
  import opened Basics
  import opened Wire
  import opened Trace
  import opened Flow
  import opened Streams
  import opened StreamInv
  import opened StreamSteps
  import opened StreamFacts
  import opened Endpoints
  import opened Systems

  /** The application has finished its write half and cancelled its read half. A shutdown still
      waiting for the queue does not count: it may be undone. */
  predicate Closed(s: Stream) {
    s.tx.terminal != NotEnded && s.rx.cancel && s.app != ShuttingDown
  }

  // ---- the measure ----

  function FrameWeight(f: Frame): nat { if f.Data? then 30 else 8 }

  function FramesWeight(q: seq<Frame>): nat {
    if q == [] then 0 else FrameWeight(q[0]) + FramesWeight(q[1..])
  }

  function AppWeight(a: App): nat {
    match a
    case Quiet => 2
    case Gone => 0
    case Consuming(_, _) => 36
    case Cancelling(_, _) => 40
    case Admitted(_) => 50
    case _ => 60
  }

  function HandlerWeight(h: Handler): nat {
    match h
    case Idle => 0
    case Buffering(_) => 26
    case Discarding(_, _) => 20
    case Stopping => 1
  }

  function WriterWeight(w: Writer): nat {
    match w
    case Ready => 1
    case Holding(_) => 35
    case Noting => 4
    case Stopped => 0
  }

  function LifeWeight(l: Life): nat {
    (if l.closed then 0 else 4) + (if l.due then 2 else 0) + (if l.closeDue then 1 else 0) + (3 - Rung(l.phase))
  }

  function RxWeight(r: Rx): nat {
    HandlerWeight(r.handler) + (if r.reset.None? then 20 else 0)
  }

  function TxWeight(t: Tx): nat {
    WriterWeight(t.writer) + 36 * |t.dataQ| + 12 * |t.lifeQ| + (if t.grant > 0 then 1 else 0)
    + (if t.terminal == NotEnded then 16 else 0) + (if t.resetDue.Some? then 14 else 0)
  }

  /** Work left at one end. */
  function EndWeight(s: Stream): nat {
    AppWeight(s.app) + RxWeight(s.rx) + TxWeight(s.tx) + LifeWeight(s.life)
  }

  /** Work left in both ends and between them. */
  function PairWeight(a: Stream, b: Stream): nat
    requires a.rx.log <= b.tx.log && b.rx.log <= a.tx.log
  {
    EndWeight(a) + EndWeight(b)
    + FramesWeight(b.tx.log[|a.rx.log|..]) + FramesWeight(a.tx.log[|b.rx.log|..])
  }

  lemma {:induction false} WeightAppend(q: seq<Frame>, f: Frame)
    ensures FramesWeight(q + [f]) == FramesWeight(q) + FrameWeight(f)
  {
    if q == [] {
      assert q + [f] == [f] && [f][1..] == [];
    } else {
      WeightAppend(q[1..], f);
      assert (q + [f])[1..] == q[1..] + [f];
    }
  }

  // ---- each step uses some of it up ----

  /** What a step adds to the wire. */
  predicate Sends(a: Act) { a.ASendLife? || a.ASendHeld? }

  function SentFrame(s: Stream, a: Act): Frame
    requires Enabled(s, a) && Sends(a)
  {
    if a.ASendLife? then s.tx.lifeQ[0] else s.tx.writer.item.frame
  }

  function Gained(s: Stream, a: Act): int
    requires Enabled(s, a)
  {
    (if Sends(a) then FrameWeight(SentFrame(s, a)) else 0) - (if a.ARecv? then FrameWeight(a.f) else 0)
  }

  ghost predicate Shrinks(lim: Limits, g: Ledger, s: Stream, a: Act)
    requires Enabled(s, a)
  {
    var o := Do(lim, g, s, a);
    o.Next? ==>
      && (Closed(s) ==> Closed(o.s))
      && EndWeight(o.s) + Gained(s, a) < EndWeight(s)
      && o.s.tx.log == if Sends(a) then s.tx.log + [SentFrame(s, a)] else s.tx.log
  }

  lemma RecvShrinks(lim: Limits, g: Ledger, s: Stream, f: Frame)
    requires Enabled(s, ARecv(f))
    ensures Shrinks(lim, g, s, ARecv(f))
  {
    hide *;
    match f
    case Data(_) => BytesShrink(lim, g, s, f);
    case Reset(_) => BytesShrink(lim, g, s, f);
    case StopSending(c) => StopShrinks(lim, g, s, c);
    case _ => OthersShrink(lim, g, s, f);
  }

  lemma StopShrinks(lim: Limits, g: Ledger, s: Stream, c: nat)
    requires Enabled(s, ARecv(StopSending(c)))
    ensures Shrinks(lim, g, s, ARecv(StopSending(c)))
  {
    StopWeight(g, s, c);
    hide EndWeight, AppWeight, WriterWeight, HandlerWeight, LifeWeight;
  }

  lemma StopWeight(g: Ledger, s: Stream, c: nat)
    requires s.rx.handler == Idle
    ensures EndWeight(RecvStop(g, s, c).s) <= EndWeight(s) + 1
  {
    hide AppWeight, WriterWeight, LifeWeight;
    var t := RecvStop(g, s, c).s;
    assert RxWeight(t.rx) <= RxWeight(s.rx) + 1;
    assert t.tx == s.tx.(stop := t.tx.stop, terminal := t.tx.terminal, drop := t.tx.drop, resetDue := t.tx.resetDue);
  }

  lemma OthersShrink(lim: Limits, g: Ledger, s: Stream, f: Frame)
    requires Enabled(s, ARecv(f)) && (f.Fin? || f.MaxStreamData?)
    ensures Shrinks(lim, g, s, ARecv(f))
  {
    hide RaiseStreamMax, Rung;
  }

  lemma BytesShrink(lim: Limits, g: Ledger, s: Stream, f: Frame)
    requires Enabled(s, ARecv(f)) && (f.Data? || f.Reset?)
    ensures Shrinks(lim, g, s, ARecv(f))
  {
    hide Flatten, DataReceived, FailSend, RaiseStreamMax;
  }

  lemma AppShrinks(lim: Limits, g: Ledger, s: Stream, a: Act)
    requires RxInv(s.rx) && Closed(s) && Enabled(s, a) && ByApp(a)
    ensures Shrinks(lim, g, s, a)
  {
    hide RxInv, Shrinks, Do, Closed;
    if a.AWriteReserve? || a.AWriteQueue? || a.ADropHandle? { WriterCallShrinks(lim, g, s, a); }
    else if a.AConsume? || a.ACancelMark? || a.AQueueFin? { ReaderCallShrinks(lim, g, s, a); }
    else { NoNewCall(s, a); }
  }

  /** A closed stream takes no new call that changes anything. */
  lemma NoNewCall(s: Stream, a: Act)
    requires RxInv(s.rx) && Closed(s) && ByApp(a)
    requires !a.AWriteReserve? && !a.AWriteQueue? && !a.ADropHandle? && !a.AConsume? && !a.ACancelMark? && !a.AQueueFin?
    ensures !Enabled(s, a)
  {
    hide Bytes, End, Legal, Flatten;
  }

  lemma ReaderCallShrinks(lim: Limits, g: Ledger, s: Stream, a: Act)
    requires Closed(s) && Enabled(s, a) && (a.AConsume? || a.ACancelMark? || a.AQueueFin?)
    ensures Shrinks(lim, g, s, a)
  {
    if a.AConsume? { hide *; ConsumeShrinks(lim, g, s); }
    else if a.ACancelMark? { hide *; MarkShrinks(lim, g, s); }
    else { hide RecvFrame, Rung; }
  }

  lemma MarkShrinks(lim: Limits, g: Ledger, s: Stream)
    requires Closed(s) && Enabled(s, ACancelMark)
    ensures Shrinks(lim, g, s, ACancelMark)
  {
    hide MarkCancelled, RecvFrame, Rung;
  }

  lemma ConsumeShrinks(lim: Limits, g: Ledger, s: Stream)
    requires Closed(s) && Enabled(s, AConsume)
    ensures Shrinks(lim, g, s, AConsume)
  {
    hide OnConsumed, RecvFrame, Rung, RxWeight, WriterWeight;
    var adv := OnConsumed(lim, g, s.credit, s.app.n).streamAdvert;
    AdvertWeighs(s, adv);
    StopWeighs(s.WithAdvert(adv), s.app.stop);
    hide Stream.WithAdvert, Stream.WithStop;
    var t := Consume(lim, g, s, s.app.n, s.app.stop).s;
    assert t.tx == s.WithAdvert(adv).WithStop(s.app.stop).tx && LifeWeight(t.life) <= LifeWeight(s.life) + 2;
    hide LifeWeight;
  }

  lemma StopWeighs(s: Stream, stop: Option<nat>)
    ensures s.WithStop(stop) == s.(tx := s.tx.(lifeQ := s.WithStop(stop).tx.lifeQ))
    ensures |s.WithStop(stop).tx.lifeQ| <= |s.tx.lifeQ| + 1
  {
  }

  lemma WriterCallShrinks(lim: Limits, g: Ledger, s: Stream, a: Act)
    requires Closed(s) && Enabled(s, a) && (a.AWriteReserve? || a.AWriteQueue? || a.ADropHandle?)
    ensures Shrinks(lim, g, s, a)
  {
    hide *;
    match a
    case AWriteReserve => ReserveShrinks(lim, g, s);
    case AWriteQueue => QueueShrinks(lim, g, s);
    case _ => DropShrinks(lim, g, s);
  }

  lemma ReserveShrinks(lim: Limits, g: Ledger, s: Stream)
    requires Closed(s) && Enabled(s, AWriteReserve)
    ensures Shrinks(lim, g, s, AWriteReserve)
  {
    hide PollReserve, RecvFrame, Rung;
  }

  lemma QueueShrinks(lim: Limits, g: Ledger, s: Stream)
    requires Closed(s) && Enabled(s, AWriteQueue)
    ensures Shrinks(lim, g, s, AWriteQueue)
  {
    hide Release, RecvFrame, Rung;
  }

  lemma DropShrinks(lim: Limits, g: Ledger, s: Stream)
    requires Closed(s) && Enabled(s, ADropHandle)
    ensures Shrinks(lim, g, s, ADropHandle)
  {
    hide Release, RecvFrame, Rung;
  }

  lemma OtherShrinks(lim: Limits, g: Ledger, s: Stream, a: Act)
    requires LifecycleOnly(s.tx.lifeQ) && Enabled(s, a) && !ByApp(a) && !a.ARecv?
    ensures Shrinks(lim, g, s, a)
  {
    hide LifecycleOnly, Shrinks, Do, Closed;
    if Sends(a) { SenderShrinks(lim, g, s, a); }
    else if a.APopData? || a.ANote? || a.AWriterStop? || a.AWriterEnd? { WriterShrinks(lim, g, s, a); }
    else if a.ABuffer? || a.ADiscard? || a.AStopDone? || a.AClosed? { HandlerShrinks(lim, g, s, a); }
    else { LadderShrinks(lim, g, s, a); }
  }

  lemma WriterShrinks(lim: Limits, g: Ledger, s: Stream, a: Act)
    requires Enabled(s, a) && (a.APopData? || a.ANote? || a.AWriterStop? || a.AWriterEnd?)
    ensures Shrinks(lim, g, s, a)
  {
    hide Release, Commit, RecvFrame, Rung;
    if a.APopData? || a.AWriterStop? { hide Note, WriterEnd; } else { hide PopData, WriterStop; }
  }

  lemma SenderShrinks(lim: Limits, g: Ledger, s: Stream, a: Act)
    requires LifecycleOnly(s.tx.lifeQ) && Enabled(s, a) && Sends(a)
    ensures Shrinks(lim, g, s, a)
  {
    hide End, Legal, Release, Commit, RecvFrame, Rung;
  }

  lemma HandlerShrinks(lim: Limits, g: Ledger, s: Stream, a: Act)
    requires Enabled(s, a) && (a.ABuffer? || a.ADiscard? || a.AStopDone? || a.AClosed?)
    ensures Shrinks(lim, g, s, a)
  {
    hide *;
    match a
    case ADiscard => DiscardShrinks(lim, g, s);
    case AStopDone => StopDoneShrinks(lim, g, s);
    case _ => CallbackShrinks(lim, g, s, a);
  }

  lemma CallbackShrinks(lim: Limits, g: Ledger, s: Stream, a: Act)
    requires Enabled(s, a) && (a.ABuffer? || a.AClosed?)
    ensures Shrinks(lim, g, s, a)
  {
    hide FailSend, RecvFrame, Rung;
  }

  lemma DiscardShrinks(lim: Limits, g: Ledger, s: Stream)
    requires Enabled(s, ADiscard)
    ensures Shrinks(lim, g, s, ADiscard)
  {
    hide OnConsumed, RecvFrame, Rung, AppWeight, WriterWeight;
    var adv := OnConsumed(lim, g, s.credit, s.rx.handler.n).streamAdvert;
    AdvertWeighs(s, adv);
    hide Stream.WithAdvert;
    var t := Discard(lim, g, s, s.rx.handler.n, s.rx.handler.retire).s;
    assert t.tx == s.WithAdvert(adv).tx && RxWeight(t.rx) + 20 == RxWeight(s.rx) && LifeWeight(t.life) <= LifeWeight(s.life) + 2;
    hide RxWeight, LifeWeight;
  }

  /** A queued advertisement weighs 12 and changes nothing else. */
  lemma AdvertWeighs(s: Stream, adv: Option<nat>)
    ensures s.WithAdvert(adv) == s.(tx := s.tx.(lifeQ := s.WithAdvert(adv).tx.lifeQ))
    ensures |s.WithAdvert(adv).tx.lifeQ| <= |s.tx.lifeQ| + 1
  {
  }

  lemma StopDoneShrinks(lim: Limits, g: Ledger, s: Stream)
    requires Enabled(s, AStopDone)
    ensures Shrinks(lim, g, s, AStopDone)
  {
    hide FailSend, RecvFrame, Rung, AppWeight, WriterWeight;
  }

  lemma LadderShrinks(lim: Limits, g: Ledger, s: Stream, a: Act)
    requires Enabled(s, a) && (a.AMaybeRetire? || a.ACloseChannel? || a.ADropCredit? || a.AReport?)
    ensures Shrinks(lim, g, s, a)
  {
    hide DropStream, PeerStreamRetired, RecvFrame;
  }

  lemma DoShrinks(lim: Limits, g: Ledger, s: Stream, a: Act)
    requires RxInv(s.rx) && LifecycleOnly(s.tx.lifeQ) && Enabled(s, a) && (ByApp(a) ==> Closed(s))
    ensures Shrinks(lim, g, s, a)
  {
    hide Do, Shrinks, RxInv, LifecycleOnly, Closed;
    if a.ARecv? { RecvShrinks(lim, g, s, a.f); }
    else if ByApp(a) { AppShrinks(lim, g, s, a); }
    else { OtherShrinks(lim, g, s, a); }
  }

  // ---- both ends together ----

  /** A stream known to both ends. */
  ghost predicate Paired(x: Endpoint, y: Endpoint, id: nat) {
    Joined(x, y) && id in x.streams && id in y.streams
  }

  /** A stream known to both ends and closed by both applications. */
  ghost predicate BothClosed(x: Endpoint, y: Endpoint, id: nat) {
    && Paired(x, y, id) && x.Established() && y.Established()
    && Closed(x.streams[id]) && Closed(y.streams[id])
  }

  ghost function WorkLeft(x: Endpoint, y: Endpoint, id: nat): nat
    requires Paired(x, y, id)
  {
    PairWeight(x.streams[id], y.streams[id])
  }

  /** Any step on the stream at `x` leaves less to do: every step once its application has closed
      it, and before that every step that is not the application's. */
  lemma StreamStepShrinks(x: Endpoint, y: Endpoint, id: nat, a: Act)
    requires Paired(x, y, id) && CanStep(x, y, OnStream(id, a)) && (ByApp(a) ==> Closed(x.streams[id]))
    ensures Paired(Step(x, OnStream(id, a)), y, id)
    ensures WorkLeft(Step(x, OnStream(id, a)), y, id) < WorkLeft(x, y, id)
    ensures Closed(x.streams[id]) ==> Closed(Step(x, OnStream(id, a)).streams[id])
    ensures x.Established() ==> Step(x, OnStream(id, a)).Established()
  {
    var s, t := x.streams[id], y.streams[id];
    hide StreamInv.Inv, Do, SumsOk, LimitsAgree, LedgerOk, EndWeight, Enabled, RxInv, LifecycleOnly, Closed;
    StepKeepsJoined(x, y, OnStream(id, a));
    ActIsNoViolation(x, y, id, a);
    ReceivedTrace(x.lim, x.g, s, a);
    InvParts(x.lim, x.g.peerInit, s);
    DoShrinks(x.lim, x.g, s, a);
    var o := Do(x.lim, x.g, s, a);
    hide Shrinks, OpenedByHello;
    ShrunkPair(s, t, o.s, a, x.lim, x.g);
  }

  lemma InvParts(lim: Limits, peerInit: int, s: Stream)
    requires StreamInv.Inv(lim, peerInit, s)
    ensures RxInv(s.rx) && LifecycleOnly(s.tx.lifeQ)
  {
  }

  /** What one end loses and puts on the wire, or takes from it, adds up to less. */
  lemma ShrunkPair(s: Stream, t: Stream, s': Stream, a: Act, lim: Limits, g: Ledger)
    requires Ends(s, t) && Ends(s', t) && Enabled(s, a) && Shrinks(lim, g, s, a) && Do(lim, g, s, a).Next?
    requires s' == Do(lim, g, s, a).s
    requires s'.rx.log == if a.ARecv? then s.rx.log + [a.f] else s.rx.log
    requires a.ARecv? ==> |s.rx.log| < |t.tx.log| && a.f == t.tx.log[|s.rx.log|]
    ensures (Closed(s) ==> Closed(s')) && PairWeight(s', t) < PairWeight(s, t)
  {
    hide Do, Enabled, EndWeight, Closed;
    if Sends(a) {
      assert s'.tx.log[|t.rx.log|..] == s.tx.log[|t.rx.log|..] + [SentFrame(s, a)];
      WeightAppend(s.tx.log[|t.rx.log|..], SentFrame(s, a));
    }
    if a.ARecv? {
      assert t.tx.log[|s.rx.log|..][1..] == t.tx.log[|s'.rx.log|..];
    }
  }

  /** Any other step at `x` leaves the stream alone. */
  lemma OtherStepLeaves(x: Endpoint, y: Endpoint, id: nat, ev: Event)
    requires Paired(x, y, id) && CanStep(x, y, ev) && !(ev.OnStream? && ev.id == id)
    ensures Paired(Step(x, ev), y, id)
    ensures Step(x, ev).streams[id] == x.streams[id]
    ensures WorkLeft(Step(x, ev), y, id) == WorkLeft(x, y, id)
    ensures x.Established() ==> Step(x, ev).Established()
  {
    StepKeepsJoined(x, y, ev);
    OtherStepKeepsStream(x, id, ev);
    hide Step, Do, EInv, Enabled, Closed, PairWeight, OpenedByHello, Joined, CanStep;
  }

  lemma OtherStepKeepsStream(x: Endpoint, id: nat, ev: Event)
    requires id in x.streams && Possible(x, ev) && !(ev.OnStream? && ev.id == id)
    ensures id in Step(x, ev).streams && Step(x, ev).streams[id] == x.streams[id]
    ensures x.Established() ==> Step(x, ev).Established()
  {
    hide Do, Enabled;
  }

  predicate OnThis(m: Move, id: nat) { m.ev.OnStream? && m.ev.id == id }

  /** A step of one of the two applications on this stream. */
  predicate OfApp(m: Move, id: nat) { OnThis(m, id) && ByApp(m.ev.a) }

  lemma MoveShrinks(s: System, id: nat, m: Move)
    requires Paired(s.x, s.y, id) && CanMove(s, m) && (OfApp(m, id) ==> BothClosed(s.x, s.y, id))
    ensures var s' := Apply(s, m);
            && Paired(s'.x, s'.y, id) && (BothClosed(s.x, s.y, id) ==> BothClosed(s'.x, s'.y, id))
            && WorkLeft(s'.x, s'.y, id) + (if OnThis(m, id) then 1 else 0) <= WorkLeft(s.x, s.y, id)
  {
    hide Arrives, ClosesEarly, Step, EInv, Linked, Closed;
    match m
    case AtX(ev) =>
      if OnThis(m, id) { StreamStepShrinks(s.x, s.y, id, ev.a); } else { OtherStepLeaves(s.x, s.y, id, ev); }
    case AtY(ev) =>
      if OnThis(m, id) { StreamStepShrinks(s.y, s.x, id, ev.a); } else { OtherStepLeaves(s.y, s.x, id, ev); }
  }

  /** Moves of a run that are on stream `id`. */
  function Count(ms: seq<Move>, id: nat): nat {
    if ms == [] then 0 else (if OnThis(ms[0], id) then 1 else 0) + Count(ms[1..], id)
  }

  /** No step of the run on stream `id` is an application's. */
  predicate AppsRest(ms: seq<Move>, id: nat) { forall i :: 0 <= i < |ms| ==> !OfApp(ms[i], id) }

  /** However the run goes, there are at most `WorkLeft` more steps on the stream, once both
      applications have closed it or while neither does anything. */
  lemma {:induction false} StepsAreBounded(s: System, id: nat, ms: seq<Move>)
    requires Paired(s.x, s.y, id) && Run(s, ms) && (BothClosed(s.x, s.y, id) || AppsRest(ms, id))
    ensures var t := Systems.After(s, ms);
            && Paired(t.x, t.y, id) && (BothClosed(s.x, s.y, id) ==> BothClosed(t.x, t.y, id))
            && Count(ms, id) + WorkLeft(t.x, t.y, id) <= WorkLeft(s.x, s.y, id)
    decreases |ms|
  {
    hide Paired, BothClosed, Arrived, Early, Apply, PairWeight, OfApp;
    if ms != [] {
      assert AppsRest(ms, id) ==> !OfApp(ms[0], id) && AppsRest(ms[1..], id);
      MoveShrinks(s, id, ms[0]);
      StepsAreBounded(Apply(s, ms[0]), id, ms[1..]);
    }
  }

  // ---- no step left means retired ----

  /** No step on the stream is possible at `x`, but to drop the handle. */
  ghost predicate Stuck(x: Endpoint, y: Endpoint, id: nat) {
    forall a: Act :: !a.ADropHandle? ==> !CanStep(x, y, OnStream(id, a))
  }

  /** At an end with no step left, nothing is in hand, queued or owed. */
  ghost predicate Quiescent(s: Stream) {
    && s.rx.handler == Idle && (s.app == Quiet || s.app == Gone) && !s.life.due && !s.life.closeDue
    && s.life.phase != Fired && s.life.phase != Dropped
    && (s.tx.writer.Stopped? || (s.tx.writer == Ready && s.tx.lifeQ == [] && s.tx.dataQ == []))
  }

  /** A step the network has no say in is simply not enabled. */
  lemma StuckAct(x: Endpoint, y: Endpoint, id: nat, a: Act)
    requires BothClosed(x, y, id) && Stuck(x, y, id) && InputOk(a) && !a.ARecv? && !a.AClosed? && !a.ADropHandle?
    ensures !Enabled(x.streams[id], a)
  {
    hide EInv, Enabled, Do;
    assert !CanStep(x, y, OnStream(id, a));
  }

  lemma StuckIsQuiescent(x: Endpoint, y: Endpoint, id: nat)
    requires BothClosed(x, y, id) && Stuck(x, y, id)
    ensures Quiescent(x.streams[id])
  {
    hide Joined, Stuck, Enabled, Closed;
    StuckAct(x, y, id, ABuffer);
    StuckAct(x, y, id, ADiscard);
    StuckAct(x, y, id, AStopDone);
    StuckAct(x, y, id, ASendLife);
    StuckAct(x, y, id, ASendHeld);
    StuckAct(x, y, id, ANote);
    StuckAct(x, y, id, AWriterStop);
    StuckAct(x, y, id, APopData);
    StuckAct(x, y, id, AConsume);
    StuckAct(x, y, id, ACancelMark);
    StuckAct(x, y, id, AQueueFin);
    StuckAct(x, y, id, AWriteReserve);
    StuckAct(x, y, id, AWriteQueue);
    StuckAct(x, y, id, AMaybeRetire);
    StuckAct(x, y, id, ACloseChannel);
    StuckAct(x, y, id, ADropCredit);
    StuckAct(x, y, id, AReport);
    NothingEnabled(x.streams[id]);
  }

  lemma NothingEnabled(s: Stream)
    requires Closed(s)
    requires !Enabled(s, ABuffer) && !Enabled(s, ADiscard) && !Enabled(s, AStopDone)
    requires !Enabled(s, ASendLife) && !Enabled(s, ASendHeld) && !Enabled(s, ANote) && !Enabled(s, AWriterStop)
    requires !Enabled(s, APopData) && !Enabled(s, AConsume)
    requires !Enabled(s, ACancelMark) && !Enabled(s, AQueueFin) && !Enabled(s, AWriteReserve) && !Enabled(s, AWriteQueue)
    requires !Enabled(s, AMaybeRetire) && !Enabled(s, ACloseChannel) && !Enabled(s, ADropCredit) && !Enabled(s, AReport)
    ensures Quiescent(s)
  {
    WriterIsIdle(s);
    CallsAreOver(s);
    RestIsIdle(s);
    hide Enabled;
  }

  lemma WriterIsIdle(s: Stream)
    requires !Enabled(s, ASendLife) && !Enabled(s, ASendHeld) && !Enabled(s, ANote) && !Enabled(s, AWriterStop)
    requires !Enabled(s, APopData)
    ensures s.tx.writer.Stopped? || (s.tx.writer == Ready && s.tx.lifeQ == [] && s.tx.dataQ == [])
  {
  }

  lemma CallsAreOver(s: Stream)
    requires s.app != ShuttingDown && (s.tx.writer.Stopped? || s.tx.dataQ == [])
    requires !Enabled(s, AConsume) && !Enabled(s, ACancelMark) && !Enabled(s, AQueueFin)
    requires !Enabled(s, AWriteReserve) && !Enabled(s, AWriteQueue)
    ensures s.app == Quiet || s.app == Gone
  {
  }

  lemma RestIsIdle(s: Stream)
    requires !Enabled(s, ABuffer) && !Enabled(s, ADiscard) && !Enabled(s, AStopDone)
    requires !Enabled(s, AMaybeRetire) && !Enabled(s, ACloseChannel) && !Enabled(s, ADropCredit) && !Enabled(s, AReport)
    ensures s.rx.handler == Idle && !s.life.due && !s.life.closeDue && s.life.phase != Fired && s.life.phase != Dropped
  {
  }

  lemma QuiescentHasSent(lim: Limits, peerInit: int, s: Stream)
    requires StreamInv.Inv(lim, peerInit, s) && Closed(s) && Quiescent(s)
    ensures s.tx.sent <==> !GaveUp(s)
    ensures s.tx.sent == (End(s.tx.log) != NotEnded) && s.Drained()
    ensures s.life.closed ==> s.WireComplete()
    ensures s.PeerEnded() == (End(s.rx.log) != NotEnded)
    ensures s.life.phase == Reported ==> s.WireComplete()
    ensures s.WireComplete() ==> if s.life.closed then s.life.phase == Reported else s.life.closeSent
    ensures forall f :: f in s.tx.log ==> FrameOk(f)
  {
    hide CreditInv, Bytes, Legal, QueuedBytes, Flatten;
  }

  /** Then each end has heard exactly if neither gave up. */
  lemma StuckHasHeard(x: Endpoint, y: Endpoint, id: nat)
    requires BothClosed(x, y, id) && Stuck(x, y, id) && Stuck(y, x, id)
    ensures x.streams[id].WireComplete() <==> !GaveUp(x.streams[id]) && !GaveUp(y.streams[id])
  {
    hide Stuck, EInv, Linked, Closed, Quiescent, End;
    StuckIsQuiescent(x, y, id);
    StuckIsQuiescent(y, x, id);
    EndsOf(x, y, id);
    var a, b := x.streams[id], y.streams[id];
    QuiescentHasSent(x.lim, x.g.peerInit, a);
    QuiescentHasSent(y.lim, y.g.peerInit, b);
    LegalLog(y.lim, y.g.peerInit, b);
    PrefixFacts(a.rx.log, b.tx.log);
    hide GaveUp;
    if !a.PeerEnded() && b.tx.sent {
      assert a.rx.log != b.tx.log;
      NextIsTaken(x, y, id);
    }
  }

  lemma LegalLog(lim: Limits, peerInit: int, s: Stream)
    requires StreamInv.Inv(lim, peerInit, s)
    ensures Legal(s.tx.log)
  {
  }

  lemma EndsOf(x: Endpoint, y: Endpoint, id: nat)
    requires Joined(x, y) && id in x.streams && id in y.streams
    ensures StreamInv.Inv(x.lim, x.g.peerInit, x.streams[id]) && StreamInv.Inv(y.lim, y.g.peerInit, y.streams[id])
    ensures Ends(x.streams[id], y.streams[id])
  {
    hide StreamInv.Inv, SumsOk, LimitsAgree, LedgerOk, Ends;
  }

  lemma NextIsTaken(x: Endpoint, y: Endpoint, id: nat)
    requires BothClosed(x, y, id) && Stuck(x, y, id) && |x.streams[id].rx.log| < |y.streams[id].tx.log|
    requires Quiescent(x.streams[id]) && forall f :: f in y.streams[id].tx.log ==> FrameOk(f)
    ensures x.streams[id].life.closed
  {
    hide EInv, Do;
    var f := y.streams[id].tx.log[|x.streams[id].rx.log|];
    assert f in y.streams[id].tx.log;
    assert !CanStep(x, y, OnStream(id, ARecv(f)));
  }

  lemma StuckIsRetired(x: Endpoint, y: Endpoint, id: nat)
    requires BothClosed(x, y, id) && Stuck(x, y, id) && Stuck(y, x, id)
    ensures x.streams[id].life.phase == Reported <==> !GaveUp(x.streams[id]) && !GaveUp(y.streams[id])
  {
    StuckIsQuiescent(x, y, id);
    StuckHasHeard(x, y, id);
    hide StreamInv.Inv, SumsOk, LimitsAgree, LedgerOk, Linked, Do, End, Closed, GaveUp;
    QuiescentHasSent(x.lim, x.g.peerInit, x.streams[id]);
    if x.streams[id].life.closeSent { CloseArrives(x, y, id); }
  }

  lemma CloseArrives(x: Endpoint, y: Endpoint, id: nat)
    requires BothClosed(x, y, id) && Stuck(x, y, id)
    requires x.streams[id].rx.handler == Idle && x.streams[id].life.closeSent && !x.streams[id].tx.writer.Noting?
    ensures x.streams[id].life.closed
  {
    hide EInv, Do;
    assert !CanStep(x, y, OnStream(id, AClosed));
  }

  // ---- the theorem ----

  /** From any reachable state in which both applications have closed a stream: every run takes
      at most `WorkLeft` steps on it. A run that can take no further step on it, but to drop a
      handle, has retired it at both ends if neither writer ended before its terminal frame was
      handed over, and otherwise at neither. */
  lemma RetirementTerminates(lx: Limits, ly: Limits, s: System, id: nat, ms: seq<Move>)
    requires LimitsOk(lx) && LimitsOk(ly) && Systems.Reachable(lx, ly, s)
    requires BothClosed(s.x, s.y, id) && Run(s, ms)
    ensures Count(ms, id) <= WorkLeft(s.x, s.y, id)
    ensures var t := Systems.After(s, ms);
            id in t.x.streams && id in t.y.streams &&
            (NoMoveOn(t, id) ==>
              && (t.x.streams[id].life.phase == Reported <==> !GaveUp(t.x.streams[id]) && !GaveUp(t.y.streams[id]))
              && (t.y.streams[id].life.phase == Reported <==> !GaveUp(t.x.streams[id]) && !GaveUp(t.y.streams[id])))
  {
    StepsAreBounded(s, id, ms);
    var t := Systems.After(s, ms);
    hide Joined, Run, CanStep, Closed, GaveUp;
    if NoMoveOn(t, id) {
      NoMoveIsStuck(t, id);
      StuckIsRetired(t.x, t.y, id);
      StuckIsRetired(t.y, t.x, id);
    }
  }

  predicate DropsHandle(m: Move) { m.ev.OnStream? && m.ev.a.ADropHandle? }

  ghost predicate NoMoveOn(t: System, id: nat) { forall m :: OnThis(m, id) && !DropsHandle(m) ==> !CanMove(t, m) }

  lemma NoMoveIsStuck(t: System, id: nat)
    requires NoMoveOn(t, id)
    ensures Stuck(t.x, t.y, id) && Stuck(t.y, t.x, id)
  {
    hide Arrives, ClosesEarly;
    forall a: Act | !a.ADropHandle? ensures !CanStep(t.x, t.y, OnStream(id, a)) && !CanStep(t.y, t.x, OnStream(id, a)) {
      var m, n := AtX(OnStream(id, a)), AtY(OnStream(id, a));
      assert OnThis(m, id) && OnThis(n, id) && !DropsHandle(m) && !DropsHandle(n);
      assert !CanMove(t, m) && !CanMove(t, n);
    }
  }

  // ---- a writer that ended too early ----

  lemma StepKeepsSilent(x: Endpoint, y: Endpoint, id: nat, ev: Event)
    requires Paired(x, y, id) && CanStep(x, y, ev) && Silent(x.streams[id])
    ensures id in Step(x, ev).streams && Silent(Step(x, ev).streams[id])
  {
    if ev.OnStream? && ev.id == id {
      ActIsNoViolation(x, y, id, ev.a);
      StaysSilent(x.lim, x.g, x.streams[id], ev.a);
      hide Do, Enabled, EInv, Silent;
    } else {
      OtherStepKeepsStream(x, id, ev);
    }
  }

  lemma MoveKeepsSilent(s: System, id: nat, m: Move)
    requires Paired(s.x, s.y, id) && CanMove(s, m)
    ensures var s' := Apply(s, m);
            && Paired(s'.x, s'.y, id)
            && (Silent(s.x.streams[id]) ==> Silent(s'.x.streams[id])) && (Silent(s.y.streams[id]) ==> Silent(s'.y.streams[id]))
  {
    hide Carried, Possible, ClosesEarly, Step, EInv, Linked, Silent;
    MoveKeeps(s, m);
    match m
    case AtX(ev) =>
      StreamsStay(s.x, id, ev);
      if Silent(s.x.streams[id]) { StepKeepsSilent(s.x, s.y, id, ev); }
    case AtY(ev) =>
      StreamsStay(s.y, id, ev);
      if Silent(s.y.streams[id]) { StepKeepsSilent(s.y, s.x, id, ev); }
  }

  lemma StreamsStay(x: Endpoint, id: nat, ev: Event)
    requires id in x.streams && Possible(x, ev)
    ensures id in Step(x, ev).streams
  {
    hide Do, Enabled;
  }

  lemma {:induction false} RunKeepsSilent(s: System, id: nat, ms: seq<Move>)
    requires Paired(s.x, s.y, id) && Run(s, ms)
    ensures var t := Systems.After(s, ms);
            && Paired(t.x, t.y, id)
            && (Silent(s.x.streams[id]) ==> Silent(t.x.streams[id])) && (Silent(s.y.streams[id]) ==> Silent(t.y.streams[id]))
    decreases |ms|
  {
    hide Joined, Arrived, Early, Apply, Silent;
    if ms != [] {
      MoveKeepsSilent(s, id, ms[0]);
      RunKeepsSilent(Apply(s, ms[0]), id, ms[1..]);
    }
  }

  /** A stream one of whose writers ended too early is retired by no run, at neither end. */
  lemma GaveUpNeverRetires(lx: Limits, ly: Limits, s: System, id: nat, ms: seq<Move>)
    requires LimitsOk(lx) && LimitsOk(ly) && Systems.Reachable(lx, ly, s) && Run(s, ms)
    requires id in s.x.streams && id in s.y.streams && (GaveUp(s.x.streams[id]) || GaveUp(s.y.streams[id]))
    ensures var t := Systems.After(s, ms);
            && id in t.x.streams && id in t.y.streams
            && t.x.streams[id].life.phase != Reported && t.y.streams[id].life.phase != Reported
  {
    Systems.ReachableInv(lx, ly, s);
    hide Joined, GaveUp, Silent, StreamInv.Inv, Run, Systems.Reachable;
    EndsOf(s.x, s.y, id);
    RunKeepsSilent(s, id, ms);
    var t := Systems.After(s, ms);
    EndsOf(t.x, t.y, id);
    if GaveUp(s.x.streams[id]) {
      GaveUpIsSilent(s.x.lim, s.x.g.peerInit, s.x.streams[id]);
      NeitherRetires(t.x, t.y, id);
    } else {
      GaveUpIsSilent(s.y.lim, s.y.g.peerInit, s.y.streams[id]);
      NeitherRetires(t.y, t.x, id);
    }
  }

  lemma NeitherRetires(x: Endpoint, y: Endpoint, id: nat)
    requires Joined(x, y) && id in x.streams && id in y.streams && Silent(x.streams[id])
    ensures x.streams[id].life.phase != Reported && y.streams[id].life.phase != Reported
  {
    hide Joined, StreamInv.Inv;
    EndsOf(x, y, id);
    var a, b := x.streams[id], y.streams[id];
    GaveUpIsSilent(x.lim, x.g.peerInit, a);
    LegalLog(x.lim, x.g.peerInit, a);
    PrefixFacts(b.rx.log, a.tx.log);
    RetiredHasHeard(y.lim, y.g.peerInit, b);
  }

  lemma RetiredHasHeard(lim: Limits, peerInit: int, s: Stream)
    requires StreamInv.Inv(lim, peerInit, s)
    ensures s.life.phase != Live ==> End(s.rx.log) != NotEnded
  {
    hide Bytes, Legal, Flatten, TxInv, CreditInv;
  }

  // ---- the opener's slot ----

  /** When the announcements have arrived, the opener may open as many streams again as the
      acceptor's window less those the acceptor has not reported retired. */
  lemma SlotsReturn(x: Endpoint, y: Endpoint)
    requires Joined(x, y) && y.rctl == x.ctl && y.helloSeen
    requires x.lim.maxStreams + x.g.peerRetired <= MAX_OFFSET
    ensures y.g.peerMaxStreams - y.g.streamsOpened ==
            x.lim.maxStreams - (y.g.streamsOpened - x.g.peerRetired)
    ensures EveryOpenedReported(x, y) ==> y.g.peerMaxStreams - y.g.streamsOpened == x.lim.maxStreams
  {
    hide SumsOk, StreamsOk, LimitsAgree, Linked, EveryOpenedReported;
    StreamLimitArrived(x, y);
    if EveryOpenedReported(x, y) { AllReported(x, y); }
  }

  /** Every stream `y` opened has been reported retired by `x`. */
  ghost predicate EveryOpenedReported(x: Endpoint, y: Endpoint) {
    forall id :: id in y.streams && !y.streams[id].inbound ==> id in x.streams && x.streams[id].life.phase == Reported
  }

  lemma StreamLimitArrived(x: Endpoint, y: Endpoint)
    requires Joined(x, y) && y.rctl == x.ctl && y.helloSeen
    ensures y.g.peerMaxStreams == x.g.advertisedMaxStreams
  {
    hide SumsOk, StreamsOk, LedgerOk;
    assert x.ctl[0] in x.ctl && x.ctl[..1] == [x.ctl[0]];
    ControlPrefix(x.ctl[..1], x.ctl);
    assert AnnouncedStreams([x.ctl[0]]) == Max(AnnouncedStreams([]), StreamLimitOf(x.ctl[0])) by {
      AppendControl([], x.ctl[0]);
      assert [] + [x.ctl[0]] == [x.ctl[0]];
    }
  }

  lemma AllReported(x: Endpoint, y: Endpoint)
    requires Joined(x, y) && EveryOpenedReported(x, y)
    ensures y.g.streamsOpened == x.g.peerRetired
  {
    hide StreamInv.Inv, LimitsAgree, LedgerOk, Sum;
    SumDominated(y.streams, OneIfOutbound, x.streams, OneIfInbound);
    SumDominated(x.streams, OneIfInbound, y.streams, OneIfOutbound);
    NothingHeld(x.streams);
  }

  lemma NothingHeld(m: map<nat, Stream>)
    requires forall id :: id in m ==> SlotHeld(m[id]) == 0
    ensures Sum(m, SlotHeld) == 0
  {
    SumDominated(m, SlotHeld, map[], SlotHeld);
    SumDominated(map[], SlotHeld, m, SlotHeld);
    assert Tally(map[], SlotHeld) == map[];
  }

  // ---- everything closed and nothing left to happen ----

  ghost predicate AllClosed(x: Endpoint) {
    x.Established() && forall id :: id in x.streams ==> Closed(x.streams[id])
  }

  /** Nothing can happen at `x` any more: no message and no channel comes, and no stream can take a
      step, but to drop its handle. */
  ghost predicate Over(x: Endpoint, y: Endpoint) {
    && (forall m :: !CanStep(x, y, RecvControl(m)))
    && (forall id :: !CanStep(x, y, Incoming(id)))
    && (forall id: nat :: Stuck(x, y, id))
  }

  /** No writer of the streams `y` opened ended too early, at either end. */
  ghost predicate NoneGaveUp(x: Endpoint, y: Endpoint) {
    forall id :: id in y.streams && !y.streams[id].inbound ==>
      id in x.streams && !GaveUp(x.streams[id]) && !GaveUp(y.streams[id])
  }

  lemma NothingOnTheWay(x: Endpoint, y: Endpoint)
    requires Joined(x, y) && Over(y, x)
    ensures y.rctl == x.ctl
  {
    hide EInv, Stuck, CanStep;
    if |y.rctl| < |x.ctl| { NextMessageComes(x, y); }
  }

  lemma NextMessageComes(x: Endpoint, y: Endpoint)
    requires Joined(x, y) && |y.rctl| < |x.ctl|
    ensures CanStep(y, x, RecvControl(x.ctl[|y.rctl|]))
  {
    hide StreamInv.Inv, SumsOk, LedgerOk, StreamsOk, Ends;
    assert x.ctl[|y.rctl|] in x.ctl;
  }

  /** Every stream the opener knows has reached the acceptor. */
  lemma AllKnown(x: Endpoint, y: Endpoint, id: nat)
    requires Joined(x, y) && Over(x, y) && id in y.streams && !y.streams[id].inbound
    ensures id in x.streams
  {
    hide EInv, Stuck, Ends;
    assert !CanStep(x, y, Incoming(id));
  }

  lemma ReportedExactly(x: Endpoint, y: Endpoint, id: nat)
    requires Joined(x, y) && AllClosed(x) && AllClosed(y) && Over(x, y) && Over(y, x)
    requires id in y.streams && !y.streams[id].inbound
    ensures id in x.streams && x.streams[id].inbound
    ensures x.streams[id].life.phase == Reported <==> !GaveUp(x.streams[id]) && !GaveUp(y.streams[id])
  {
    AllKnown(x, y, id);
    EndsOf(x, y, id);
    assert Stuck(x, y, id) && Stuck(y, x, id);
    hide Joined, Closed, Stuck, GaveUp, StreamInv.Inv, CanStep;
    StuckIsRetired(x, y, id);
  }

  /** A stream the acceptor has not reported is a slot the opener does not have. */
  lemma UnreportedIsMissing(x: Endpoint, y: Endpoint, id: nat)
    requires Joined(x, y) && id in x.streams && x.streams[id].inbound && x.streams[id].life.phase != Reported
    ensures y.g.streamsOpened > x.g.peerRetired
  {
    hide StreamInv.Inv, LimitsAgree, LedgerOk, Sum;
    SumDominated(x.streams, OneIfInbound, y.streams, OneIfOutbound);
    SumEntry(x.streams, SlotHeld, id);
  }

  /** The opener then has the acceptor's whole first window again if and only if no writer of its
      streams ended before its terminal frame was handed over. */
  lemma WindowIsBack(x: Endpoint, y: Endpoint)
    requires Joined(x, y) && AllClosed(x) && AllClosed(y) && Over(x, y) && Over(y, x)
    requires x.lim.maxStreams + x.g.peerRetired <= MAX_OFFSET
    ensures y.g.peerMaxStreams - y.g.streamsOpened == x.lim.maxStreams <==> NoneGaveUp(x, y)
  {
    NothingOnTheWay(x, y);
    AllReportedExactly(x, y);
    hide Joined, Over, NoneGaveUp, EveryOpenedReported;
    SlotsReturn(x, y);
    if !EveryOpenedReported(x, y) { SomeIsMissing(x, y); }
  }

  lemma AllReportedExactly(x: Endpoint, y: Endpoint)
    requires Joined(x, y) && AllClosed(x) && AllClosed(y) && Over(x, y) && Over(y, x)
    ensures EveryOpenedReported(x, y) <==> NoneGaveUp(x, y)
    ensures forall id :: id in y.streams && !y.streams[id].inbound ==> id in x.streams && x.streams[id].inbound
  {
    hide Joined, Over, AllClosed, GaveUp;
    forall id | id in y.streams && !y.streams[id].inbound
      ensures id in x.streams && x.streams[id].inbound
      ensures x.streams[id].life.phase == Reported <==> !GaveUp(x.streams[id]) && !GaveUp(y.streams[id])
    {
      ReportedExactly(x, y, id);
    }
  }

  lemma SomeIsMissing(x: Endpoint, y: Endpoint)
    requires Joined(x, y) && !EveryOpenedReported(x, y)
    requires forall id :: id in y.streams && !y.streams[id].inbound ==> id in x.streams && x.streams[id].inbound
    ensures y.g.streamsOpened > x.g.peerRetired
  {
    hide Joined;
    var id :| id in y.streams && !y.streams[id].inbound && x.streams[id].life.phase != Reported;
    UnreportedIsMissing(x, y, id);
  }

  /** In every reachable state in which the applications have closed every stream and nothing more
      can happen, at both ends. */
  lemma WindowsAreBack(lx: Limits, ly: Limits, s: System)
    requires LimitsOk(lx) && LimitsOk(ly) && Systems.Reachable(lx, ly, s)
    requires AllClosed(s.x) && AllClosed(s.y) && Over(s.x, s.y) && Over(s.y, s.x)
    ensures lx.maxStreams + s.x.g.peerRetired <= MAX_OFFSET ==>
      (s.y.g.peerMaxStreams - s.y.g.streamsOpened == lx.maxStreams <==> NoneGaveUp(s.x, s.y))
    ensures ly.maxStreams + s.y.g.peerRetired <= MAX_OFFSET ==>
      (s.x.g.peerMaxStreams - s.x.g.streamsOpened == ly.maxStreams <==> NoneGaveUp(s.y, s.x))
  {
    Systems.ReachableInv(lx, ly, s);
    Systems.FirstLimits(lx, ly, s);
    hide Joined, AllClosed, Over, NoneGaveUp, Systems.Reachable;
    if lx.maxStreams + s.x.g.peerRetired <= MAX_OFFSET { WindowIsBack(s.x, s.y); }
    if ly.maxStreams + s.y.g.peerRetired <= MAX_OFFSET { WindowIsBack(s.y, s.x); }
  }
}
