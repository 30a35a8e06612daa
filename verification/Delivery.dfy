/** A stream delivers: left alone by the applications, both ends come to rest, and at rest every byte
    the one application wrote is with the other. */
module Delivery {
  import opened Basics
  import opened Wire
  import opened Trace
  import opened Flow
  import opened Streams
  import opened StreamInv
  import opened Endpoints
  import opened Systems
  import opened Guarantees
  import opened Retirement

  /** Whatever can still happen on stream `id` is up to an application. */
  ghost predicate AtRest(s: System, id: nat) {
    forall m :: OnThis(m, id) && !OfApp(m, id) ==> !CanMove(s, m)
  }

  ghost predicate OnlyApps(x: Endpoint, y: Endpoint, id: nat) {
    forall a :: !ByApp(a) ==> !CanStep(x, y, OnStream(id, a))
  }

  /** The channel has been closed from neither side. */
  predicate ChannelOpen(a: Stream, b: Stream) { a.CanSend() && b.CanSend() }

  /** Nothing is queued at `w`, with its writer, or on the way to `r`; but lifecycle frames that find
      no writer, the handle being gone. */
  ghost predicate AllTaken(w: Stream, r: Stream) {
    && w.tx.dataQ == [] && ((w.tx.writer == Ready && w.tx.lifeQ == []) || (w.tx.writer.Stopped? && w.app == Gone))
    && r.rx.log == w.tx.log && r.rx.handler == Idle
  }

  /** Without reset or cancel the bytes written are the bytes read and, in order after them, the
      bytes buffered for reading. */
  predicate DeliveredTo(w: Stream, r: Stream) {
    !r.rx.cancel && r.rx.reset.None? && !w.tx.drop ==> w.tx.accepted == r.rx.read + Flatten(r.rx.inbuf)
  }

  // ---- one end without a step ----

  lemma NotEnabled(x: Endpoint, y: Endpoint, id: nat, a: Act)
    requires Paired(x, y, id) && OnlyApps(x, y, id)
    requires !ByApp(a) && InputOk(a) && !a.ARecv? && !a.AClosed?
    ensures !Enabled(x.streams[id], a)
  {
    hide EInv, Enabled, Do;
    assert !CanStep(x, y, OnStream(id, a));
  }

  /** The callbacks have finished, and the writer has nothing it could do. */
  predicate Rests(s: Stream) {
    && s.rx.handler == Idle
    && (s.tx.writer.Stopped? || (s.tx.writer == Ready && s.tx.lifeQ == [] && s.tx.dataQ == []))
  }

  lemma RestsAt(x: Endpoint, y: Endpoint, id: nat)
    requires Paired(x, y, id) && OnlyApps(x, y, id)
    ensures Rests(x.streams[id])
  {
    hide Joined, OnlyApps, StreamInv.Inv, Enabled;
    NotEnabled(x, y, id, ASendLife);
    NotEnabled(x, y, id, APopData);
    NotEnabled(x, y, id, ASendHeld);
    NotEnabled(x, y, id, ANote);
    NotEnabled(x, y, id, AWriterStop);
    WriterIsIdle(x.streams[id]);
    NotEnabled(x, y, id, ABuffer);
    NotEnabled(x, y, id, ADiscard);
    NotEnabled(x, y, id, AStopDone);
    CallbacksAreOver(x.streams[id]);
  }

  lemma CallbacksAreOver(s: Stream)
    requires !Enabled(s, ABuffer) && !Enabled(s, ADiscard) && !Enabled(s, AStopDone)
    ensures s.rx.handler == Idle
  {
  }

  /** A resting end has put everything on the wire, or was reset; and FIN only after everything. */
  lemma SentAll(lim: Limits, peerInit: int, w: Stream)
    requires StreamInv.Inv(lim, peerInit, w) && Rests(w)
    ensures !w.tx.drop ==> Bytes(w.tx.log) == w.tx.accepted
    ensures w.CanSend() ==> w.tx.dataQ == [] && (w.tx.writer.Stopped? ==> w.app == Gone)
    ensures Legal(w.tx.log) && forall f :: f in w.tx.log ==> FrameOk(f)
  {
    hide Bytes, End, Legal, QueuedGrants, Flatten, RxInv, CreditInv;
    Empties();
    assert Bytes(w.tx.log) + [] + [] == Bytes(w.tx.log);
  }

  /** What a resting reader was sent and did not throw away, it has. */
  lemma ReadOrBuffered(lim: Limits, peerInit: int, r: Stream)
    requires StreamInv.Inv(lim, peerInit, r) && Rests(r) && !r.rx.cancel && r.rx.reset.None?
    ensures Bytes(r.rx.log) == r.rx.read + Flatten(r.rx.inbuf)
  {
    ReaderSide(lim, peerInit, r);
    assert r.rx.read + Flatten(r.rx.inbuf) + [] == r.rx.read + Flatten(r.rx.inbuf);
  }

  /** A channel closes only after the peer's terminal frame. */
  lemma ClosedHasHeard(lim: Limits, peerInit: int, r: Stream)
    requires StreamInv.Inv(lim, peerInit, r) && r.life.closed
    ensures End(r.rx.log) != NotEnded
  {
    hide Bytes, Legal, Flatten, TxInv, CreditInv;
  }

  // ---- both ends without a step ----

  /** Every byte the writer sent has been taken: the next frame would be, and after the terminal
      frame there are none. */
  lemma NothingComes(x: Endpoint, y: Endpoint, id: nat)
    requires Paired(x, y, id) && Rests(x.streams[id]) && OnlyApps(x, y, id)
    requires Legal(y.streams[id].tx.log) && forall f :: f in y.streams[id].tx.log ==> FrameOk(f)
    ensures !x.streams[id].life.closed ==> x.streams[id].rx.log == y.streams[id].tx.log
    ensures Bytes(x.streams[id].rx.log) == Bytes(y.streams[id].tx.log)
  {
    hide OnlyApps, Joined, StreamInv.Inv, Bytes, End, Legal, FrameOk;
    var r, w := x.streams[id], y.streams[id];
    EndsOf(x, y, id);
    if r.life.closed {
      ClosedHasHeard(x.lim, x.g.peerInit, r);
      PrefixFacts(r.rx.log, w.tx.log);
    } else if |r.rx.log| < |w.tx.log| {
      NextComes(x, y, id);
    }
  }

  lemma NextComes(x: Endpoint, y: Endpoint, id: nat)
    requires Paired(x, y, id) && |x.streams[id].rx.log| < |y.streams[id].tx.log|
    requires x.streams[id].rx.handler == Idle && !x.streams[id].life.closed
    requires forall f :: f in y.streams[id].tx.log ==> FrameOk(f)
    ensures !OnlyApps(x, y, id)
  {
    hide EInv, Do;
    var f := y.streams[id].tx.log[|x.streams[id].rx.log|];
    assert f in y.streams[id].tx.log;
    assert CanStep(x, y, OnStream(id, ARecv(f)));
  }

  lemma RestDelivers(x: Endpoint, y: Endpoint, id: nat)
    requires Paired(x, y, id) && OnlyApps(x, y, id) && OnlyApps(y, x, id)
    ensures DeliveredTo(y.streams[id], x.streams[id])
    ensures ChannelOpen(x.streams[id], y.streams[id]) ==> AllTaken(y.streams[id], x.streams[id])
  {
    hide OnlyApps, Joined, StreamInv.Inv, Rests, Bytes, Legal, FrameOk, Flatten;
    var r, w := x.streams[id], y.streams[id];
    EndsOf(x, y, id);
    PairedBack(x, y, id);
    RestsAt(x, y, id);
    RestsAt(y, x, id);
    SentAll(y.lim, y.g.peerInit, w);
    NothingComes(x, y, id);
    if !r.rx.cancel && r.rx.reset.None? { ReadOrBuffered(x.lim, x.g.peerInit, r); }
    assert r.rx.handler == Idle && (w.tx.writer.Stopped? || (w.tx.writer == Ready && w.tx.lifeQ == [])) by { RestIs(r); RestIs(w); }
  }

  lemma RestIs(s: Stream)
    requires Rests(s)
    ensures s.rx.handler == Idle && (s.tx.writer.Stopped? || (s.tx.writer == Ready && s.tx.lifeQ == []))
  {
  }

  lemma PairedBack(x: Endpoint, y: Endpoint, id: nat)
    requires Paired(x, y, id)
    ensures Paired(y, x, id) && Joined(x, y)
  {
    hide EInv, Linked;
  }

  lemma RestIsApps(s: System, id: nat)
    requires AtRest(s, id)
    ensures OnlyApps(s.x, s.y, id) && OnlyApps(s.y, s.x, id)
  {
    hide Arrives, ClosesEarly;
    forall a | !ByApp(a) ensures !CanStep(s.x, s.y, OnStream(id, a)) && !CanStep(s.y, s.x, OnStream(id, a)) {
      assert OnThis(AtX(OnStream(id, a)), id) && OnThis(AtY(OnStream(id, a)), id);
      assert !CanMove(s, AtX(OnStream(id, a))) && !CanMove(s, AtY(OnStream(id, a)));
    }
  }

  /** From any reachable state: while neither application acts on a stream there are at most
      `WorkLeft` more steps on it, and when none is left its bytes have been delivered both ways,
      whether or not its channel has closed meanwhile; on an open one nothing is under way. */
  lemma Delivers(lx: Limits, ly: Limits, s: System, id: nat, ms: seq<Move>)
    requires LimitsOk(lx) && LimitsOk(ly) && Systems.Reachable(lx, ly, s)
    requires id in s.x.streams && id in s.y.streams && Run(s, ms) && AppsRest(ms, id)
    ensures Paired(s.x, s.y, id) && Count(ms, id) <= WorkLeft(s.x, s.y, id)
    ensures var t := Systems.After(s, ms);
            id in t.x.streams && id in t.y.streams &&
            var a, b := t.x.streams[id], t.y.streams[id];
            (AtRest(t, id) ==>
              && DeliveredTo(a, b) && DeliveredTo(b, a)
              && (ChannelOpen(a, b) ==> AllTaken(a, b) && AllTaken(b, a)))
  {
    Systems.ReachableInv(lx, ly, s);
    StepsAreBounded(s, id, ms);
    var t := Systems.After(s, ms);
    hide Run, AtRest, DeliveredTo, AllTaken, EInv, Linked, OnlyApps;
    if AtRest(t, id) {
      RestIsApps(t, id);
      PairedBack(t.x, t.y, id);
      RestDelivers(t.x, t.y, id);
      RestDelivers(t.y, t.x, id);
    }
  }
}
