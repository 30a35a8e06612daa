/** What two conforming endpoints give their applications, in every reachable state. */
module Guarantees {
  import opened Basics
  import opened Wire
  import opened Trace
  import opened Flow
  import opened Streams
  import opened StreamInv
  import opened StreamFacts
  import opened Endpoints
  import opened Systems

  // ---- nobody is ever accused ----

  /** No interleaving of the channels makes one conforming endpoint kill the connection of
      another. From every reachable state whatever can happen leaves both alive, if and only if
      it is not a close arriving before our own terminal frame was noted. */
  lemma NeverKilled(lx: Limits, ly: Limits, s: System)
    requires LimitsOk(lx) && LimitsOk(ly) && Systems.Reachable(lx, ly, s)
    ensures !s.x.g.failed && !s.y.g.failed
    ensures forall m :: Arrived(s, m) ==>
      (!Apply(s, m).x.g.failed && !Apply(s, m).y.g.failed <==> !Early(s, m))
  {
    Systems.ReachableInv(lx, ly, s);
    forall m | Arrived(s, m)
      ensures !Apply(s, m).x.g.failed && !Apply(s, m).y.g.failed <==> !Early(s, m)
    {
      match m
      case AtX(ev) => NoViolation(s.x, s.y, ev);
      case AtY(ev) => NoViolation(s.y, s.x, ev);
    }
  }

  /** The decoder stops nothing: each message an endpoint puts on the wire, in any state it can
      come to, is read back as itself. */
  lemma EmittedIsAccepted(lim: Limits, e: Endpoint)
    requires LimitsOk(lim) && Endpoints.Reachable(lim, e)
    ensures forall m :: m in e.ctl ==> ControlOk(m) && DecodeControl(EncodeControl(m)) == Ok(m)
    ensures forall id, f :: id in e.streams && f in e.streams[id].tx.log ==>
      FrameOk(f) && ParseFrame(EncodeFrame(f)) == Ok(f)
  {
    Endpoints.ReachableInv(lim, e);
    forall m | m in e.ctl ensures ControlOk(m) && DecodeControl(EncodeControl(m)) == Ok(m) {
      ControlRoundTrip(m);
    }
    forall id, f | id in e.streams && f in e.streams[id].tx.log
      ensures FrameOk(f) && ParseFrame(EncodeFrame(f)) == Ok(f)
    {
      assert StreamInv.Inv(e.lim, e.g.peerInit, e.streams[id]);
      FrameRoundTrip(f);
    }
  }

  // ---- a FIFO byte pipe ----

  /** Stream bytes sent by `w` that `r` has not yet taken. */
  function InFlight(w: Stream, r: Stream): seq<byte>
    requires r.rx.log <= w.tx.log
  {
    Bytes(w.tx.log[|r.rx.log|..])
  }

  /** Reads are a prefix of writes; end of file means all of them; and with no reset or cancel
      every accepted byte is in exactly one place, in order. */
  ghost predicate Pipe(w: Stream, r: Stream)
    requires r.rx.log <= w.tx.log
  {
    && r.rx.read <= w.tx.accepted
    && (forall room :: ReadOutcome(r, room) == Eof ==> r.rx.read == w.tx.accepted && w.tx.terminal == ByFin)
    && (!r.rx.cancel && r.rx.reset.None? && !w.tx.drop ==>
          w.tx.accepted == r.rx.read + Flatten(r.rx.inbuf) + BufferingBytes(r.rx.handler)
                           + InFlight(w, r) + HeldBytes(w.tx.writer) + QueuedBytes(w.tx.dataQ))
  }

  lemma PipeHolds(lw: Limits, pw: int, w: Stream, lr: Limits, pr: int, r: Stream)
    requires StreamInv.Inv(lw, pw, w) && StreamInv.Inv(lr, pr, r) && r.rx.log <= w.tx.log
    ensures Pipe(w, r)
  {
    hide StreamInv.Inv, Bytes, End, Legal, Flatten, QueuedBytes, ReadOutcome, InFlight;
    ReadsArePrefix(lw, pw, w, lr, pr, r);
    if !r.rx.cancel && r.rx.reset.None? && !w.tx.drop { Conserved(lw, pw, w, lr, pr, r); }
    forall room | ReadOutcome(r, room) == Eof
      ensures r.rx.read == w.tx.accepted && w.tx.terminal == ByFin
    {
      EofExactly(lr, pr, r, room);
      FinMeansAll(lw, pw, w, lr, pr, r);
    }
  }

  lemma ReadsArePrefix(lw: Limits, pw: int, w: Stream, lr: Limits, pr: int, r: Stream)
    requires StreamInv.Inv(lw, pw, w) && StreamInv.Inv(lr, pr, r) && r.rx.log <= w.tx.log
    ensures r.rx.read <= w.tx.accepted
  {
    LegalTrace(lw, pw, w);
    PrefixFacts(r.rx.log, w.tx.log);
    hide TxInv, CreditInv, LifeInv, Bytes, End, Legal, Flatten, QueuedBytes;
    assert r.rx.read <= Bytes(r.rx.log);
  }

  lemma FinMeansAll(lw: Limits, pw: int, w: Stream, lr: Limits, pr: int, r: Stream)
    requires StreamInv.Inv(lw, pw, w) && StreamInv.Inv(lr, pr, r) && r.rx.log <= w.tx.log && Fin in r.rx.log
    ensures Bytes(r.rx.log) == w.tx.accepted && w.tx.terminal == ByFin
  {
    LegalTrace(lw, pw, w);
    PrefixFacts(r.rx.log, w.tx.log);
    EndOfFin(r.rx.log);
    EndOfFin(w.tx.log);
    hide Bytes, End, Legal, Flatten, QueuedBytes, CreditInv, LifeInv;
  }

  lemma Conserved(lw: Limits, pw: int, w: Stream, lr: Limits, pr: int, r: Stream)
    requires StreamInv.Inv(lw, pw, w) && StreamInv.Inv(lr, pr, r) && r.rx.log <= w.tx.log
    requires !r.rx.cancel && r.rx.reset.None? && !w.tx.drop
    ensures w.tx.accepted == r.rx.read + Flatten(r.rx.inbuf) + BufferingBytes(r.rx.handler)
                             + InFlight(w, r) + HeldBytes(w.tx.writer) + QueuedBytes(w.tx.dataQ)
  {
    WriterSide(lw, pw, w);
    ReaderSide(lr, pr, r);
    hide *;
    Split(r.rx.log, w.tx.log);
  }

  lemma Split(taken: seq<Frame>, log: seq<Frame>)
    requires taken <= log
    ensures Bytes(log) == Bytes(taken) + Bytes(log[|taken|..])
  {
    assert log == taken + log[|taken|..];
    BytesConcat(taken, log[|taken|..]);
  }

  lemma WriterSide(lim: Limits, p: int, w: Stream)
    requires StreamInv.Inv(lim, p, w) && !w.tx.drop
    ensures w.tx.accepted == Bytes(w.tx.log) + HeldBytes(w.tx.writer) + QueuedBytes(w.tx.dataQ)
  {
  }

  lemma ReaderSide(lim: Limits, p: int, r: Stream)
    requires StreamInv.Inv(lim, p, r) && !r.rx.cancel && r.rx.reset.None?
    ensures Bytes(r.rx.log) == r.rx.read + Flatten(r.rx.inbuf) + BufferingBytes(r.rx.handler)
  {
  }

  lemma BytePipe(lx: Limits, ly: Limits, s: System, id: nat)
    requires LimitsOk(lx) && LimitsOk(ly) && Systems.Reachable(lx, ly, s)
    requires id in s.x.streams && id in s.y.streams
    ensures Ends(s.x.streams[id], s.y.streams[id])
    ensures Pipe(s.x.streams[id], s.y.streams[id]) && Pipe(s.y.streams[id], s.x.streams[id])
  {
    Systems.ReachableInv(lx, ly, s);
    hide StreamInv.Inv, Pipe;
    PipeHolds(s.x.lim, s.x.g.peerInit, s.x.streams[id], s.y.lim, s.y.g.peerInit, s.y.streams[id]);
    PipeHolds(s.y.lim, s.y.g.peerInit, s.y.streams[id], s.x.lim, s.x.g.peerInit, s.x.streams[id]);
  }

  // ---- credit never wedges ----

  /** Nothing of the stream is under way in either direction, and all that came was consumed. */
  ghost predicate StreamIdle(w: Stream, r: Stream) {
    && w.rx.log == r.tx.log && r.rx.log == w.tx.log && r.tx.lifeQ == [] && Unread(r) == 0
    && r.credit.Some? && w.credit.Some? && w.credit.value.send.reserved == 0
    && !r.rx.cancel
  }

  /** The writer `y` of an idle stream has credit exactly when the reader's window is not empty
      and the stream has not used up all of MAX_OFFSET; and then more than half the window. */
  lemma StreamCreditReopens(x: Endpoint, y: Endpoint, id: nat)
    requires Joined(x, y) && id in x.streams && id in y.streams && y.helloSeen
    requires StreamIdle(y.streams[id], x.streams[id])
    ensures var avail := StreamAvail(y.g, y.streams[id].credit.value);
            var used := x.streams[id].credit.value.recv.consumed;
            var window := x.lim.maxStreamData;
            && (avail >= 1 <==> window >= 1 && used < MAX_OFFSET)
            && (window >= 2 && used + window <= MAX_OFFSET ==> avail > window - window / 2)
  {
    hide Bytes, Legal, End, Announced, SumsOk, LimitsAgree, LedgerOk, QueuedBytes, QueuedGrants, Flatten;
    PeerLimits(x, y);
    var r, w := x.streams[id], y.streams[id];
    assert StreamInv.Inv(x.lim, x.g.peerInit, r) && StreamInv.Inv(y.lim, y.g.peerInit, w);
    assert Announced([]) == 0 by { NothingAnnounced(); }
    assert StreamAvail(y.g, w.credit.value) == r.credit.value.recv.localMax - r.credit.value.recv.consumed;
  }

  lemma NothingAnnounced()
    ensures Announced([]) == 0
  {
  }

  /** Every byte `y` ever sent has arrived, has been consumed, and every announcement of `x`
      has reached `y`. Cancelled, reset and retired streams are included. */
  ghost predicate ConnIdle(x: Endpoint, y: Endpoint) {
    && y.rctl == x.ctl && y.helloSeen
    && y.g.reserved == 0 && x.g.consumed == x.g.received
    && (forall id :: id in y.streams ==>
          SentBytes(y.streams[id]) <= if id in x.streams then ReceivedBytes(x.streams[id]) else 0)
  }

  lemma ConnCreditReopens(x: Endpoint, y: Endpoint)
    requires Joined(x, y) && ConnIdle(x, y)
    ensures var avail := ConnAvail(y.g);
            var used := x.g.consumed;
            var window := x.lim.maxData;
            && (avail >= 1 <==> window >= 1 && used < MAX_OFFSET)
            && (window >= 2 && used + window <= MAX_OFFSET ==> avail > window - window / 2)
  {
    hide StreamInv.Inv, AnnouncedData, AnnouncedStreams, Sum;
    SameTotals(x, y);
    DataLimitArrived(x, y);
  }

  lemma SameTotals(x: Endpoint, y: Endpoint)
    requires Joined(x, y) && ConnIdle(x, y)
    ensures y.g.sent == x.g.received
  {
    hide StreamInv.Inv, AnnouncedData, AnnouncedStreams, Sum, LedgerOk, LimitsAgree;
    forall j | j in x.streams
      ensures ReceivedBytes(x.streams[j]) <= (if j in y.streams then SentBytes(y.streams[j]) else 0)
    {
      if j in y.streams { PrefixFacts(x.streams[j].rx.log, y.streams[j].tx.log); }
    }
    SumDominated(x.streams, ReceivedBytes, y.streams, SentBytes);
    SumDominated(y.streams, SentBytes, x.streams, ReceivedBytes);
  }

  lemma DataLimitArrived(x: Endpoint, y: Endpoint)
    requires LimitsAgree(x) && LimitsAgree(y) && Linked(y, x) && y.rctl == x.ctl && y.helloSeen
    ensures y.g.peerMaxData == x.g.localMaxData
  {
    assert x.ctl[0] in x.ctl && x.ctl[..1] == [x.ctl[0]];
    ControlPrefix(x.ctl[..1], x.ctl);
    assert AnnouncedData([x.ctl[0]]) == Max(AnnouncedData([]), DataLimitOf(x.ctl[0])) by {
      AppendControl([], x.ctl[0]);
      assert [] + [x.ctl[0]] == [x.ctl[0]];
    }
  }

  /** A parked writer always waits for something that is under way: with stream and connection
      idle and windows of at least one byte, asking for credit is answered with credit. */
  lemma CreditNeverWedges(lx: Limits, ly: Limits, s: System, id: nat, want: nat)
    requires LimitsOk(lx) && LimitsOk(ly) && Systems.Reachable(lx, ly, s)
    requires id in s.x.streams && id in s.y.streams && want >= 1
    requires StreamIdle(s.y.streams[id], s.x.streams[id]) && ConnIdle(s.x, s.y)
    requires s.x.lim.maxStreamData >= 1 && s.x.lim.maxData >= 1
    requires s.x.g.consumed < MAX_OFFSET
    requires !s.y.streams[id].credit.value.send.failed
    ensures PollReserve(s.y.g, s.y.streams[id].credit, want).1.Granted?
  {
    NeverKilled(lx, ly, s);
    Systems.ReachableInv(lx, ly, s);
    hide EInv, Linked, CanMove;
    StreamCreditReopens(s.x, s.y, id);
    ConnCreditReopens(s.x, s.y);
    StreamUsesNoMore(s.x, id);
    CreditIsGranted(s.y.g, s.y.streams[id].credit.value, want);
  }

  lemma CreditIsGranted(g: Ledger, c: StreamCredit, want: nat)
    requires want >= 1 && StreamAvail(g, c) >= 1 && ConnAvail(g) >= 1 && !g.failed && !c.send.failed
    ensures PollReserve(g, Some(c), want).1.Granted?
  {
    ParkedExactly(g, Some(c), want);
  }

  /** One stream has consumed no more than its connection. */
  lemma StreamUsesNoMore(x: Endpoint, id: nat)
    requires EInv(x) && id in x.streams && x.streams[id].credit.Some? && Unread(x.streams[id]) == 0
    requires x.g.consumed == x.g.received
    ensures x.streams[id].credit.value.recv.consumed <= x.g.consumed
  {
    hide Bytes, Legal, End, Announced, LimitsAgree, LedgerOk, QueuedBytes, QueuedGrants, Flatten;
    assert StreamInv.Inv(x.lim, x.g.peerInit, x.streams[id]);
    SumEntry(x.streams, ReceivedBytes, id);
  }
}
