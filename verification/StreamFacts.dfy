/** What the invariant of one stream end means to its callers. */
module StreamFacts {
  import opened Basics
  import opened Wire
  import opened Trace
  import opened Flow
  import opened Streams
  import opened StreamInv

  /** The wire trace is DATA* and at most one terminal frame, carries a prefix of the accepted
      bytes, and all of them if it ends with FIN. */
  lemma LegalTrace(lim: Limits, peerInit: int, s: Stream)
    requires Inv(lim, peerInit, s)
    ensures EndsOnce(s.tx.log)
    ensures Trace.Bytes(s.tx.log) <= s.tx.accepted
    ensures Fin in s.tx.log ==> Trace.Bytes(s.tx.log) == s.tx.accepted
  {
    LegalMeansEndsOnce(s.tx.log);
    if Fin in s.tx.log {
      EndOfFin(s.tx.log);
      assert s.tx.terminal == ByFin && s.tx.dataQ == [];
      assert Trace.Bytes(s.tx.log) + [] + [] == Trace.Bytes(s.tx.log);
    }
  }

  lemma {:induction false} EndOfFin(log: seq<Frame>)
    requires Legal(log)
    ensures End(log) == ByFin <==> Fin in log
  {
    if log != [] {
      var init, f := log[..|log| - 1], log[|log| - 1];
      EndOfFin(init);
      EndIsATerminal(init);
      assert log == init + [f];
    }
  }

  /** End of file is returned exactly when the peer's FIN has come, nothing was ever thrown
      away, and every byte the peer sent before it has been read. */
  lemma EofExactly(lim: Limits, peerInit: int, s: Stream, room: nat)
    requires Inv(lim, peerInit, s)
    ensures ReadOutcome(s, room) == Eof <==>
      Fin in s.rx.log && !s.rx.cancel && s.rx.read == Trace.Bytes(s.rx.log)
  {
    EndOfFin(s.rx.log);
    var r := s.rx;
    assert r.inbuf != [] ==> r.inbuf[0] in r.inbuf && |Flatten(r.inbuf)| >= |r.inbuf[0]| >= 1;
    if Fin in r.log && !r.cancel && r.read == Trace.Bytes(r.log) {
      assert |r.read + Flatten(r.inbuf) + BufferingBytes(r.handler)| == |r.read|;
    }
    if ReadOutcome(s, room) == Eof {
      assert r.read + [] + [] == r.read;
    }
  }

  /** A read with room returns at least one byte when it returns bytes: an empty result can
      only be end of file. After a cancel every read fails. */
  lemma ReadsAreExact(lim: Limits, peerInit: int, s: Stream, room: nat)
    requires Inv(lim, peerInit, s)
    ensures s.rx.cancel ==> s.rx.inbuf == [] && ReadOutcome(s, room) == Failed
    ensures ReadOutcome(s, room).Chunk? && room >= 1 ==> ReadOutcome(s, room).data != []
    ensures ReadOutcome(s, room).Chunk? ==> s.rx.read + ReadOutcome(s, room).data <= Trace.Bytes(s.rx.log)
  {
    if s.rx.inbuf != [] {
      assert s.rx.inbuf[0] in s.rx.inbuf;
      var c := ReadOutcome(s, room).data;
      var all := s.rx.read + Flatten(s.rx.inbuf) + BufferingBytes(s.rx.handler);
      assert all == Trace.Bytes(s.rx.log) && c <= Flatten(s.rx.inbuf);
      assert s.rx.read + c == all[..|s.rx.read + c|];
    }
  }

  function Rung(p: Phase): nat {
    match p case Live => 0 case Fired => 1 case Dropped => 2 case Reported => 3
  }

  lemma RecvKeepsPhase(g: Ledger, s: Stream, f: Frame)
    ensures RecvFrame(g, s, f).Next? ==> RecvFrame(g, s, f).s.life.phase == s.life.phase
  {
    hide DataReceived, FailSend, RaiseStreamMax, Flatten;
  }

  lemma WritersKeepPhase(g: Ledger, s: Stream)
    ensures s.app.Admitted? ==> WriteQueue(g, s, s.app.buf).Next? && WriteQueue(g, s, s.app.buf).s.life == s.life
    ensures s.app.Checked? ==> WriteReserve(g, s, s.app.buf).Next? && WriteReserve(g, s, s.app.buf).s.life == s.life
    ensures s.tx.dataQ != [] ==> PopData(g, s).Next? && PopData(g, s).s.life == s.life
    ensures WriterStop(g, s).Next? && WriterStop(g, s).s.life == s.life
    ensures s.tx.writer.Holding? ==>
      var o := SendHeld(g, s, s.tx.writer.item);
      o.Next? && o.s.life.phase == s.life.phase
  {
    hide Release, Commit, PollReserve;
  }

  /** The phase never goes back, so the retire hook fires once. */
  lemma PhaseOnlyAdvances(lim: Limits, g: Ledger, s: Stream, a: Act)
    requires Enabled(s, a) && Do(lim, g, s, a).Next?
    ensures var s' := Do(lim, g, s, a).s;
            && Rung(s.life.phase) <= Rung(s'.life.phase) <= Rung(s.life.phase) + 1
            && ((s'.life.phase == Reported) != (s.life.phase == Reported) <==> a == AReport)
  {
    hide OnConsumed, PollReserve, DataReceived, Release, Commit, FailSend, RaiseStreamMax, MarkCancelled, DropStream,
      Flatten, RecvFrame, ConnAdvert, WriteQueue, WriteReserve, PopData, WriterStop, SendHeld;
    match a
    case ARecv(f) => RecvKeepsPhase(g, s, f);
    case AWriteQueue => WritersKeepPhase(g, s);
    case AWriteReserve => WritersKeepPhase(g, s);
    case APopData => WritersKeepPhase(g, s);
    case AWriterStop => WritersKeepPhase(g, s);
    case ASendHeld => WritersKeepPhase(g, s);
    case _ =>
  }

  /** DATA for a stream whose credit was dropped is a violation before the credit engine is
      asked: the engine's answer for a stream it no longer knows is never used. */
  lemma DroppedStreamTakesNoData(lim: Limits, g: Ledger, s: Stream, p: seq<byte>)
    requires Inv(lim, g.peerInit, s) && s.credit.None?
    ensures RecvData(g, s, p) == Violation("DATA after terminal frame")
  {
  }

  /** Unread bytes of one stream never exceed its initial window, whoever the peer is. */
  lemma StreamMemoryBound(lim: Limits, peerInit: int, s: Stream)
    requires LimitsOk(lim) && Inv(lim, peerInit, s)
    ensures |Flatten(s.rx.inbuf)| <= lim.maxStreamData
    ensures s.credit.Some? ==> Unread(s) <= lim.maxStreamData
  {
    hide Trace.Bytes, Trace.End, Trace.Legal, Trace.Announced, QueuedBytes, QueuedGrants, Flatten;
    Empties();
  }

  /** After cancel_read no stream credit is granted, but for the moment between its two lock
      sections: a discard then still advertises, exactly when half a window is due. */
  lemma CreditAfterCancelExactly(lim: Limits, g: Ledger, s: Stream)
    requires Inv(lim, g.peerInit, s) && s.rx.handler.Discarding? && s.rx.cancel && s.credit.Some?
    ensures var n := s.rx.handler.n;
            var r := s.credit.value.recv;
            |Discard(lim, g, s, n, s.rx.handler.retire).s.tx.lifeQ| > |s.tx.lifeQ| <==>
            s.app.Cancelling? && r.consumed + n - r.advertisedAt >= lim.maxStreamData / 2
  {
    hide Trace.Bytes, Trace.End, Trace.Legal, Trace.Announced, QueuedBytes, QueuedGrants, Flatten;
  }

  /** A writer whose channel is closing has nothing to lose: no frame in hand, no terminal frame
      queued, and queued DATA only if it was reset anyway. One whose handle is gone loses no DATA
      and no FIN; it loses the terminal frame exactly when that is a RESET which the STOP_SENDING
      handler has not queued yet, or which is queued and not sent. */
  lemma WriterLosesNothing(lim: Limits, peerInit: int, s: Stream)
    requires Inv(lim, peerInit, s)
    ensures Enabled(s, AWriterStop) ==>
      !s.tx.writer.Holding? && End(s.tx.lifeQ) == NotEnded && (s.tx.drop || s.tx.dataQ == [])
    ensures Enabled(s, AWriterEnd) ==>
      && (!s.tx.drop ==> Trace.Bytes(s.tx.log) == s.tx.accepted)
      && (End(s.tx.log) != s.tx.terminal <==> s.tx.resetDue.Some? || End(s.tx.lifeQ) == ByReset)
  {
    hide Trace.Bytes, Trace.End, Trace.Legal, Trace.Announced, QueuedBytes, QueuedGrants, Flatten;
    Empties();
    assert Trace.Bytes(s.tx.log) + [] + [] == Trace.Bytes(s.tx.log);
  }

  /** While the STOP_SENDING handler is between its halves no other step finishes it or changes what
      it has chosen. */
  lemma StopStaysUnderWay(lim: Limits, g: Ledger, s: Stream, a: Act)
    requires s.rx.handler.Stopping? && Enabled(s, a) && !a.AStopDone? && Do(lim, g, s, a).Next?
    ensures var t := Do(lim, g, s, a).s; t.rx.handler.Stopping? && t.tx.resetDue == s.tx.resetDue
  {
    hide OnConsumed, PollReserve, Release, Commit, FailSend, MarkCancelled, DropStream, PeerStreamRetired, RecvFrame, Flatten;
  }

  // ---- an end without a writer ----

  /** The writer has ended, and no terminal frame of this end is on the wire or will ever be. */
  predicate GaveUp(s: Stream) { s.tx.writer.Stopped? && End(s.tx.log) == NotEnded }

  /** No writer, nothing terminal on the wire, no rung taken. */
  predicate Silent(s: Stream) {
    s.tx.writer.Stopped? && !s.tx.sent && s.life.phase == Live && !s.life.closeDue && !s.life.closeSent && !s.life.closed
  }

  lemma GaveUpIsSilent(lim: Limits, peerInit: int, s: Stream)
    requires Inv(lim, peerInit, s)
    ensures GaveUp(s) <==> Silent(s)
  {
    hide RxInv, CreditInv, QueuedBytes, Trace.Bytes, Flatten;
  }

  /** It stays so: no frame is sent and no rung taken. */
  lemma StaysSilent(lim: Limits, g: Ledger, s: Stream, a: Act)
    requires Silent(s) && Enabled(s, a) && Do(lim, g, s, a).Next?
    ensures Silent(Do(lim, g, s, a).s) && Do(lim, g, s, a).s.tx.log == s.tx.log
  {
    hide OnConsumed, PollReserve, Release, Commit, FailSend, MarkCancelled, DropStream, Flatten, RecvFrame;
    if a.ARecv? { ReceivedSilent(g, s, a.f); }
  }

  lemma ReceivedSilent(g: Ledger, s: Stream, f: Frame)
    requires Silent(s) && RecvFrame(g, s, f).Next?
    ensures Silent(RecvFrame(g, s, f).s) && RecvFrame(g, s, f).s.tx.log == s.tx.log
  {
    hide DataReceived, FailSend, RaiseStreamMax, Flatten;
  }
}
