/** What the state of one stream end says about what came over the wire, and when its writes end. */
module StreamLaws {
  import opened Basics
  import opened Wire
  import opened Trace
  import opened Flow
  import opened Streams
  import opened StreamInv
  import opened StreamSteps
  import opened StreamFacts

  /** The code of the first RESET, and of the first STOP_SENDING. */
  function FirstReset(log: seq<Frame>): Option<nat> {
    if log == [] then None
    else if FirstReset(log[..|log| - 1]).Some? then FirstReset(log[..|log| - 1])
    else if log[|log| - 1].Reset? then Some(log[|log| - 1].code)
    else None
  }

  function FirstStop(log: seq<Frame>): Option<nat> {
    if log == [] then None
    else if FirstStop(log[..|log| - 1]).Some? then FirstStop(log[..|log| - 1])
    else if log[|log| - 1].StopSending? then Some(log[|log| - 1].code)
    else None
  }

  lemma FirstAppend(log: seq<Frame>, f: Frame)
    ensures FirstReset(log + [f]) ==
            if FirstReset(log).Some? then FirstReset(log) else if f.Reset? then Some(f.code) else None
    ensures FirstStop(log + [f]) ==
            if FirstStop(log).Some? then FirstStop(log) else if f.StopSending? then Some(f.code) else None
  {
    assert (log + [f])[..|log|] == log;
  }

  lemma {:induction false} FirstIsThere(log: seq<Frame>)
    ensures FirstReset(log).Some? ==> Reset(FirstReset(log).value) in log
    ensures FirstReset(log).None? ==> forall c :: Reset(c) !in log
    ensures FirstStop(log).Some? ==> StopSending(FirstStop(log).value) in log
    ensures FirstStop(log).None? ==> forall c :: StopSending(c) !in log
  {
    if log != [] {
      var init, f := log[..|log| - 1], log[|log| - 1];
      FirstIsThere(init);
      assert log == init + [f];
    }
  }

  /** A legal trace has at most one RESET. */
  lemma OneReset(log: seq<Frame>, a: nat, b: nat)
    requires Legal(log) && Reset(a) in log && Reset(b) in log
    ensures a == b
  {
    LegalMeansEndsOnce(log);
    var i :| 0 <= i < |log| && log[i] == Reset(a);
    var j :| 0 <= j < |log| && log[j] == Reset(b);
    assert EndingOf(log[i]) != NotEnded && EndingOf(log[j]) != NotEnded;
  }

  /** The codes kept are those of the first frames that carried one. */
  predicate CodesHeard(s: Stream) {
    s.rx.reset == FirstReset(s.rx.log) && s.tx.stop == FirstStop(s.rx.log) && (s.rx.handler.Stopping? ==> s.tx.stop.Some?)
  }

  /** STOP_SENDING has been handled, or a terminal frame has been chosen for good, or the channel has
      closed. */
  predicate WriteOver(s: Stream) {
    || (s.tx.stop.Some? && !s.rx.handler.Stopping?)
    || (s.tx.terminal == ByFin && s.app != ShuttingDown)
    || (s.tx.terminal == ByReset && s.tx.resetDue.None?)
    || s.life.closed
  }

  /** Reservations fail from then on, and not before. */
  predicate FailsExactly(s: Stream) {
    s.credit.Some? ==> (s.credit.value.send.failed <==> WriteOver(s))
  }

  predicate Laws(s: Stream) { CodesHeard(s) && FailsExactly(s) }

  lemma NewIsLawful(lim: Limits, inbound: bool)
    ensures Laws(NewStream(lim, inbound))
  {
  }

  // ---- every step keeps them ----

  /** What a step does to what was heard. */
  lemma HearingKept(lim: Limits, g: Ledger, s: Stream, a: Act)
    requires CodesHeard(s) && Enabled(s, a) && Do(lim, g, s, a).Next?
    ensures CodesHeard(Do(lim, g, s, a).s)
  {
    hide OnConsumed, PollReserve, Release, Commit, FailSend, MarkCancelled, DropStream, Flatten, RecvFrame, FirstReset, FirstStop;
    if a.ARecv? { HeardFrame(g, s, a.f); }
  }

  lemma HeardFrame(g: Ledger, s: Stream, f: Frame)
    requires CodesHeard(s) && s.rx.handler == Idle && RecvFrame(g, s, f).Next?
    ensures CodesHeard(RecvFrame(g, s, f).s)
  {
    FirstAppend(s.rx.log, f);
    hide DataReceived, RaiseStreamMax, Flatten, FirstReset, FirstStop;
  }

  lemma FailingKept(lim: Limits, g: Ledger, s: Stream, a: Act)
    requires Pre(lim, g, s) && Laws(s) && Enabled(s, a) && Do(lim, g, s, a).Next?
    ensures FailsExactly(Do(lim, g, s, a).s)
  {
    NoStoppedShutdown(lim, g, s);
    hide Flatten, RecvFrame, StreamInv.Inv, FirstReset, FirstStop, LedgerOk;
    if a.ARecv? { FailingFrame(g, s, a.f); }
    else if ByApp(a) { hide Do; FailingCall(lim, g, s, a); }
    else { hide Do; FailingTask(lim, g, s, a); }
  }

  lemma FailingFrame(g: Ledger, s: Stream, f: Frame)
    requires Laws(s) && s.rx.handler == Idle && RecvFrame(g, s, f).Next?
    ensures FailsExactly(RecvFrame(g, s, f).s)
  {
    hide Flatten, FirstReset, FirstStop;
  }

  lemma FailingCall(lim: Limits, g: Ledger, s: Stream, a: Act)
    requires Laws(s) && Enabled(s, a) && ByApp(a) && Do(lim, g, s, a).Next?
    requires s.app == ShuttingDown ==> !s.tx.writer.Stopped? && s.tx.terminal == ByFin && !s.life.closed
    requires s.tx.resetDue.Some? ==> s.tx.terminal == ByReset
    ensures FailsExactly(Do(lim, g, s, a).s)
  {
    LawParts(s);
    hide *;
    if a.ARead? || a.AConsume? || a.ACancelRead? || a.ACancelMark? { FailingRead(lim, g, s, a); }
    else if a.AWriteCheck? || a.AWriteReserve? || a.AWriteQueue? || a.ADropHandle? { FailingWrite(lim, g, s, a); }
    else { FailingEnd(lim, g, s, a); }
  }

  lemma LawParts(s: Stream)
    requires Laws(s)
    ensures CodesHeard(s) && FailsExactly(s)
  {
  }

  lemma FailingWrite(lim: Limits, g: Ledger, s: Stream, a: Act)
    requires FailsExactly(s) && Enabled(s, a) && (a.AWriteCheck? || a.AWriteReserve? || a.AWriteQueue? || a.ADropHandle?)
    ensures Do(lim, g, s, a).Next? && FailsExactly(Do(lim, g, s, a).s)
  {
    hide RecvFrame, Sat, StreamAvail, ConnAvail;
  }

  lemma FailingEnd(lim: Limits, g: Ledger, s: Stream, a: Act)
    requires FailsExactly(s) && Enabled(s, a) && ByApp(a) && Do(lim, g, s, a).Next?
    requires !a.ARead? && !a.AConsume? && !a.ACancelRead? && !a.ACancelMark?
    requires !a.AWriteCheck? && !a.AWriteReserve? && !a.AWriteQueue? && !a.ADropHandle?
    requires s.app == ShuttingDown ==> !s.tx.writer.Stopped? && s.tx.terminal == ByFin && !s.life.closed
    requires s.tx.resetDue.Some? ==> s.tx.terminal == ByReset
    ensures FailsExactly(Do(lim, g, s, a).s)
  {
    hide RecvFrame, Consume, CancelMark, CancelRead, Read, WriteReserve, WriteQueue, DropHandle;
  }

  lemma FailingRead(lim: Limits, g: Ledger, s: Stream, a: Act)
    requires FailsExactly(s) && Enabled(s, a) && (a.ARead? || a.AConsume? || a.ACancelRead? || a.ACancelMark?)
    ensures Do(lim, g, s, a).Next? && FailsExactly(Do(lim, g, s, a).s)
  {
    hide Flatten, RecvFrame, Sat;
  }

  lemma FailingTask(lim: Limits, g: Ledger, s: Stream, a: Act)
    requires Laws(s) && Enabled(s, a) && !ByApp(a) && !a.ARecv? && Do(lim, g, s, a).Next?
    ensures FailsExactly(Do(lim, g, s, a).s)
  {
    hide Flatten, RecvFrame, FirstReset, FirstStop, PeerStreamRetired, Sat;
    if a.ASendLife? || a.APopData? || a.ASendHeld? || a.ANote? || a.AWriterStop? || a.AWriterEnd? {
      hide OnConsumed, Discard, StopDone, ChannelClosed, MaybeRetire, Report, CodesHeard;
    } else {
      hide PopData, SendHeld, SendLife, WriterStop, Note, CodesHeard;
      assert s.rx.handler.Stopping? ==> s.tx.stop.Some? by { StoppedBy(s); }
    }
  }

  lemma StoppedBy(s: Stream)
    requires CodesHeard(s)
    ensures s.rx.handler.Stopping? ==> s.tx.stop.Some?
  {
    hide FirstReset, FirstStop;
  }

  /** A shutdown under way finds its writer at work: nothing terminal is on the wire yet. */
  lemma NoStoppedShutdown(lim: Limits, g: Ledger, s: Stream)
    requires Pre(lim, g, s)
    ensures s.app == ShuttingDown ==> !s.tx.writer.Stopped? && s.tx.terminal == ByFin && !s.life.closed
    ensures s.tx.resetDue.Some? ==> s.tx.terminal == ByReset
  {
    hide RxInv, CreditInv, Trace.Bytes, QueuedBytes, Flatten;
  }

  lemma LawsKept(lim: Limits, g: Ledger, s: Stream, a: Act)
    requires Pre(lim, g, s) && Laws(s) && Enabled(s, a) && Do(lim, g, s, a).Next?
    ensures Laws(Do(lim, g, s, a).s)
  {
    hide Do, Enabled, Pre, CodesHeard, FailsExactly;
    HearingKept(lim, g, s, a);
    FailingKept(lim, g, s, a);
  }

  // ---- what they mean ----

  /** Each answer of a read, from what came over the wire. */
  lemma ReadsAnswer(lim: Limits, peerInit: int, s: Stream, room: nat)
    requires Inv(lim, peerInit, s) && Laws(s)
    ensures var r := ReadOutcome(s, room);
            && (r.Chunk? <==> s.rx.inbuf != [])
            && (r == Blocked <==> s.rx.inbuf == [] && !s.rx.cancel && Fin !in s.rx.log && forall c :: Reset(c) !in s.rx.log)
            && (r == Failed <==> s.rx.cancel)
            && (forall c :: r == ResetBy(c) <==> !s.rx.cancel && Reset(c) in s.rx.log)
            && (r.Chunk? ==> r.data == s.rx.inbuf[0] || (|r.data| == room && r.data <= s.rx.inbuf[0]))
  {
    ReadingFacts(lim, peerInit, s);
    FirstIsThere(s.rx.log);
    if s.rx.reset.Some? {
      forall c | Reset(c) in s.rx.log ensures c == s.rx.reset.value { OneReset(s.rx.log, c, s.rx.reset.value); }
    }
    hide Inv, FirstReset, FirstStop, Legal;
  }

  lemma ReadingFacts(lim: Limits, peerInit: int, s: Stream)
    requires Inv(lim, peerInit, s)
    ensures Legal(s.rx.log) && (s.rx.fin <==> Fin in s.rx.log)
    ensures s.rx.cancel || s.rx.reset.Some? ==> s.rx.inbuf == []
    ensures s.life.closed ==> s.PeerEnded()
  {
    EndOfFin(s.rx.log);
    hide TxInv, CreditInv, Trace.Bytes, Trace.End, Flatten;
  }

  /** A write that is let through with no grant in hand is granted all it may put into one frame, or
      what is left of the stream's window or of the connection's. */
  lemma WritesAreWhole(g: Ledger, s: Stream, buf: seq<byte>)
    requires s.tx.grant == 0
    ensures var o := WriteReserve(g, s, buf);
            o.Next? && (o.s.app.Admitted? && !s.app.Admitted? ==>
              && o.s.credit.Some? && 1 <= o.s.tx.grant <= Min(|buf|, 16383)
              && (o.s.tx.grant == Min(|buf|, 16383) || StreamAvail(o.g, o.s.credit.value) == 0 || ConnAvail(o.g) == 0))
  {
    GrantIsWhole(g, s.credit, Min(|buf|, MAX_FRAME_PAYLOAD));
    hide StreamAvail, ConnAvail;
  }
}
