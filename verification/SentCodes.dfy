/** The codes of RESET and STOP_SENDING: over any run of a stream end, those it sends are those it was
    given, none lost, altered or made up. */
module SentCodes {
  import opened Basics
  import opened Wire
  import opened Trace
  import opened Flow
  import opened Streams
  import opened StreamRuns

  function StopCodes(q: seq<Frame>): seq<nat> {
    if q == [] then [] else StopCodes(q[..|q| - 1]) + if q[|q| - 1].StopSending? then [q[|q| - 1].code] else []
  }

  function ResetCodes(q: seq<Frame>): seq<nat> {
    if q == [] then [] else ResetCodes(q[..|q| - 1]) + if q[|q| - 1].Reset? then [q[|q| - 1].code] else []
  }

  lemma CodesPush(q: seq<Frame>, f: Frame)
    ensures StopCodes(q + [f]) == StopCodes(q) + if f.StopSending? then [f.code] else []
    ensures ResetCodes(q + [f]) == ResetCodes(q) + if f.Reset? then [f.code] else []
  {
    assert (q + [f])[..|q|] == q;
  }

  lemma {:induction false} CodesPop(q: seq<Frame>)
    requires q != []
    ensures StopCodes(q) == (if q[0].StopSending? then [q[0].code] else []) + StopCodes(q[1..])
    ensures ResetCodes(q) == (if q[0].Reset? then [q[0].code] else []) + ResetCodes(q[1..])
  {
    var init, f := q[..|q| - 1], q[|q| - 1];
    assert q == init + [f];
    CodesPush(init, f);
    if init == [] {
      assert q[1..] == [];
    } else {
      CodesPop(init);
      assert q[1..] == init[1..] + [f];
      CodesPush(init[1..], f);
    }
  }

  function Code(c: Option<nat>): seq<nat> { if c.Some? then [c.value] else [] }

  function PendingStop(a: App): Option<nat> { if a.Consuming? || a.Cancelling? then a.stop else None }

  /** The codes of every STOP_SENDING this end has sent, queued or is about to queue. */
  function AskedStops(s: Stream): seq<nat> { StopCodes(s.tx.log) + StopCodes(s.tx.lifeQ) + Code(PendingStop(s.app)) }

  /** The same of RESET. */
  function ChosenResets(s: Stream): seq<nat> { ResetCodes(s.tx.log) + ResetCodes(s.tx.lifeQ) + Code(s.tx.resetDue) }

  /** What the step asks for: a cancel before the peer has ended asks it to stop. */
  function NewStop(s: Stream, a: Act): seq<nat> {
    if a.ACancelRead? && !s.PeerEnded() then [a.code] else []
  }

  /** A reset by the application, or a first STOP_SENDING while no terminal is chosen, chooses RESET. */
  function NewReset(s: Stream, a: Act): seq<nat> {
    if a.AResetWrite? then [a.code]
    else if a.ARecv? && a.f.StopSending? && s.tx.stop.None? && s.tx.terminal == NotEnded then [a.f.code]
    else []
  }

  predicate OrderedOnly(s: Stream) {
    && (forall it :: it in s.tx.dataQ ==> it.frame.Data? || it.frame.Fin?)
    && (s.tx.writer.Holding? ==> s.tx.writer.item.frame.Data? || s.tx.writer.item.frame.Fin?)
    && (s.tx.resetDue.Some? ==> s.rx.handler.Stopping? && s.tx.terminal == ByReset)
    && (s.app == ShuttingDown ==> s.tx.terminal == ByFin)
  }

  /** The parts the codes are in. */
  predicate SameCodes(s: Stream, t: Stream) {
    t.tx.log == s.tx.log && t.tx.lifeQ == s.tx.lifeQ && t.tx.resetDue == s.tx.resetDue && PendingStop(t.app) == PendingStop(s.app)
  }

  /** A step neither loses nor alters a code, nor sends one that was not given to it. */
  lemma CodesKept(lim: Limits, g: Ledger, s: Stream, a: Act)
    requires OrderedOnly(s) && Enabled(s, a) && Do(lim, g, s, a).Next?
    ensures var t := Do(lim, g, s, a).s;
            && OrderedOnly(t)
            && AskedStops(t) == AskedStops(s) + NewStop(s, a)
            && ChosenResets(t) == ChosenResets(s) + NewReset(s, a)
  {
    hide *;
    if a.ARecv? { CodesOnFrame(lim, g, s, a.f); }
    else if a.AConsume? { CodesOnConsume(lim, g, s); }
    else if a.ACancelRead? || a.ACancelMark? { CodesOnCancel(lim, g, s, a); }
    else if a.ADiscard? { CodesOnDiscard(lim, g, s); }
    else if a.AStopDone? || a.AResetWrite? { CodesOnReset(lim, g, s, a); }
    else if a.ASendLife? || a.ASendHeld? { CodesOnSend(lim, g, s, a); }
    else { CodesOtherwise(lim, g, s, a); }
  }

  lemma NothingAdded(x: seq<nat>)
    ensures x + [] == x
  {
  }

  lemma CodesOnFrame(lim: Limits, g: Ledger, s: Stream, f: Frame)
    requires OrderedOnly(s) && Enabled(s, ARecv(f)) && Do(lim, g, s, ARecv(f)).Next?
    ensures var t := Do(lim, g, s, ARecv(f)).s;
            OrderedOnly(t) && AskedStops(t) == AskedStops(s) + NewStop(s, ARecv(f)) && ChosenResets(t) == ChosenResets(s) + NewReset(s, ARecv(f))
  {
    FrameParts(lim, g, s, f);
    var t := Do(lim, g, s, ARecv(f)).s;
    hide Do, Enabled, OrderedOnly, NewStop, NewReset, StopCodes, ResetCodes;
    if NewReset(s, ARecv(f)) == [] {
      Unchanged(s, t);
    } else {
      NothingAdded(AskedStops(s));
      NothingAdded(ResetCodes(s.tx.log) + ResetCodes(s.tx.lifeQ));
    }
  }

  lemma FrameParts(lim: Limits, g: Ledger, s: Stream, f: Frame)
    requires OrderedOnly(s) && Enabled(s, ARecv(f)) && Do(lim, g, s, ARecv(f)).Next?
    ensures var t := Do(lim, g, s, ARecv(f)).s;
            && OrderedOnly(t) && NewStop(s, ARecv(f)) == []
            && t.tx.log == s.tx.log && t.tx.lifeQ == s.tx.lifeQ && t.app == s.app
            && (NewReset(s, ARecv(f)) == [] ==> t.tx.resetDue == s.tx.resetDue)
            && (NewReset(s, ARecv(f)) != [] ==> s.tx.resetDue == None && [t.tx.resetDue.GetOr(0)] == NewReset(s, ARecv(f)) && t.tx.resetDue.Some?)
  {
    hide DataReceived, RaiseStreamMax, Flatten;
  }

  /** Queueing an advertisement, or a STOP_SENDING. */
  lemma CodesQueued(s: Stream, adv: Option<nat>, stop: Option<nat>)
    ensures StopCodes(s.WithAdvert(adv).tx.lifeQ) == StopCodes(s.tx.lifeQ)
    ensures ResetCodes(s.WithAdvert(adv).tx.lifeQ) == ResetCodes(s.tx.lifeQ)
    ensures StopCodes(s.WithStop(stop).tx.lifeQ) == StopCodes(s.tx.lifeQ) + Code(stop)
    ensures ResetCodes(s.WithStop(stop).tx.lifeQ) == ResetCodes(s.tx.lifeQ)
  {
    if adv.Some? { CodesPush(s.tx.lifeQ, MaxStreamData(adv.value)); }
    if stop.Some? { CodesPush(s.tx.lifeQ, StopSending(stop.value)); }
    NothingAdded(StopCodes(s.tx.lifeQ));
    NothingAdded(ResetCodes(s.tx.lifeQ));
    hide StopCodes, ResetCodes;
  }

  lemma CodesOnConsume(lim: Limits, g: Ledger, s: Stream)
    requires OrderedOnly(s) && Enabled(s, AConsume) && Do(lim, g, s, AConsume).Next?
    ensures var t := Do(lim, g, s, AConsume).s;
            OrderedOnly(t) && AskedStops(t) == AskedStops(s) + NewStop(s, AConsume) && ChosenResets(t) == ChosenResets(s) + NewReset(s, AConsume)
  {
    var adv := OnConsumed(lim, g, s.credit, s.app.n).streamAdvert;
    CodesQueued(s, adv, None);
    CodesQueued(s.WithAdvert(adv), None, s.app.stop);
    ConsumeParts(lim, g, s, adv);
    hide *;
    StopQueued(s, Do(lim, g, s, AConsume).s);
  }

  lemma ConsumeParts(lim: Limits, g: Ledger, s: Stream, adv: Option<nat>)
    requires OrderedOnly(s) && Enabled(s, AConsume) && adv == OnConsumed(lim, g, s.credit, s.app.n).streamAdvert
    ensures var t := Do(lim, g, s, AConsume).s;
            && OrderedOnly(t) && t.tx.log == s.tx.log && t.tx.resetDue == s.tx.resetDue && PendingStop(t.app) == None
            && PendingStop(s.app) == s.app.stop && t.tx.lifeQ == s.WithAdvert(adv).WithStop(s.app.stop).tx.lifeQ
            && NewStop(s, AConsume) == [] && NewReset(s, AConsume) == []
  {
    hide OnConsumed, RecvFrame;
  }

  /** The pending STOP_SENDING moves to the queue. */
  lemma StopQueued(s: Stream, t: Stream)
    requires t.tx.log == s.tx.log && t.tx.resetDue == s.tx.resetDue && PendingStop(t.app) == None
    requires StopCodes(t.tx.lifeQ) == StopCodes(s.tx.lifeQ) + Code(PendingStop(s.app)) && ResetCodes(t.tx.lifeQ) == ResetCodes(s.tx.lifeQ)
    ensures AskedStops(t) == AskedStops(s) + [] && ChosenResets(t) == ChosenResets(s) + []
  {
    hide StopCodes, ResetCodes;
    Shifted(StopCodes(s.tx.log), StopCodes(s.tx.lifeQ), Code(PendingStop(s.app)));
    NothingAdded(AskedStops(s));
    NothingAdded(ChosenResets(s));
  }

  lemma CodesOnCancel(lim: Limits, g: Ledger, s: Stream, a: Act)
    requires OrderedOnly(s) && Enabled(s, a) && Do(lim, g, s, a).Next? && (a.ACancelRead? || a.ACancelMark?)
    ensures var t := Do(lim, g, s, a).s;
            OrderedOnly(t) && AskedStops(t) == AskedStops(s) + NewStop(s, a) && ChosenResets(t) == ChosenResets(s) + NewReset(s, a)
  {
    if a.ACancelRead? {
      hide StopCodes, ResetCodes, RecvFrame, Flatten;
      NothingAdded(StopCodes(s.tx.log) + StopCodes(s.tx.lifeQ));
      NothingAdded(ChosenResets(s));
    } else {
      MarkParts(lim, g, s);
      CodesQueued(s, None, s.app.stop);
      hide *;
      if s.app.n > 0 { Unchanged(s, Do(lim, g, s, a).s); } else { StopQueued(s, Do(lim, g, s, a).s); }
    }
  }

  lemma MarkParts(lim: Limits, g: Ledger, s: Stream)
    requires OrderedOnly(s) && Enabled(s, ACancelMark)
    ensures var t := Do(lim, g, s, ACancelMark).s;
            && OrderedOnly(t) && t.tx.log == s.tx.log && t.tx.resetDue == s.tx.resetDue && PendingStop(s.app) == s.app.stop
            && (if s.app.n > 0 then SameCodes(s, t)
                else PendingStop(t.app) == None && t.tx.lifeQ == s.WithStop(s.app.stop).tx.lifeQ)
            && NewStop(s, ACancelMark) == [] && NewReset(s, ACancelMark) == []
  {
    hide MarkCancelled, RecvFrame;
  }

  lemma Unchanged(s: Stream, t: Stream)
    requires SameCodes(s, t)
    ensures AskedStops(t) == AskedStops(s) + [] && ChosenResets(t) == ChosenResets(s) + []
  {
    hide StopCodes, ResetCodes;
    NothingAdded(AskedStops(s));
    NothingAdded(ChosenResets(s));
  }

  lemma CodesOnDiscard(lim: Limits, g: Ledger, s: Stream)
    requires OrderedOnly(s) && Enabled(s, ADiscard) && Do(lim, g, s, ADiscard).Next?
    ensures var t := Do(lim, g, s, ADiscard).s;
            OrderedOnly(t) && AskedStops(t) == AskedStops(s) + NewStop(s, ADiscard) && ChosenResets(t) == ChosenResets(s) + NewReset(s, ADiscard)
  {
    var adv := OnConsumed(lim, g, s.credit, s.rx.handler.n).streamAdvert;
    CodesQueued(s, adv, None);
    DiscardParts(lim, g, s, adv);
    var t := Do(lim, g, s, ADiscard).s;
    hide Do, Enabled, OrderedOnly, NewStop, NewReset, StopCodes, ResetCodes, OnConsumed, Stream.WithAdvert;
    NothingAdded(AskedStops(s));
    NothingAdded(ChosenResets(s));
  }

  lemma DiscardParts(lim: Limits, g: Ledger, s: Stream, adv: Option<nat>)
    requires OrderedOnly(s) && Enabled(s, ADiscard) && adv == OnConsumed(lim, g, s.credit, s.rx.handler.n).streamAdvert
    ensures var t := Do(lim, g, s, ADiscard).s;
            && OrderedOnly(t) && t.tx.log == s.tx.log && t.tx.resetDue == s.tx.resetDue && t.app == s.app
            && t.tx.lifeQ == s.WithAdvert(adv).tx.lifeQ
            && NewStop(s, ADiscard) == [] && NewReset(s, ADiscard) == []
  {
    hide OnConsumed, RecvFrame;
  }

  lemma CodesOnReset(lim: Limits, g: Ledger, s: Stream, a: Act)
    requires OrderedOnly(s) && Enabled(s, a) && Do(lim, g, s, a).Next? && (a.AStopDone? || a.AResetWrite?)
    ensures var t := Do(lim, g, s, a).s;
            OrderedOnly(t) && AskedStops(t) == AskedStops(s) + NewStop(s, a) && ChosenResets(t) == ChosenResets(s) + NewReset(s, a)
  {
    var c := if a.AResetWrite? then a.code else s.tx.resetDue.GetOr(0);
    CodesPush(s.tx.lifeQ, Reset(c));
    NothingAdded(AskedStops(s));
    NothingAdded(ChosenResets(s));
    NothingAdded(StopCodes(s.tx.lifeQ));
    Shifted(ResetCodes(s.tx.log), ResetCodes(s.tx.lifeQ), [c]);
    NothingAdded(ResetCodes(s.tx.log) + ResetCodes(s.tx.lifeQ));
    NothingAdded(ResetCodes(s.tx.log) + ResetCodes(s.tx.lifeQ) + [c]);
    hide FailSend, StopCodes, ResetCodes, RecvFrame;
  }

  lemma CodesOnSend(lim: Limits, g: Ledger, s: Stream, a: Act)
    requires OrderedOnly(s) && Enabled(s, a) && Do(lim, g, s, a).Next? && (a.ASendLife? || a.ASendHeld?)
    ensures var t := Do(lim, g, s, a).s;
            OrderedOnly(t) && AskedStops(t) == AskedStops(s) + NewStop(s, a) && ChosenResets(t) == ChosenResets(s) + NewReset(s, a)
  {
    SendParts(lim, g, s, a);
    if a.ASendLife? { hide *; LifeSent(s, Do(lim, g, s, a).s); } else { hide *; HeldSent(s, Do(lim, g, s, a).s); }
  }

  lemma SendParts(lim: Limits, g: Ledger, s: Stream, a: Act)
    requires OrderedOnly(s) && Enabled(s, a) && (a.ASendLife? || a.ASendHeld?)
    ensures var t := Do(lim, g, s, a).s;
            && OrderedOnly(t) && NewStop(s, a) == [] && NewReset(s, a) == []
            && t.tx.resetDue == s.tx.resetDue && t.app == s.app
            && (if a.ASendLife? then s.tx.lifeQ != [] && t.tx.log == s.tx.log + [s.tx.lifeQ[0]] && t.tx.lifeQ == s.tx.lifeQ[1..]
                else && s.tx.writer.Holding? && (s.tx.writer.item.frame.Data? || s.tx.writer.item.frame.Fin?)
                     && t.tx.log == s.tx.log + [s.tx.writer.item.frame] && t.tx.lifeQ == s.tx.lifeQ)
  {
    hide Commit, RecvFrame;
  }

  lemma LifeSent(s: Stream, t: Stream)
    requires s.tx.lifeQ != [] && t.tx.log == s.tx.log + [s.tx.lifeQ[0]] && t.tx.lifeQ == s.tx.lifeQ[1..]
    requires t.tx.resetDue == s.tx.resetDue && t.app == s.app
    ensures AskedStops(t) == AskedStops(s) + [] && ChosenResets(t) == ChosenResets(s) + []
  {
    var f := s.tx.lifeQ[0];
    CodesPush(s.tx.log, f);
    CodesPop(s.tx.lifeQ);
    hide StopCodes, ResetCodes;
    Shifted(StopCodes(s.tx.log), if f.StopSending? then [f.code] else [], StopCodes(s.tx.lifeQ[1..]));
    Shifted(ResetCodes(s.tx.log), if f.Reset? then [f.code] else [], ResetCodes(s.tx.lifeQ[1..]));
    NothingAdded(AskedStops(s));
    NothingAdded(ChosenResets(s));
  }

  lemma HeldSent(s: Stream, t: Stream)
    requires s.tx.writer.Holding? && (s.tx.writer.item.frame.Data? || s.tx.writer.item.frame.Fin?)
    requires t.tx.log == s.tx.log + [s.tx.writer.item.frame] && t.tx.lifeQ == s.tx.lifeQ
    requires t.tx.resetDue == s.tx.resetDue && t.app == s.app
    ensures AskedStops(t) == AskedStops(s) + [] && ChosenResets(t) == ChosenResets(s) + []
  {
    CodesPush(s.tx.log, s.tx.writer.item.frame);
    hide StopCodes, ResetCodes;
    NothingAdded(StopCodes(s.tx.log));
    NothingAdded(ResetCodes(s.tx.log));
    NothingAdded(AskedStops(s));
    NothingAdded(ChosenResets(s));
  }

  lemma Shifted(x: seq<nat>, y: seq<nat>, z: seq<nat>)
    ensures x + (y + z) == x + y + z
  {
  }

  lemma CodesOtherwise(lim: Limits, g: Ledger, s: Stream, a: Act)
    requires OrderedOnly(s) && Enabled(s, a) && Do(lim, g, s, a).Next?
    requires !a.ARecv? && !a.AConsume? && !a.ACancelRead? && !a.ACancelMark? && !a.ADiscard? && !a.AStopDone? && !a.AResetWrite?
    requires !a.ASendLife? && !a.ASendHeld?
    ensures var t := Do(lim, g, s, a).s;
            OrderedOnly(t) && AskedStops(t) == AskedStops(s) + NewStop(s, a) && ChosenResets(t) == ChosenResets(s) + NewReset(s, a)
  {
    assert NewStop(s, a) == [] && NewReset(s, a) == [];
    if ByApp(a) { hide *; CallParts(lim, g, s, a); } else { hide *; TaskParts(lim, g, s, a); }
    Unchanged(s, Do(lim, g, s, a).s);
  }

  lemma CallParts(lim: Limits, g: Ledger, s: Stream, a: Act)
    requires OrderedOnly(s) && Enabled(s, a) && Do(lim, g, s, a).Next?
    requires ByApp(a) && !a.AConsume? && !a.ACancelRead? && !a.ACancelMark? && !a.AResetWrite?
    ensures OrderedOnly(Do(lim, g, s, a).s) && SameCodes(s, Do(lim, g, s, a).s)
  {
    hide PollReserve, Release, FailSend, RecvFrame;
    if a.AQueueFin? || a.AShutdownPoll? || a.AWriteQueue? { hide *; QueueParts(lim, g, s, a); }
    else { hide Consume, CancelMark, CancelRead, QueueFin, ShutdownPoll, WriteQueue, PopData, SendHeld; }
  }

  lemma QueueParts(lim: Limits, g: Ledger, s: Stream, a: Act)
    requires OrderedOnly(s) && Enabled(s, a) && Do(lim, g, s, a).Next? && (a.AQueueFin? || a.AShutdownPoll? || a.AWriteQueue?)
    ensures OrderedOnly(Do(lim, g, s, a).s) && SameCodes(s, Do(lim, g, s, a).s)
  {
    if a.AWriteQueue? { hide *; AcceptParts(lim, g, s); }
    else { hide Release, FailSend, RecvFrame, WriteQueue; }
  }

  lemma AcceptParts(lim: Limits, g: Ledger, s: Stream)
    requires OrderedOnly(s) && Enabled(s, AWriteQueue)
    ensures Do(lim, g, s, AWriteQueue).Next?
    ensures OrderedOnly(Do(lim, g, s, AWriteQueue).s) && SameCodes(s, Do(lim, g, s, AWriteQueue).s)
  {
    hide Release, RecvFrame;
  }

  lemma TaskParts(lim: Limits, g: Ledger, s: Stream, a: Act)
    requires OrderedOnly(s) && Enabled(s, a) && Do(lim, g, s, a).Next?
    requires !ByApp(a) && !a.ARecv? && !a.ADiscard? && !a.AStopDone? && !a.ASendLife? && !a.ASendHeld?
    ensures OrderedOnly(Do(lim, g, s, a).s) && SameCodes(s, Do(lim, g, s, a).s)
  {
    hide Release, FailSend, DropStream, PeerStreamRetired, RecvFrame;
    if s.tx.dataQ != [] {
      assert s.tx.dataQ[0] in s.tx.dataQ && forall it :: it in s.tx.dataQ[1..] ==> it in s.tx.dataQ;
    }
  }

  function StopsGiven(lim: Limits, s: Stream, steps: seq<At>, t: Stream): seq<nat>
    requires Goes(lim, s, steps, t)
    decreases |steps|
  {
    if steps == [] then []
    else NewStop(s, steps[0].a) + StopsGiven(lim, Do(lim, steps[0].g, s, steps[0].a).s, steps[1..], t)
  }

  function ResetsGiven(lim: Limits, s: Stream, steps: seq<At>, t: Stream): seq<nat>
    requires Goes(lim, s, steps, t)
    decreases |steps|
  {
    if steps == [] then []
    else NewReset(s, steps[0].a) + ResetsGiven(lim, Do(lim, steps[0].g, s, steps[0].a).s, steps[1..], t)
  }

  lemma {:induction false} CodesAfter(lim: Limits, s: Stream, steps: seq<At>, t: Stream)
    requires OrderedOnly(s) && Goes(lim, s, steps, t)
    ensures AskedStops(t) == AskedStops(s) + StopsGiven(lim, s, steps, t)
    ensures ChosenResets(t) == ChosenResets(s) + ResetsGiven(lim, s, steps, t)
    decreases |steps|
  {
    if steps == [] {
      NothingAdded(AskedStops(s));
      NothingAdded(ChosenResets(s));
    } else {
      var u := Do(lim, steps[0].g, s, steps[0].a).s;
      CodesKept(lim, steps[0].g, s, steps[0].a);
      CodesAfter(lim, u, steps[1..], t);
      hide Do, Enabled, OrderedOnly, AskedStops, ChosenResets, NewStop, NewReset;
      Shifted(AskedStops(s), NewStop(s, steps[0].a), StopsGiven(lim, u, steps[1..], t));
      Shifted(ChosenResets(s), NewReset(s, steps[0].a), ResetsGiven(lim, u, steps[1..], t));
    }
  }

  /** In every run of a stream the codes it has sent, queued or is about to queue are those it was
      given, in order: STOP_SENDING by cancels before the peer had ended, RESET by resets of the
      application and by a STOP_SENDING that finds no terminal chosen. */
  lemma CodesAreGiven(lim: Limits, inbound: bool, steps: seq<At>, t: Stream)
    requires Goes(lim, NewStream(lim, inbound), steps, t)
    ensures AskedStops(t) == StopsGiven(lim, NewStream(lim, inbound), steps, t)
    ensures ChosenResets(t) == ResetsGiven(lim, NewStream(lim, inbound), steps, t)
  {
    var s := NewStream(lim, inbound);
    assert OrderedOnly(s) && AskedStops(s) == [] && ChosenResets(s) == [];
    hide NewStream, Goes;
    CodesAfter(lim, s, steps, t);
  }
}
