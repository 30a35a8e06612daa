/** What every reachable state of an endpoint guarantees, against any peer at all. */
module EndpointFacts {
  import opened Basics
  import opened Wire
  import opened Trace
  import opened Flow
  import opened Streams
  import opened StreamInv
  import opened StreamFacts
  import opened StreamLaws
  import opened StreamSteps
  import opened Endpoints

  // ---- the limits ----

  lemma LimStays(e: Endpoint, ev: Event)
    requires Possible(e, ev)
    ensures Endpoints.Step(e, ev).lim == e.lim
  {
    hide Do, Enabled;
  }

  lemma {:induction false} LimAfter(e: Endpoint, evs: seq<Event>)
    requires PossibleRun(e, evs)
    ensures Endpoints.After(e, evs).lim == e.lim
    decreases |evs|
  {
    hide Possible, Endpoints.Step;
    if evs != [] {
      LimStays(e, evs[0]);
      LimAfter(Endpoints.Step(e, evs[0]), evs[1..]);
    }
  }

  /** An endpoint's limits are those it was created with, for good. */
  lemma FirstLimits(lim: Limits, e: Endpoint)
    requires LimitsOk(lim) && Reachable(lim, e)
    ensures e.lim == lim && EInv(e)
  {
    ReachableInv(lim, e);
    var evs :| PossibleRun(NewEndpoint(lim), evs) && Endpoints.After(NewEndpoint(lim), evs) == e;
    hide EInv, PossibleRun, Endpoints.After;
    LimAfter(NewEndpoint(lim), evs);
  }

  lemma StreamOf(lim: Limits, e: Endpoint, id: nat)
    requires LimitsOk(lim) && Reachable(lim, e) && id in e.streams
    ensures StreamInv.Inv(lim, e.g.peerInit, e.streams[id])
  {
    FirstLimits(lim, e);
    hide StreamInv.Inv, SumsOk, LimitsAgree, LedgerOk, Reachable;
  }

  // ---- memory and state ----

  /** Unread data and stream state stay within the windows this endpoint announced first. */
  lemma ReceiverIsBounded(lim: Limits, e: Endpoint)
    requires LimitsOk(lim) && Reachable(lim, e)
    ensures Sum(e.streams, UnreadBytes) <= lim.maxData
    ensures Sum(e.streams, SlotHeld) <= lim.maxStreams
    ensures forall id :: id in e.streams ==> |Flatten(e.streams[id].rx.inbuf)| <= lim.maxStreamData
  {
    FirstLimits(lim, e);
    ConnBounds(e);
    hide Reachable, StreamInv.Inv, Sum, EInv, Flatten;
    forall id | id in e.streams ensures |Flatten(e.streams[id].rx.inbuf)| <= lim.maxStreamData {
      StreamOf(lim, e, id);
      StreamMemoryBound(lim, e.g.peerInit, e.streams[id]);
    }
  }

  lemma ConnBounds(e: Endpoint)
    requires EInv(e)
    ensures Sum(e.streams, UnreadBytes) <= e.lim.maxData && Sum(e.streams, SlotHeld) <= e.lim.maxStreams
  {
    hide StreamInv.Inv, Sum, LimitsAgree;
  }

  /** Connection credit is conserved through reset, cancel and retirement: what was received is
      what was consumed plus what is unread, over all streams that ever were. */
  lemma CreditIsConserved(lim: Limits, e: Endpoint)
    requires LimitsOk(lim) && Reachable(lim, e)
    ensures e.g.received == e.g.consumed + Sum(e.streams, UnreadBytes)
    ensures e.g.received == Sum(e.streams, ReceivedBytes) && e.g.sent == Sum(e.streams, SentBytes)
    ensures e.g.reserved == Sum(e.streams, Reserved)
    ensures forall id :: id in e.streams && e.streams[id].credit.Some? ==> LedgerOfStream(e.streams[id])
  {
    ReachableInv(lim, e);
    hide Reachable, StreamInv.Inv, Sum, LedgerOk, LimitsAgree, LedgerOfStream;
    forall id | id in e.streams && e.streams[id].credit.Some? ensures LedgerOfStream(e.streams[id]) {
      StreamOf(lim, e, id);
      StreamLedger(lim, e.g.peerInit, e.streams[id]);
    }
  }

  lemma StreamLedger(lim: Limits, peerInit: int, s: Stream)
    requires StreamInv.Inv(lim, peerInit, s) && s.credit.Some?
    ensures LedgerOfStream(s)
    ensures SendOk(peerInit, s.credit.value.send) && RecvOk(lim.maxStreamData, s.credit.value.recv)
  {
    hide RxInv, TxInv, LifeInv, Trace.Bytes, Trace.Announced, QueuedGrants;
  }

  /** A live stream's counters account for its bytes one by one. */
  ghost predicate LedgerOfStream(s: Stream)
    requires s.credit.Some?
  {
    && s.credit.value.send.reserved == s.tx.grant + QueuedGrants(s.tx.dataQ) + HeldGrant(s.tx.writer)
    && s.credit.value.send.sent == |Trace.Bytes(s.tx.log)|
    && s.credit.value.recv.received == |Trace.Bytes(s.rx.log)|
    && s.credit.value.recv.consumed == s.credit.value.recv.received - Unread(s)
  }

  /** Every counter stays between 0 and MAX_OFFSET at both levels: no unsigned subtraction
      wraps and no sum leaves 64 bits. */
  lemma ArithmeticIsExact(lim: Limits, e: Endpoint)
    requires LimitsOk(lim) && Reachable(lim, e)
    ensures LedgerOk(lim, e.g) && e.g.localMaxData <= MAX_OFFSET && e.g.advertisedMaxStreams <= MAX_OFFSET
    ensures forall id :: id in e.streams && e.streams[id].credit.Some? ==> CountersExact(lim, e.g.peerInit, e.streams[id].credit.value)
  {
    FirstLimits(lim, e);
    LedgerExact(e);
    hide Reachable, StreamInv.Inv, EInv, LedgerOk, CountersExact;
    forall id | id in e.streams && e.streams[id].credit.Some?
      ensures CountersExact(lim, e.g.peerInit, e.streams[id].credit.value)
    {
      StreamOf(lim, e, id);
      StreamExact(lim, e.g.peerInit, e.streams[id]);
    }
  }

  ghost predicate CountersExact(lim: Limits, peerInit: int, c: StreamCredit) {
    && SendOk(peerInit, c.send) && RecvOk(lim.maxStreamData, c.recv)
    && c.send.sent + c.send.reserved <= MAX_OFFSET && c.recv.received <= c.recv.localMax <= MAX_OFFSET
  }

  lemma LedgerExact(e: Endpoint)
    requires EInv(e)
    ensures LedgerOk(e.lim, e.g) && e.g.localMaxData <= MAX_OFFSET && e.g.advertisedMaxStreams <= MAX_OFFSET
    ensures 0 <= e.g.peerInit <= MAX_OFFSET
  {
    hide StreamInv.Inv, SumsOk, LimitsAgree;
  }

  lemma StreamExact(lim: Limits, peerInit: int, s: Stream)
    requires StreamInv.Inv(lim, peerInit, s) && s.credit.Some? && peerInit <= MAX_OFFSET
    ensures CountersExact(lim, peerInit, s.credit.value)
  {
    StreamLedger(lim, peerInit, s);
    hide StreamInv.Inv;
  }

  // ---- every stream of every reachable state ----

  /** Each direction's wire trace is legal and carries a prefix of the accepted bytes, and all of
      them before a FIN. */
  lemma TracesAreLegal(lim: Limits, e: Endpoint, id: nat)
    requires LimitsOk(lim) && Reachable(lim, e) && id in e.streams
    ensures EndsOnce(e.streams[id].tx.log) && EndsOnce(e.streams[id].rx.log)
    ensures Trace.Bytes(e.streams[id].tx.log) <= e.streams[id].tx.accepted
    ensures Fin in e.streams[id].tx.log ==> Trace.Bytes(e.streams[id].tx.log) == e.streams[id].tx.accepted
  {
    StreamOf(lim, e, id);
    hide Reachable;
    LegalTrace(lim, e.g.peerInit, e.streams[id]);
    ReceivedIsLegal(lim, e.g.peerInit, e.streams[id]);
  }

  lemma ReceivedIsLegal(lim: Limits, peerInit: int, s: Stream)
    requires StreamInv.Inv(lim, peerInit, s)
    ensures EndsOnce(s.rx.log)
  {
    LegalMeansEndsOnce(s.rx.log);
  }

  ghost predicate AllLawful(e: Endpoint) { forall id :: id in e.streams ==> Laws(e.streams[id]) }

  lemma StepLawful(e: Endpoint, ev: Event)
    requires EInv(e) && AllLawful(e) && Possible(e, ev)
    ensures AllLawful(Endpoints.Step(e, ev))
  {
    hide EInv, Laws, Do, Enabled;
    match ev
    case OnStream(id, a) =>
      StreamPre(e, id);
      if Do(e.lim, e.g, e.streams[id], a).Next? { LawsKept(e.lim, e.g, e.streams[id], a); }
    case OpenChannel(_) => NewIsLawful(e.lim, false);
    case Incoming(_) => NewIsLawful(e.lim, true);
    case _ =>
  }

  lemma {:induction false} RunLawful(e: Endpoint, evs: seq<Event>)
    requires EInv(e) && AllLawful(e) && PossibleRun(e, evs)
    ensures AllLawful(Endpoints.After(e, evs))
    decreases |evs|
  {
    hide EInv, AllLawful, Possible, Endpoints.Step;
    if evs != [] {
      StepKeeps(e, evs[0]);
      StepLawful(e, evs[0]);
      RunLawful(Endpoints.Step(e, evs[0]), evs[1..]);
    }
  }

  lemma LawOf(lim: Limits, e: Endpoint, id: nat)
    requires LimitsOk(lim) && Reachable(lim, e) && id in e.streams
    ensures Laws(e.streams[id])
  {
    var evs :| PossibleRun(NewEndpoint(lim), evs) && Endpoints.After(NewEndpoint(lim), evs) == e;
    hide Laws, PossibleRun, EInv;
    NewEndpointInv(lim);
    RunLawful(NewEndpoint(lim), evs);
  }

  /** Every answer of a read, from what came over the wire: end of file if and only if FIN came,
      nothing was thrown away and everything before it was read; the peer's reset, with its code, if
      and only if it came and the read was not cancelled; failure if and only if it was; nothing yet
      if and only if nothing is buffered and neither cancel nor a terminal frame has come; otherwise
      the next bytes received, all of the first chunk or as many as there is room for. */
  lemma OutcomesAreExact(lim: Limits, e: Endpoint, id: nat, room: nat)
    requires LimitsOk(lim) && Reachable(lim, e) && id in e.streams
    ensures var s, r := e.streams[id], ReadOutcome(e.streams[id], room);
            && (r == Eof <==> Fin in s.rx.log && !s.rx.cancel && s.rx.read == Trace.Bytes(s.rx.log))
            && (r == Blocked <==> s.rx.inbuf == [] && !s.rx.cancel && Fin !in s.rx.log && forall c :: Reset(c) !in s.rx.log)
            && (r == Failed <==> s.rx.cancel)
            && (forall c :: r == ResetBy(c) <==> !s.rx.cancel && Reset(c) in s.rx.log)
            && (r.Chunk? <==> s.rx.inbuf != [])
            && (r.Chunk? ==> s.rx.read + r.data <= Trace.Bytes(s.rx.log))
            && (r.Chunk? ==> r.data == s.rx.inbuf[0] || (|r.data| == room && r.data <= s.rx.inbuf[0]))
  {
    StreamOf(lim, e, id);
    LawOf(lim, e, id);
    hide Reachable, Laws;
    EofExactly(lim, e.g.peerInit, e.streams[id], room);
    ReadsAreExact(lim, e.g.peerInit, e.streams[id], room);
    ReadsAnswer(lim, e.g.peerInit, e.streams[id], room);
    hide StreamInv.Inv, ReadOutcome;
  }

  /** A request for credit is refused exactly once the stream's write half is over: STOP_SENDING was
      handled, a terminal frame was chosen for good, or the channel has closed. */
  lemma WritesEndExactly(lim: Limits, e: Endpoint, id: nat, want: nat)
    requires LimitsOk(lim) && Reachable(lim, e) && id in e.streams && e.streams[id].credit.Some? && !e.g.failed
    ensures PollReserve(e.g, e.streams[id].credit, want).1.Refused? <==> WriteOver(e.streams[id])
  {
    LawOf(lim, e, id);
    GrantIsWhole(e.g, e.streams[id].credit, want);
    hide Reachable, CodesHeard, WriteOver;
  }

  // ---- what ends the connection ----

  /** The frame breaks a rule: more of a write half that has ended, or DATA past a window. */
  ghost predicate BreaksFrame(e: Endpoint, s: Stream, f: Frame) {
    || ((f.Data? || EndingOf(f) != NotEnded) && End(s.rx.log) != NotEnded)
    || (f.Data? && |Trace.Bytes(s.rx.log)| + |f.payload| > Max(e.lim.maxStreamData, Max(Announced(s.tx.log), Announced(s.tx.lifeQ))))
    || (f.Data? && Sum(e.streams, ReceivedBytes) + |f.payload| > Max(e.lim.maxData, AnnouncedData(e.ctl)))
  }

  /** The control message ends the connection: it says so, or HELLO is not first, once and of our
      version. */
  predicate BreaksControl(e: Endpoint, m: Control) {
    match m
    case Close(_) => true
    case Hello(v, _) => e.rctl != [] || v != WIRE_VERSION
    case _ => e.rctl == []
  }

  ghost predicate Breaks(e: Endpoint, ev: Event) {
    match ev
    case OnStream(id, ARecv(f)) => id in e.streams && BreaksFrame(e, e.streams[id], f)
    case OnStream(id, AClosed) => id in e.streams && !e.streams[id].WireComplete()
    case RecvControl(m) => BreaksControl(e, m)
    case Incoming(_) => Sum(e.streams, OneIfInbound) >= Max(e.lim.maxStreams, AnnouncedStreams(e.ctl))
    case _ => false
  }

  /** Against any peer, the connection ends at exactly those events; whatever else comes is taken. */
  lemma DiesExactly(lim: Limits, e: Endpoint, ev: Event)
    requires LimitsOk(lim) && Reachable(lim, e) && Possible(e, ev)
    ensures Endpoints.Step(e, ev).g.failed <==> Breaks(e, ev)
    ensures ev.RecvControl? && !Breaks(e, ev) ==> Endpoints.Step(e, ev).rctl == e.rctl + [ev.m]
    ensures ev.OnStream? && ev.a.ARecv? && !Breaks(e, ev) ==>
      ev.id in Endpoints.Step(e, ev).streams && Endpoints.Step(e, ev).streams[ev.id].rx.log == e.streams[ev.id].rx.log + [ev.a.f]
  {
    ReachableInv(lim, e);
    hide Reachable;
    match ev
    case OnStream(id, a) => StreamOf(lim, e, id); StreamDies(e, id, a);
    case RecvControl(m) => ControlDies(e, m);
    case Incoming(id) => ChannelDies(e, id);
    case _ => hide EInv, Do, Enabled;
  }

  lemma StreamDies(e: Endpoint, id: nat, a: Act)
    requires EInv(e) && Possible(e, OnStream(id, a)) && StreamInv.Inv(e.lim, e.g.peerInit, e.streams[id])
    ensures Endpoints.Step(e, OnStream(id, a)).g.failed <==> Breaks(e, OnStream(id, a))
    ensures a.ARecv? && !Breaks(e, OnStream(id, a)) ==>
      id in Endpoints.Step(e, OnStream(id, a)).streams
      && Endpoints.Step(e, OnStream(id, a)).streams[id].rx.log == e.streams[id].rx.log + [a.f]
  {
    OnlyArrivals(e.lim, e.g, e.streams[id], a);
    StepFails(e, id, a);
    hide Do, Enabled, EInv, StreamInv.Inv, Sum, Endpoints.Step, BreaksFrame, RecvFrame;
    if a.ARecv? { FrameDies(e, e.streams[id], a.f); }
  }

  lemma FrameDies(e: Endpoint, s: Stream, f: Frame)
    requires EInv(e) && StreamInv.Inv(e.lim, e.g.peerInit, s)
    ensures RecvFrame(e.g, s, f).Violation? <==> BreaksFrame(e, s, f)
    ensures RecvFrame(e.g, s, f).Next? ==> RecvFrame(e.g, s, f).s.rx.log == s.rx.log + [f]
  {
    ConnIs(e);
    RecvDies(e.lim, e.g, s, f);
    hide EInv, StreamInv.Inv, Sum, AnnouncedData, RecvFrame;
  }

  /** The endpoint fails at exactly the stream's violations. */
  lemma StepFails(e: Endpoint, id: nat, a: Act)
    requires EInv(e) && Possible(e, OnStream(id, a))
    ensures Endpoints.Step(e, OnStream(id, a)).g.failed <==> Do(e.lim, e.g, e.streams[id], a).Violation?
    ensures Do(e.lim, e.g, e.streams[id], a).Next? ==>
      id in Endpoints.Step(e, OnStream(id, a)).streams
      && Endpoints.Step(e, OnStream(id, a)).streams[id] == Do(e.lim, e.g, e.streams[id], a).s
  {
    StreamPre(e, id);
    DoKeeps(e.lim, e.g, e.streams[id], a);
    hide Do, Enabled, EInv, StreamInv.Inv, LedgerOk;
  }

  lemma ConnIs(e: Endpoint)
    requires EInv(e)
    ensures e.g.received == Sum(e.streams, ReceivedBytes) && e.g.localMaxData == Max(e.lim.maxData, AnnouncedData(e.ctl))
    ensures e.g.peerOpened == Sum(e.streams, OneIfInbound)
    ensures e.g.advertisedMaxStreams == Max(e.lim.maxStreams, AnnouncedStreams(e.ctl))
    ensures e.helloSeen == (e.rctl != [])
  {
    hide StreamInv.Inv, Sum, AnnouncedData, AnnouncedStreams;
  }

  /** A step that nothing brought is no violation, and a close is one exactly if it comes too soon. */
  lemma OnlyArrivals(lim: Limits, g: Ledger, s: Stream, a: Act)
    requires Enabled(s, a)
    ensures !a.ARecv? && !a.AClosed? ==> Do(lim, g, s, a).Next?
    ensures a.AClosed? ==> (Do(lim, g, s, a).Violation? <==> !s.WireComplete())
    ensures a.ARecv? ==> Do(lim, g, s, a) == RecvFrame(g, s, a.f)
  {
    hide OnConsumed, PollReserve, Release, Commit, FailSend, MarkCancelled, DropStream, Flatten, RecvFrame;
  }

  lemma RecvDies(lim: Limits, g: Ledger, s: Stream, f: Frame)
    requires StreamInv.Inv(lim, g.peerInit, s)
    ensures RecvFrame(g, s, f).Violation? <==>
      || ((f.Data? || EndingOf(f) != NotEnded) && End(s.rx.log) != NotEnded)
      || (f.Data? && |Trace.Bytes(s.rx.log)| + |f.payload| > Max(lim.maxStreamData, Max(Announced(s.tx.log), Announced(s.tx.lifeQ))))
      || (f.Data? && g.received + |f.payload| > g.localMaxData)
    ensures RecvFrame(g, s, f).Next? ==> RecvFrame(g, s, f).s.rx.log == s.rx.log + [f]
  {
    hide TxInv, Trace.Bytes, Trace.End, Trace.Legal, Trace.Announced, Flatten, QueuedBytes, QueuedGrants;
  }

  lemma ControlDies(e: Endpoint, m: Control)
    requires EInv(e) && Possible(e, RecvControl(m))
    ensures Endpoints.Step(e, RecvControl(m)).g.failed <==> BreaksControl(e, m)
    ensures !BreaksControl(e, m) ==> Endpoints.Step(e, RecvControl(m)).rctl == e.rctl + [m]
  {
    ConnIs(e);
    hide EInv, Do, Enabled;
  }

  lemma ChannelDies(e: Endpoint, id: nat)
    requires EInv(e) && Possible(e, Incoming(id))
    ensures Endpoints.Step(e, Incoming(id)).g.failed <==> Breaks(e, Incoming(id))
  {
    ConnIs(e);
    SlotDies(e, id);
    hide EInv, Sum, AnnouncedStreams, Endpoints.Step;
  }

  lemma SlotDies(e: Endpoint, id: nat)
    requires Possible(e, Incoming(id))
    ensures Endpoints.Step(e, Incoming(id)).g.failed <==> e.g.peerOpened >= e.g.advertisedMaxStreams
  {
    hide Do, Enabled, TakeControl, NewStream;
  }

  /** The ladder never stalls and never runs ahead: with both terminals on the wire and nothing
      unread the next rung was taken or a check is owed, whichever event came last; and no rung is
      taken before. */
  lemma LadderIsExact(lim: Limits, e: Endpoint, id: nat)
    requires LimitsOk(lim) && Reachable(lim, e) && id in e.streams
    ensures var s := e.streams[id];
            && (s.WireComplete() && s.Drained() && !CheckOwed(s) ==>
                  if s.life.closed then s.life.phase != Live else s.life.closeDue || s.life.closeSent)
            && (s.life.closeDue || s.life.closeSent || s.life.phase != Live ==> s.WireComplete() && s.Drained())
            && (s.life.phase != Live ==> s.life.closed)
            && (s.WireComplete() ==> End(s.tx.log) != NotEnded && End(s.rx.log) != NotEnded)
  {
    StreamOf(lim, e, id);
    hide Reachable, CreditInv, Flatten, QueuedBytes, QueuedGrants, Trace.Bytes, Trace.End, Trace.Legal;
  }
}
