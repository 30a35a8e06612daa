/** One endpoint of a connection: its streams share one ledger. Nothing is assumed here about
    the peer but that its messages went through the decoder. */
module Endpoints {
  import opened Basics
  import opened Wire
  import opened Trace
  import opened Flow
  import opened Streams
  import opened StreamInv
  import opened StreamSteps
  import opened StreamFacts

  // ---- control traces ----

  function DataLimitOf(m: Control): nat {
    match m case Hello(_, l) => l.maxData case MaxData(v) => v case _ => 0
  }

  function StreamLimitOf(m: Control): nat {
    match m case Hello(_, l) => l.maxStreams case MaxStreams(v) => v case _ => 0
  }

  function AnnouncedData(ctl: seq<Control>): nat {
    if ctl == [] then 0 else Max(AnnouncedData(ctl[..|ctl| - 1]), DataLimitOf(ctl[|ctl| - 1]))
  }

  function AnnouncedStreams(ctl: seq<Control>): nat {
    if ctl == [] then 0 else Max(AnnouncedStreams(ctl[..|ctl| - 1]), StreamLimitOf(ctl[|ctl| - 1]))
  }

  predicate IsCredit(m: Control) { m.MaxData? || m.MaxStreams? }

  /** HELLO of our version comes first, then only credit. */
  predicate OpenedByHello(ctl: seq<Control>) {
    ctl == [] || (
      ctl[0].Hello? && ctl[0].version == WIRE_VERSION && forall i :: 1 <= i < |ctl| ==> IsCredit(ctl[i]))
  }

  function InitialWindow(ctl: seq<Control>): nat {
    if ctl != [] && ctl[0].Hello? then ctl[0].limits.maxStreamData else 0
  }

  lemma AppendControl(ctl: seq<Control>, m: Control)
    ensures AnnouncedData(ctl + [m]) == Max(AnnouncedData(ctl), DataLimitOf(m))
    ensures AnnouncedStreams(ctl + [m]) == Max(AnnouncedStreams(ctl), StreamLimitOf(m))
  {
    assert (ctl + [m])[..|ctl|] == ctl;
  }

  lemma {:induction false} ControlPrefix(a: seq<Control>, b: seq<Control>)
    requires a <= b
    ensures AnnouncedData(a) <= AnnouncedData(b) && AnnouncedStreams(a) <= AnnouncedStreams(b)
  {
    if a != b {
      var init := b[..|b| - 1];
      assert b == init + [b[|b| - 1]] && a <= init;
      ControlPrefix(a, init);
      AppendControl(init, b[|b| - 1]);
    }
  }

  // ---- the endpoint ----

  datatype Endpoint = Endpoint(
    lim: Limits, g: Ledger, helloSent: bool, helloSeen: bool,
    ctl: seq<Control>, rctl: seq<Control>, streams: map<nat, Stream>)
  {
    predicate Established() { helloSent && helloSeen }

    /** A wire violation ends the connection: nothing happens afterwards. */
    function Dead(): Endpoint { this.(g := g.(failed := true)) }
  }

  function NewEndpoint(lim: Limits): Endpoint {
    Endpoint(lim, NewLedger(lim), false, false, [], [], map[])
  }

  datatype Event =
    | OnStream(id: nat, a: Act)
    | SendHello
    | RecvControl(m: Control)
    | TakeSlot
    | GiveBackSlot
    | OpenChannel(id: nat)
    | Incoming(id: nat)

  predicate Possible(e: Endpoint, ev: Event) {
    !e.g.failed &&
    match ev
    case OnStream(id, a) =>
      id in e.streams && Enabled(e.streams[id], a) && InputOk(a) && (ByApp(a) ==> e.Established())
    case SendHello => !e.helloSent
    case RecvControl(m) => ControlOk(m)
    case TakeSlot => e.Established() && ReserveSlot(e.g).1.Granted?
    case GiveBackSlot => e.g.streamsReserved >= 1
    case OpenChannel(id) => e.g.streamsReserved >= 1 && id !in e.streams && e.Established()
    case Incoming(id) => id !in e.streams
  }

  function TakeControl(e: Endpoint, m: Control): Endpoint {
    match m
    case Hello(v, l) =>
      if e.helloSeen || v != WIRE_VERSION then e.Dead()
      else e.(g := OnHello(e.g, l), helloSeen := true, rctl := e.rctl + [m])
    case Close(_) => e.Dead()
    case MaxData(v) =>
      if !e.helloSeen then e.Dead() else e.(g := RaiseMaxData(e.g, v), rctl := e.rctl + [m])
    case MaxStreams(v) =>
      if !e.helloSeen then e.Dead() else e.(g := RaiseMaxStreams(e.g, v), rctl := e.rctl + [m])
  }

  function Step(e: Endpoint, ev: Event): Endpoint
    requires Possible(e, ev)
  {
    match ev
    case OnStream(id, a) =>
      (match Do(e.lim, e.g, e.streams[id], a)
       case Next(g, s, ctl) => e.(g := g, streams := e.streams[id := s], ctl := e.ctl + ctl)
       case Violation(_) => e.Dead())
    case SendHello => e.(helloSent := true, ctl := e.ctl + [Hello(WIRE_VERSION, e.lim)])
    case RecvControl(m) => TakeControl(e, m)
    case TakeSlot => e.(g := ReserveSlot(e.g).0)
    case GiveBackSlot => e.(g := ReleaseSlot(e.g))
    case OpenChannel(id) => e.(g := CommitSlot(e.g), streams := e.streams[id := NewStream(e.lim, false)])
    case Incoming(id) =>
      (match PeerStreamOpened(e.g)
       case Ok(g) => e.(g := g, streams := e.streams[id := NewStream(e.lim, true)])
       case Err(_) => e.Dead())
  }

  // ---- sums over the streams ----

  ghost function Tally(m: map<nat, Stream>, f: Stream -> int): map<nat, int> {
    map id | id in m :: f(m[id])
  }

  ghost function Sum(m: map<nat, Stream>, f: Stream -> int): int { Total(Tally(m, f)) }

  lemma SumUpdate(m: map<nat, Stream>, f: Stream -> int, id: nat, s: Stream)
    ensures Sum(m[id := s], f) == Sum(m, f) + f(s) - (if id in m then f(m[id]) else 0)
  {
    TotalUpdate(Tally(m, f), id, f(s));
    assert Tally(m[id := s], f) == Tally(m, f)[id := f(s)];
  }

  lemma SumEntry(m: map<nat, Stream>, f: Stream -> int, id: nat)
    requires id in m && forall j :: j in m ==> 0 <= f(m[j])
    ensures 0 <= f(m[id]) <= Sum(m, f)
  {
    TotalEntry(Tally(m, f), id);
  }

  function SentBytes(s: Stream): int { |Trace.Bytes(s.tx.log)| }

  function ReceivedBytes(s: Stream): int { |Trace.Bytes(s.rx.log)| }

  function UnreadBytes(s: Stream): int { Unread(s) }

  function OneIfInbound(s: Stream): int { if s.inbound then 1 else 0 }

  function OneIfOutbound(s: Stream): int { if s.inbound then 0 else 1 }

  /** A peer-initiated stream holds its slot until it is reported retired. */
  function SlotHeld(s: Stream): int { if s.inbound && s.life.phase != Reported then 1 else 0 }

  // ---- the invariant ----

  /** The connection's counters are the sums of its streams', dead or alive. */
  ghost predicate SumsOk(e: Endpoint) {
    && e.g.reserved == Sum(e.streams, Reserved)
    && e.g.sent == Sum(e.streams, SentBytes)
    && e.g.received == Sum(e.streams, ReceivedBytes)
    && e.g.received - e.g.consumed == Sum(e.streams, UnreadBytes)
    && e.g.peerOpened == Sum(e.streams, OneIfInbound)
    && e.g.streamsOpened == Sum(e.streams, OneIfOutbound)
    && e.g.peerOpened - e.g.peerRetired == Sum(e.streams, SlotHeld)
  }

  /** Send-side limits are what the peer announced; our own are what we announced. */
  ghost predicate LimitsAgree(e: Endpoint) {
    && OpenedByHello(e.rctl) && e.helloSeen == (e.rctl != [])
    && e.g.peerInit == InitialWindow(e.rctl)
    && e.g.peerMaxData == AnnouncedData(e.rctl)
    && e.g.peerMaxStreams == AnnouncedStreams(e.rctl)
    && e.g.localMaxData == Max(e.lim.maxData, AnnouncedData(e.ctl))
    && e.g.advertisedMaxStreams == Max(e.lim.maxStreams, AnnouncedStreams(e.ctl))
    && OwnControl(e.lim, e.ctl)
  }

  /** Everything we put on the control channel is well-formed, and every HELLO is our own. */
  ghost predicate OwnControl(lim: Limits, ctl: seq<Control>) {
    forall m :: m in ctl ==> ControlOk(m) && (m.Hello? ==> m == Hello(WIRE_VERSION, lim)) && !m.Close?
  }

  ghost predicate StreamsOk(e: Endpoint) {
    forall id :: id in e.streams ==> StreamInv.Inv(e.lim, e.g.peerInit, e.streams[id])
  }

  ghost predicate EInv(e: Endpoint) {
    LimitsOk(e.lim) && LedgerOk(e.lim, e.g) && SumsOk(e) && LimitsAgree(e) && StreamsOk(e)
  }

  // ---- preservation ----

  lemma StreamPre(e: Endpoint, id: nat)
    requires EInv(e) && id in e.streams
    ensures Pre(e.lim, e.g, e.streams[id])
  {
    hide StreamInv.Inv, LedgerOk, LimitsAgree;
    forall j | j in e.streams ensures 0 <= Reserved(e.streams[j]) {
      ReservedNat(e.lim, e.g.peerInit, e.streams[j]);
    }
    SumEntry(e.streams, Reserved, id);
    SumEntry(e.streams, UnreadBytes, id);
    SumEntry(e.streams, SlotHeld, id);
  }

  /** What a stream step appends to the control channel. */
  lemma ControlOut(lim: Limits, g: Ledger, s: Stream, a: Act)
    requires Pre(lim, g, s) && Enabled(s, a) && InputOk(a) && Do(lim, g, s, a).Next?
    ensures var o := Do(lim, g, s, a);
            && |o.ctl| <= 1 && (forall m :: m in o.ctl ==> IsCredit(m) && ControlOk(m))
            && o.g.localMaxData == Max(g.localMaxData, AnnouncedData(o.ctl))
            && o.g.advertisedMaxStreams == Max(g.advertisedMaxStreams, AnnouncedStreams(o.ctl))
  {
    hide Trace.Bytes, Trace.End, Trace.Legal, Trace.Announced, Flatten, QueuedBytes, QueuedGrants;
    hide RxInv, TxInv, LifeInv;
    match a
    case ADiscard => ConsumeOut(lim, g, s, s.rx.handler.n);
    case AConsume => ConsumeOut(lim, g, s, s.app.n);
    case AReport => ReportOut(lim, g, s);
    case ARecv(f) => QuietRecv(g, s, f);
    case _ => QuietAct(lim, g, s, a);
  }

  lemma ConsumeOut(lim: Limits, g: Ledger, s: Stream, n: nat)
    requires Pre(lim, g, s) && n <= HandlerHand(s.rx.handler) + AppHand(s.app)
    ensures var u := OnConsumed(lim, g, s.credit, n);
            var ctl := ConnAdvert(u.connAdvert);
            && u.g.localMaxData == Max(g.localMaxData, AnnouncedData(ctl))
            && u.g.advertisedMaxStreams == Max(g.advertisedMaxStreams, AnnouncedStreams(ctl))
            && (forall m :: m in ctl ==> IsCredit(m) && ControlOk(m))
  {
    ConsumePre(lim, g, s, n);
    hide OnConsumed, Pre;
    var u := OnConsumed(lim, g, s.credit, n);
    if u.connAdvert.Some? { AppendControl([], MaxData(u.connAdvert.value)); }
  }

  lemma ReportOut(lim: Limits, g: Ledger, s: Stream)
    requires LimitsOk(lim) && LedgerOk(lim, g)
    ensures var o := Report(lim, g, s);
            && o.g.localMaxData == Max(g.localMaxData, AnnouncedData(o.ctl))
            && o.g.advertisedMaxStreams == Max(g.advertisedMaxStreams, AnnouncedStreams(o.ctl))
            && (forall m :: m in o.ctl ==> IsCredit(m) && ControlOk(m))
  {
    AppendControl([], MaxStreams(Limit(PeerStreamRetired(lim, g).advertisedMaxStreams)));
  }

  lemma QuietRecv(g: Ledger, s: Stream, f: Frame)
    ensures var o := RecvFrame(g, s, f);
            o.Next? ==> o.ctl == [] && o.g.localMaxData == g.localMaxData && o.g.advertisedMaxStreams == g.advertisedMaxStreams
  {
    hide Flatten;
  }

  lemma QuietAct(lim: Limits, g: Ledger, s: Stream, a: Act)
    requires Enabled(s, a) && !a.ADiscard? && !a.AConsume? && !a.AReport? && !a.ARecv?
    ensures var o := Do(lim, g, s, a);
            o.Next? ==> o.ctl == [] && o.g.localMaxData == g.localMaxData && o.g.advertisedMaxStreams == g.advertisedMaxStreams
  {
    hide Flatten, RecvFrame, OnConsumed;
  }

  lemma StreamStepKeeps(e: Endpoint, id: nat, a: Act)
    requires EInv(e) && Possible(e, OnStream(id, a))
    ensures EInv(Step(e, OnStream(id, a)))
  {
    hide StreamInv.Inv, LedgerOk, LimitsAgree, SumsOk, Do, Enabled, Moves;
    var s := e.streams[id];
    StreamPre(e, id);
    DoKeeps(e.lim, e.g, s, a);
    if Do(e.lim, e.g, s, a).Next? {
      ControlOut(e.lim, e.g, s, a);
      var o := Do(e.lim, e.g, s, a);
      MovedSums(e, id, o.g, o.s, o.ctl);
      SamePeerLimits(e.g, s, o.g, o.s);
      MovedLimits(e, id, o.g, o.s, o.ctl);
    } else {
      DeadKeeps(e);
    }
  }

  lemma SamePeerLimits(g: Ledger, s: Stream, g': Ledger, s': Stream)
    requires Moves(g, s, g', s')
    ensures g'.peerInit == g.peerInit && g'.peerMaxData == g.peerMaxData && g'.peerMaxStreams == g.peerMaxStreams
  {
  }

  /** Dying changes no counter. */
  lemma DeadKeeps(e: Endpoint)
    requires EInv(e)
    ensures EInv(e.Dead())
  {
    hide StreamInv.Inv, Sum, AnnouncedData, AnnouncedStreams, InitialWindow;
  }

  lemma MovedSums(e: Endpoint, id: nat, g: Ledger, s: Stream, ctl: seq<Control>)
    requires SumsOk(e) && id in e.streams && Moves(e.g, e.streams[id], g, s)
    ensures SumsOk(e.(g := g, streams := e.streams[id := s], ctl := e.ctl + ctl))
  {
    hide Trace.Bytes, Unread, Sum;
    SumUpdate(e.streams, Reserved, id, s);
    SumUpdate(e.streams, SentBytes, id, s);
    SumUpdate(e.streams, ReceivedBytes, id, s);
    SumUpdate(e.streams, UnreadBytes, id, s);
    SumUpdate(e.streams, OneIfInbound, id, s);
    SumUpdate(e.streams, OneIfOutbound, id, s);
    SumUpdate(e.streams, SlotHeld, id, s);
  }

  lemma MovedLimits(e: Endpoint, id: nat, g: Ledger, s: Stream, ctl: seq<Control>)
    requires LimitsAgree(e)
    requires g.peerInit == e.g.peerInit && g.peerMaxData == e.g.peerMaxData && g.peerMaxStreams == e.g.peerMaxStreams
    requires |ctl| <= 1 && forall m :: m in ctl ==> IsCredit(m) && ControlOk(m)
    requires g.localMaxData == Max(e.g.localMaxData, AnnouncedData(ctl))
    requires g.advertisedMaxStreams == Max(e.g.advertisedMaxStreams, AnnouncedStreams(ctl))
    ensures LimitsAgree(e.(g := g, streams := e.streams[id := s], ctl := e.ctl + ctl))
  {
    AppendAtMostOne(e.ctl, ctl);
    hide OpenedByHello, InitialWindow, AnnouncedData, AnnouncedStreams;
  }

  lemma AppendAtMostOne(ctl: seq<Control>, more: seq<Control>)
    requires |more| <= 1
    ensures AnnouncedData(ctl + more) == Max(AnnouncedData(ctl), AnnouncedData(more))
    ensures AnnouncedStreams(ctl + more) == Max(AnnouncedStreams(ctl), AnnouncedStreams(more))
  {
    if more == [] {
      assert ctl + more == ctl;
    } else {
      assert more == [more[0]] && [] + [more[0]] == more;
      AppendControl(ctl, more[0]);
      AppendControl([], more[0]);
    }
  }

  lemma ControlKeeps(e: Endpoint, m: Control)
    requires EInv(e) && Possible(e, RecvControl(m))
    ensures EInv(Step(e, RecvControl(m)))
  {
    hide StreamInv.Inv, Sum, AnnouncedData, AnnouncedStreams;
    var e' := Step(e, RecvControl(m));
    if e' == e.Dead() {
      DeadKeeps(e);
    } else {
      ControlLimits(e, m);
      forall id | id in e.streams ensures StreamInv.Inv(e.lim, e'.g.peerInit, e.streams[id]) {
        if m.Hello? { HelloKeeps(e.lim, e'.g.peerInit, e.streams[id]); }
      }
    }
  }

  lemma ControlLimits(e: Endpoint, m: Control)
    requires LimitsAgree(e) && LedgerOk(e.lim, e.g) && ControlOk(m) && TakeControl(e, m) != e.Dead()
    ensures LimitsAgree(TakeControl(e, m)) && LedgerOk(e.lim, TakeControl(e, m).g)
    ensures m.Hello? ==> e.g.peerInit == 0
    ensures !m.Hello? ==> TakeControl(e, m).g.peerInit == e.g.peerInit
  {
    AppendControl(e.rctl, m);
    if m.Hello? {
      FirstHello(e, m);
    } else {
      hide LedgerOk;
      RaisedLedger(e.lim, e.g, m);
      assert (e.rctl + [m])[0] == e.rctl[0];
      hide AnnouncedData, AnnouncedStreams, OwnControl;
    }
  }

  lemma FirstHello(e: Endpoint, m: Control)
    requires LimitsAgree(e) && LedgerOk(e.lim, e.g) && ControlOk(m) && m.Hello? && TakeControl(e, m) != e.Dead()
    ensures LimitsAgree(TakeControl(e, m)) && LedgerOk(e.lim, TakeControl(e, m).g) && e.g.peerInit == 0
  {
    assert e.rctl == [] && e.rctl + [m] == [m];
    AppendControl([], m);
    assert AnnouncedData([]) == 0 && AnnouncedStreams([]) == 0 && [] + [m] == [m];
    hide AnnouncedData, AnnouncedStreams, OwnControl;
  }

  lemma RaisedLedger(lim: Limits, g: Ledger, m: Control)
    requires LedgerOk(lim, g) && ControlOk(m)
    ensures m.MaxData? ==> LedgerOk(lim, RaiseMaxData(g, m.limit))
    ensures m.MaxStreams? ==> LedgerOk(lim, RaiseMaxStreams(g, m.limit))
  {
  }

  lemma OpeningKeeps(e: Endpoint, ev: Event)
    requires EInv(e) && Possible(e, ev) && (ev.OpenChannel? || ev.Incoming?)
    ensures EInv(Step(e, ev))
  {
    hide StreamInv.Inv, Unread, Trace.Bytes, Sum, AnnouncedData, AnnouncedStreams;
    var s := NewStream(e.lim, ev.Incoming?);
    if Step(e, ev) == e.Dead() {
      DeadKeeps(e);
    } else {
      NewStreamInv(e.lim, e.g.peerInit, ev.Incoming?);
      OpeningSums(e, ev);
    }
  }

  lemma OpeningSums(e: Endpoint, ev: Event)
    requires SumsOk(e) && Possible(e, ev) && (ev.OpenChannel? || ev.Incoming?) && Step(e, ev) != e.Dead()
    ensures SumsOk(Step(e, ev))
  {
    hide Unread, Trace.Bytes, Sum;
    var s := NewStream(e.lim, ev.Incoming?);
    NewStreamCounts(e.lim, ev.Incoming?);
    SumUpdate(e.streams, Reserved, ev.id, s);
    SumUpdate(e.streams, SentBytes, ev.id, s);
    SumUpdate(e.streams, ReceivedBytes, ev.id, s);
    SumUpdate(e.streams, UnreadBytes, ev.id, s);
    SumUpdate(e.streams, OneIfInbound, ev.id, s);
    SumUpdate(e.streams, OneIfOutbound, ev.id, s);
    SumUpdate(e.streams, SlotHeld, ev.id, s);
  }

  lemma NewStreamCounts(lim: Limits, inbound: bool)
    ensures var s := NewStream(lim, inbound);
            Reserved(s) == 0 && SentBytes(s) == 0 && ReceivedBytes(s) == 0 && UnreadBytes(s) == 0
  {
  }

  lemma StepKeeps(e: Endpoint, ev: Event)
    requires EInv(e) && Possible(e, ev)
    ensures EInv(Step(e, ev))
  {
    hide StreamInv.Inv, Sum, AnnouncedData, AnnouncedStreams, Do, Enabled, TakeControl;
    match ev
    case OnStream(id, a) => StreamStepKeeps(e, id, a);
    case RecvControl(m) => ControlKeeps(e, m);
    case OpenChannel(_) => OpeningKeeps(e, ev);
    case Incoming(_) => OpeningKeeps(e, ev);
    case SendHello => AppendControl(e.ctl, Hello(WIRE_VERSION, e.lim));
    case _ =>
  }

  // ---- whole runs against any peer ----

  ghost predicate PossibleRun(e: Endpoint, evs: seq<Event>)
    decreases |evs|
  {
    evs == [] || (Possible(e, evs[0]) && PossibleRun(Step(e, evs[0]), evs[1..]))
  }

  function After(e: Endpoint, evs: seq<Event>): Endpoint
    requires PossibleRun(e, evs)
    decreases |evs|
  {
    if evs == [] then e else After(Step(e, evs[0]), evs[1..])
  }

  lemma {:induction false} RunKeeps(e: Endpoint, evs: seq<Event>)
    requires EInv(e) && PossibleRun(e, evs)
    ensures EInv(After(e, evs))
    decreases |evs|
  {
    if evs != [] {
      StepKeeps(e, evs[0]);
      RunKeeps(Step(e, evs[0]), evs[1..]);
    }
  }

  lemma NewEndpointInv(lim: Limits)
    requires LimitsOk(lim)
    ensures EInv(NewEndpoint(lim))
  {
    var e := NewEndpoint(lim);
    assert Tally(e.streams, Reserved) == map[] && Tally(e.streams, SentBytes) == map[];
    assert Tally(e.streams, ReceivedBytes) == map[] && Tally(e.streams, UnreadBytes) == map[];
    assert Tally(e.streams, OneIfInbound) == map[] && Tally(e.streams, OneIfOutbound) == map[];
    assert Tally(e.streams, SlotHeld) == map[];
  }

  /** A state an endpoint can come to, whatever its peer does. */
  ghost predicate Reachable(lim: Limits, e: Endpoint) {
    exists evs :: PossibleRun(NewEndpoint(lim), evs) && After(NewEndpoint(lim), evs) == e
  }

  lemma ReachableInv(lim: Limits, e: Endpoint)
    requires LimitsOk(lim) && Reachable(lim, e)
    ensures EInv(e)
  {
    var evs :| PossibleRun(NewEndpoint(lim), evs) && After(NewEndpoint(lim), evs) == e;
    NewEndpointInv(lim);
    RunKeeps(NewEndpoint(lim), evs);
  }
}
