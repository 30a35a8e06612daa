/** Two endpoints joined by a control channel and one channel per stream, each reliable and
    ordered by itself, with no order between them.

    What one end has sent and the other has not yet taken is in flight. A channel's close comes
    after everything its sender put on it; an end that closes may lose what was still coming. */
module Systems {
  import opened Basics
  import opened Wire
  import opened Trace
  import opened Flow
  import opened Streams
  import opened StreamInv
  import opened StreamSteps
  import opened StreamFacts
  import opened Endpoints
  import EndpointFacts

  datatype System = System(x: Endpoint, y: Endpoint)

  /** What the network can bring to `x` from its peer `y`. */
  predicate Carried(x: Endpoint, y: Endpoint, ev: Event) {
    match ev
    case OnStream(id, ARecv(f)) =>
      && id in x.streams && id in y.streams
      && |x.streams[id].rx.log| < |y.streams[id].tx.log|
      && f == y.streams[id].tx.log[|x.streams[id].rx.log|]
    case OnStream(id, AClosed) =>
      && id in x.streams
      && (x.streams[id].life.closeSent ||
          (id in y.streams && y.streams[id].life.closeSent && x.streams[id].rx.log == y.streams[id].tx.log))
    case RecvControl(m) => |x.rctl| < |y.ctl| && m == y.ctl[|x.rctl|]
    case OpenChannel(id) => id !in y.streams
    case Incoming(id) => id in y.streams && !y.streams[id].inbound
    case _ => true
  }

  /** What can happen at `x`: a step of its own, or something the network brings. */
  predicate Arrives(x: Endpoint, y: Endpoint, ev: Event) { Possible(x, ev) && Carried(x, y, ev) }

  /** A close that finds the terminal frame handed to the transport but not noted yet. */
  predicate ClosesEarly(x: Endpoint, ev: Event) {
    ev.OnStream? && ev.a.AClosed? && ev.id in x.streams && x.streams[ev.id].tx.writer.Noting?
  }

  /** The environment assumed of both ends: such a close waits for the note. */
  predicate CanStep(x: Endpoint, y: Endpoint, ev: Event) { Arrives(x, y, ev) && !ClosesEarly(x, ev) }

  datatype Move = AtX(ev: Event) | AtY(ev: Event)

  predicate CanMove(s: System, m: Move) { Arrived(s, m) && !Early(s, m) }

  predicate Arrived(s: System, m: Move) {
    match m
    case AtX(ev) => Arrives(s.x, s.y, ev)
    case AtY(ev) => Arrives(s.y, s.x, ev)
  }

  predicate Early(s: System, m: Move) {
    match m
    case AtX(ev) => ClosesEarly(s.x, ev)
    case AtY(ev) => ClosesEarly(s.y, ev)
  }

  function Apply(s: System, m: Move): System
    requires Arrived(s, m)
  {
    match m
    case AtX(ev) => System(Step(s.x, ev), s.y)
    case AtY(ev) => System(s.x, Step(s.y, ev))
  }

  function Start(lx: Limits, ly: Limits): System { System(NewEndpoint(lx), NewEndpoint(ly)) }

  // ---- the invariant between the two ends ----

  /** `a` at one end and `b` at the other are the two ends of one stream. */
  ghost predicate Ends(a: Stream, b: Stream) {
    a.rx.log <= b.tx.log && b.rx.log <= a.tx.log && a.inbound != b.inbound
  }

  /** A stream only this end knows is one it has opened, and has heard nothing on. */
  ghost predicate Unannounced(a: Stream) { !a.inbound && a.rx.log == [] }

  /** What `x` knows came from `y`. */
  ghost predicate Linked(x: Endpoint, y: Endpoint) {
    && !x.g.failed
    && x.rctl <= y.ctl
    && OpenedByHello(x.ctl) && x.helloSent == (x.ctl != [])
    && (forall id :: id in x.streams ==> x.helloSent && (x.streams[id].inbound || x.helloSeen))
    && (forall id :: id in x.streams ==>
          if id in y.streams then Ends(x.streams[id], y.streams[id]) else Unannounced(x.streams[id]))
  }

  ghost predicate Joined(x: Endpoint, y: Endpoint) {
    EInv(x) && EInv(y) && Linked(x, y) && Linked(y, x)
  }

  ghost predicate SysInv(s: System) { Joined(s.x, s.y) }

  // ---- the peer's announcements ----

  lemma PeerLimits(x: Endpoint, y: Endpoint)
    requires Joined(x, y)
    ensures y.g.peerMaxData <= x.g.localMaxData
    ensures y.g.peerMaxStreams <= x.g.advertisedMaxStreams
    ensures y.g.peerInit <= x.lim.maxStreamData
    ensures y.helloSeen ==> x.helloSent && y.g.peerInit == x.lim.maxStreamData
  {
    hide SumsOk, StreamsOk, LedgerOk, AnnouncedData, AnnouncedStreams;
    ControlPrefix(y.rctl, x.ctl);
    if y.rctl != [] {
      assert y.rctl[0] == x.ctl[0] && x.ctl[0] in x.ctl;
    }
  }

  // ---- no step is a violation ----

  /** The next frame continues a legal trace. */
  lemma NextFrame(a: Stream, b: Stream)
    requires a.rx.log <= b.tx.log && |a.rx.log| < |b.tx.log| && Legal(b.tx.log)
    ensures var f := b.tx.log[|a.rx.log|];
            && a.rx.log + [f] <= b.tx.log
            && |Bytes(a.rx.log)| + |PayloadOf(f)| <= |Bytes(b.tx.log)|
            && (f.Data? || EndingOf(f) != NotEnded ==> End(a.rx.log) == NotEnded)
  {
    var f := b.tx.log[|a.rx.log|];
    Append(a.rx.log, f);
    PrefixFacts(a.rx.log + [f], b.tx.log);
  }

  /** The key step: what `b` has sent fits the limit `a` enforces, in every interleaving. */
  lemma SentFitsStream(x: Endpoint, y: Endpoint, id: nat)
    requires Joined(x, y) && id in x.streams && id in y.streams && x.streams[id].credit.Some?
    ensures |Bytes(y.streams[id].tx.log)| <= x.streams[id].credit.value.recv.localMax
  {
    hide Bytes, Legal, End, Announced, SumsOk, LimitsAgree, LedgerOk;
    PeerLimits(x, y);
    PrefixFacts(y.streams[id].rx.log, x.streams[id].tx.log);
    assert StreamInv.Inv(x.lim, x.g.peerInit, x.streams[id]);
    assert StreamInv.Inv(y.lim, y.g.peerInit, y.streams[id]);
  }

  lemma {:induction false} SumDominated(m: map<nat, Stream>, f: Stream -> int, n: map<nat, Stream>, h: Stream -> int)
    requires forall id :: id in n ==> 0 <= h(n[id])
    requires forall id :: id in m ==> f(m[id]) <= (if id in n then h(n[id]) else 0)
    ensures Sum(m, f) <= Sum(n, h)
    decreases |m|
  {
    if m == map[] {
      assert Tally(m, f) == map[];
      TotalBounds(map[], Tally(n, h));
    } else {
      var id :| id in m;
      TotalRemove(Tally(m, f), id);
      assert Tally(m - {id}, f) == Tally(m, f) - {id};
      if id in n {
        TotalRemove(Tally(n, h), id);
        assert Tally(n - {id}, h) == Tally(n, h) - {id};
        SumDominated(m - {id}, f, n - {id}, h);
      } else {
        SumDominated(m - {id}, f, n, h);
      }
    }
  }

  /** ... and so does the whole connection's. */
  lemma SentFitsConn(x: Endpoint, y: Endpoint, id: nat, n: nat)
    requires Joined(x, y) && id in x.streams && id in y.streams
    requires |Bytes(x.streams[id].rx.log)| + n <= |Bytes(y.streams[id].tx.log)|
    ensures x.g.received + n <= x.g.localMaxData
  {
    hide StreamInv.Inv, Sum, AnnouncedData, AnnouncedStreams;
    PeerLimits(x, y);
    forall j | j in x.streams
      ensures ReceivedBytes(x.streams[j]) <= (if j in y.streams then SentBytes(y.streams[j]) else 0)
    {
      if j in y.streams { PrefixFacts(x.streams[j].rx.log, y.streams[j].tx.log); }
    }
    OneLess(x.streams, y.streams, id, n);
  }

  /** A stream that is `n` behind keeps the sum `n` behind. */
  lemma OneLess(m: map<nat, Stream>, n: map<nat, Stream>, id: nat, k: nat)
    requires id in m && id in n && ReceivedBytes(m[id]) + k <= SentBytes(n[id])
    requires forall j :: j in m ==> ReceivedBytes(m[j]) <= (if j in n then SentBytes(n[j]) else 0)
    ensures Sum(m, ReceivedBytes) + k <= Sum(n, SentBytes)
  {
    hide Trace.Bytes;
    TotalRemove(Tally(m, ReceivedBytes), id);
    TotalRemove(Tally(n, SentBytes), id);
    assert Tally(m - {id}, ReceivedBytes) == Tally(m, ReceivedBytes) - {id};
    assert Tally(n - {id}, SentBytes) == Tally(n, SentBytes) - {id};
    SumDominated(m - {id}, ReceivedBytes, n - {id}, SentBytes);
  }

  lemma StreamAccepts(lim: Limits, g: Ledger, a: Stream, f: Frame)
    requires StreamInv.Inv(lim, g.peerInit, a)
    requires f.Data? || EndingOf(f) != NotEnded ==> End(a.rx.log) == NotEnded
    requires f.Data? ==> g.received + |f.payload| <= g.localMaxData
    requires f.Data? && a.credit.Some? ==> |Bytes(a.rx.log)| + |f.payload| <= a.credit.value.recv.localMax
    ensures RecvFrame(g, a, f).Next?
  {
    hide Bytes, Legal, End, Announced, QueuedBytes, QueuedGrants, Flatten;
  }

  /** What the two ends' traces say about their states. */
  lemma WireFacts(lim: Limits, peerInit: int, s: Stream)
    requires StreamInv.Inv(lim, peerInit, s)
    ensures Legal(s.tx.log) && OnWire(s.tx) == (End(s.tx.log) != NotEnded) && (s.tx.sent ==> !s.tx.writer.Noting?)
    ensures s.PeerEnded() == (End(s.rx.log) != NotEnded)
    ensures s.life.closeSent ==> s.WireComplete()
  {
  }

  lemma FrameIsNoViolation(x: Endpoint, y: Endpoint, id: nat, f: Frame)
    requires Joined(x, y) && CanStep(x, y, OnStream(id, ARecv(f)))
    ensures RecvFrame(x.g, x.streams[id], f).Next?
  {
    hide StreamInv.Inv, Bytes, Legal, End, SumsOk, LimitsAgree, LedgerOk, Enabled;
    var a, b := x.streams[id], y.streams[id];
    WireFacts(y.lim, y.g.peerInit, b);
    NextFrame(a, b);
    if f.Data? {
      SentFitsConn(x, y, id, |f.payload|);
      if a.credit.Some? { SentFitsStream(x, y, id); }
    }
    StreamAccepts(x.lim, x.g, a, f);
  }

  /** When a close arrives both halves have ended on the wire; seen from here they have exactly if
      our own terminal frame was noted. */
  lemma CloseIsNoViolation(x: Endpoint, y: Endpoint, id: nat)
    requires Joined(x, y) && Arrives(x, y, OnStream(id, AClosed))
    ensures x.streams[id].WireComplete() <==> !ClosesEarly(x, OnStream(id, AClosed))
  {
    hide StreamInv.Inv, Bytes, Legal, End, SumsOk, LimitsAgree, LedgerOk, Enabled;
    var a := x.streams[id];
    WireFacts(x.lim, x.g.peerInit, a);
    if !a.life.closeSent {
      var b := y.streams[id];
      WireFacts(y.lim, y.g.peerInit, b);
      PrefixFacts(b.rx.log, a.tx.log);
    }
  }

  lemma ControlIsNoViolation(x: Endpoint, y: Endpoint, m: Control)
    requires Joined(x, y) && CanStep(x, y, RecvControl(m))
    ensures TakeControl(x, m) != x.Dead()
    ensures TakeControl(x, m).rctl == x.rctl + [m]
  {
    hide SumsOk, StreamsOk, LedgerOk, AnnouncedData, AnnouncedStreams;
    assert m in y.ctl;
  }

  /** The peer never opens more channels than we advertised slots. */
  lemma IncomingIsNoViolation(x: Endpoint, y: Endpoint, id: nat)
    requires Joined(x, y) && CanStep(x, y, Incoming(id))
    ensures PeerStreamOpened(x.g).Ok?
  {
    hide StreamInv.Inv, Sum, AnnouncedData, AnnouncedStreams, Bytes;
    PeerLimits(x, y);
    var s := NewStream(x.lim, true);
    var m := x.streams[id := s];
    SumUpdate(x.streams, OneIfInbound, id, s);
    SumDominated(m, OneIfInbound, y.streams, OneIfOutbound);
  }

  /** Nothing that can happen between conforming endpoints is a violation, but a close that comes
      in the gap between handing over the terminal frame and noting it; and that one always is. */
  lemma NoViolation(x: Endpoint, y: Endpoint, ev: Event)
    requires Joined(x, y) && Arrives(x, y, ev)
    ensures Step(x, ev).g.failed <==> ClosesEarly(x, ev)
  {
    hide StreamInv.Inv, SumsOk, LimitsAgree, LedgerOk, Linked, Do, Enabled;
    match ev
    case OnStream(id, a) =>
      StreamPre(x, id);
      DoKeeps(x.lim, x.g, x.streams[id], a);
      if ClosesEarly(x, ev) {
        EarlyCloseKills(x, y, id);
      } else {
        ActIsNoViolation(x, y, id, a);
      }
    case RecvControl(m) => ControlIsNoViolation(x, y, m);
    case Incoming(id) => IncomingIsNoViolation(x, y, id);
    case _ =>
  }

  lemma EarlyCloseKills(x: Endpoint, y: Endpoint, id: nat)
    requires Joined(x, y) && Arrives(x, y, OnStream(id, AClosed)) && ClosesEarly(x, OnStream(id, AClosed))
    ensures Do(x.lim, x.g, x.streams[id], AClosed).Violation?
  {
    CloseIsNoViolation(x, y, id);
    CloseOf(x.lim, x.g, x.streams[id]);
    hide Do, Joined, Arrives, Enabled;
  }

  lemma CloseOf(lim: Limits, g: Ledger, s: Stream)
    requires Enabled(s, AClosed)
    ensures Do(lim, g, s, AClosed).Violation? <==> !s.WireComplete()
  {
  }

  lemma ActIsNoViolation(x: Endpoint, y: Endpoint, id: nat, a: Act)
    requires Joined(x, y) && CanStep(x, y, OnStream(id, a))
    ensures Do(x.lim, x.g, x.streams[id], a).Next?
  {
    hide Joined, RecvFrame, Flatten, OnConsumed, PollReserve;
    match a
    case ARecv(f) => FrameIsNoViolation(x, y, id, f);
    case AClosed => CloseIsNoViolation(x, y, id);
    case _ =>
  }

  // ---- the link survives every step ----

  /** Taking a frame is the only step that adds to the received trace, and adds that frame. */
  lemma ReceivedTrace(lim: Limits, g: Ledger, s: Stream, a: Act)
    requires Enabled(s, a) && Do(lim, g, s, a).Next?
    ensures Do(lim, g, s, a).s.rx.log == if a.ARecv? then s.rx.log + [a.f] else s.rx.log
  {
    hide OnConsumed, PollReserve, DataReceived, Release, Commit, FailSend, RaiseStreamMax, MarkCancelled, DropStream, Flatten;
    match a
    case ARecv(f) =>
    case _ => OtherTraces(lim, g, s, a);
  }

  lemma OtherTraces(lim: Limits, g: Ledger, s: Stream, a: Act)
    requires Enabled(s, a) && Do(lim, g, s, a).Next? && !a.ARecv?
    ensures Do(lim, g, s, a).s.rx.log == s.rx.log
  {
    hide OnConsumed, PollReserve, DataReceived, Release, Commit, FailSend, RaiseStreamMax, MarkCancelled, DropStream, Flatten, RecvFrame;
  }

  lemma StreamKeepsLink(x: Endpoint, y: Endpoint, id: nat, a: Act)
    requires Joined(x, y) && CanStep(x, y, OnStream(id, a))
    ensures Linked(Step(x, OnStream(id, a)), y) && Linked(y, Step(x, OnStream(id, a)))
  {
    var s := x.streams[id];
    ActIsNoViolation(x, y, id, a);
    StreamPre(x, id);
    DoKeeps(x.lim, x.g, s, a);
    ControlOut(x.lim, x.g, s, a);
    ReceivedTrace(x.lim, x.g, s, a);
    hide Do, Enabled, EInv, StreamInv.Inv, LedgerOk, Bytes, Unread;
    var o := Do(x.lim, x.g, s, a);
    MovedLink(x, y, id, o.g, o.s, o.ctl, a);
  }

  lemma MovedLink(x: Endpoint, y: Endpoint, id: nat, g: Ledger, s: Stream, ctl: seq<Control>, a: Act)
    requires Linked(x, y) && Linked(y, x) && id in x.streams && Carried(x, y, OnStream(id, a))
    requires !g.failed && s.inbound == x.streams[id].inbound && x.streams[id].tx.log <= s.tx.log
    requires s.rx.log == if a.ARecv? then x.streams[id].rx.log + [a.f] else x.streams[id].rx.log
    requires |ctl| <= 1 && forall m :: m in ctl ==> IsCredit(m)
    ensures var x' := x.(g := g, streams := x.streams[id := s], ctl := x.ctl + ctl);
            Linked(x', y) && Linked(y, x')
  {
    MovedEnds(x, y, id, s, a);
    MovedStreams(x, y, id, s);
    MovedControl(x.ctl, ctl);
    hide Ends, Unannounced, OpenedByHello, Carried;
  }

  lemma MovedControl(ctl: seq<Control>, more: seq<Control>)
    requires OpenedByHello(ctl) && |more| <= 1 && forall m :: m in more ==> IsCredit(m)
    requires ctl == [] ==> more == []
    ensures OpenedByHello(ctl + more)
  {
    assert more != [] ==> more[0] in more;
  }

  lemma MovedEnds(x: Endpoint, y: Endpoint, id: nat, s: Stream, a: Act)
    requires Linked(x, y) && Linked(y, x) && id in x.streams && Carried(x, y, OnStream(id, a))
    requires s.inbound == x.streams[id].inbound && x.streams[id].tx.log <= s.tx.log
    requires s.rx.log == if a.ARecv? then x.streams[id].rx.log + [a.f] else x.streams[id].rx.log
    ensures if id in y.streams then Ends(s, y.streams[id]) && Ends(y.streams[id], s) else Unannounced(s)
  {
    hide OpenedByHello;
  }

  lemma MovedStreams(x: Endpoint, y: Endpoint, id: nat, s: Stream)
    requires Linked(x, y) && Linked(y, x) && id in x.streams
    requires if id in y.streams then Ends(s, y.streams[id]) && Ends(y.streams[id], s) else Unannounced(s)
    ensures forall j :: j in x.streams ==>
      var t := x.streams[id := s][j];
      if j in y.streams then Ends(t, y.streams[j]) else Unannounced(t)
    ensures forall j :: j in y.streams ==>
      if j in x.streams then Ends(y.streams[j], x.streams[id := s][j]) else Unannounced(y.streams[j])
  {
    hide Ends, Unannounced, OpenedByHello;
  }

  lemma OtherKeepsLink(x: Endpoint, y: Endpoint, ev: Event)
    requires Joined(x, y) && CanStep(x, y, ev) && !ev.OnStream?
    ensures Linked(Step(x, ev), y) && Linked(y, Step(x, ev))
  {
    hide SumsOk, StreamsOk, LedgerOk, AnnouncedData, AnnouncedStreams, Do, Enabled;
    match ev
    case RecvControl(m) => ControlIsNoViolation(x, y, m); ControlKeepsLink(x, y, m);
    case Incoming(id) => IncomingIsNoViolation(x, y, id); IncomingKeepsLink(x, y, id);
    case SendHello => HelloKeepsLink(x, y);
    case _ =>
  }

  lemma ControlKeepsLink(x: Endpoint, y: Endpoint, m: Control)
    requires Linked(x, y) && Linked(y, x) && CanStep(x, y, RecvControl(m)) && TakeControl(x, m) != x.Dead()
    ensures Linked(TakeControl(x, m), y) && Linked(y, TakeControl(x, m))
  {
    var x' := TakeControl(x, m);
    assert x'.streams == x.streams && x'.ctl == x.ctl && x'.rctl == x.rctl + [m];
    assert x.helloSeen ==> x'.helloSeen;
    hide TakeControl, OpenedByHello, Ends, Unannounced;
  }

  lemma HelloKeepsLink(x: Endpoint, y: Endpoint)
    requires Linked(x, y) && Linked(y, x) && !x.helloSent
    ensures Linked(Step(x, SendHello), y) && Linked(y, Step(x, SendHello))
  {
    hide Ends, Unannounced, Do;
    assert x.ctl == [];
  }

  lemma IncomingKeepsLink(x: Endpoint, y: Endpoint, id: nat)
    requires Joined(x, y) && CanStep(x, y, Incoming(id)) && PeerStreamOpened(x.g).Ok?
    ensures Linked(Step(x, Incoming(id)), y) && Linked(y, Step(x, Incoming(id)))
  {
    hide SumsOk, StreamsOk, LedgerOk, AnnouncedData, AnnouncedStreams, OpenedByHello, Do;
    PeerLimits(x, y);
    assert Unannounced(y.streams[id]);
    assert Ends(NewStream(x.lim, true), y.streams[id]);
  }

  lemma StepKeepsJoined(x: Endpoint, y: Endpoint, ev: Event)
    requires Joined(x, y) && CanStep(x, y, ev)
    ensures Joined(Step(x, ev), y)
  {
    hide EInv, Linked, Step, Carried, Possible;
    StepKeeps(x, ev);
    if ev.OnStream? {
      StreamKeepsLink(x, y, ev.id, ev.a);
    } else {
      OtherKeepsLink(x, y, ev);
    }
  }

  lemma MoveKeeps(s: System, m: Move)
    requires SysInv(s) && CanMove(s, m)
    ensures SysInv(Apply(s, m))
  {
    hide EInv, Linked, Step, Arrives, ClosesEarly;
    match m
    case AtX(ev) => StepKeepsJoined(s.x, s.y, ev);
    case AtY(ev) => StepKeepsJoined(s.y, s.x, ev);
  }

  // ---- whole runs ----

  ghost predicate Run(s: System, ms: seq<Move>)
    decreases |ms|
  {
    ms == [] || (CanMove(s, ms[0]) && Run(Apply(s, ms[0]), ms[1..]))
  }

  function After(s: System, ms: seq<Move>): System
    requires Run(s, ms)
    decreases |ms|
  {
    if ms == [] then s else After(Apply(s, ms[0]), ms[1..])
  }

  lemma {:induction false} RunKeepsInv(s: System, ms: seq<Move>)
    requires SysInv(s) && Run(s, ms)
    ensures SysInv(After(s, ms))
    decreases |ms|
  {
    hide SysInv, Arrived, Early, Apply;
    if ms != [] {
      MoveKeeps(s, ms[0]);
      RunKeepsInv(Apply(s, ms[0]), ms[1..]);
    }
  }

  ghost predicate Reachable(lx: Limits, ly: Limits, s: System) {
    exists ms :: Run(Start(lx, ly), ms) && After(Start(lx, ly), ms) == s
  }

  lemma ReachableInv(lx: Limits, ly: Limits, s: System)
    requires LimitsOk(lx) && LimitsOk(ly) && Reachable(lx, ly, s)
    ensures SysInv(s)
  {
    var ms :| Run(Start(lx, ly), ms) && After(Start(lx, ly), ms) == s;
    NewEndpointInv(lx);
    NewEndpointInv(ly);
    RunKeepsInv(Start(lx, ly), ms);
  }

  lemma {:induction false} LimitsAfter(s: System, ms: seq<Move>)
    requires Run(s, ms)
    ensures After(s, ms).x.lim == s.x.lim && After(s, ms).y.lim == s.y.lim
    decreases |ms|
  {
    hide Possible, Carried, ClosesEarly, Step;
    if ms != [] {
      match ms[0] {
        case AtX(ev) => EndpointFacts.LimStays(s.x, ev);
        case AtY(ev) => EndpointFacts.LimStays(s.y, ev);
      }
      LimitsAfter(Apply(s, ms[0]), ms[1..]);
    }
  }

  /** The limits of both endpoints are those they were created with. */
  lemma FirstLimits(lx: Limits, ly: Limits, s: System)
    requires Reachable(lx, ly, s)
    ensures s.x.lim == lx && s.y.lim == ly
  {
    var ms :| Run(Start(lx, ly), ms) && After(Start(lx, ly), ms) == s;
    LimitsAfter(Start(lx, ly), ms);
  }
}
