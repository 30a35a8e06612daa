/** Runs that get somewhere: from nothing to an open stream, on to one both applications have closed,
    to a close that comes too early, to a RESET that is lost. The theorems about such states are
    therefore about states that occur. */
module Openings {
  import opened Basics
  import opened Wire
  import opened Trace
  import opened Flow
  import opened Streams
  import opened StreamInv
  import opened Endpoints
  import opened Systems
  import opened Guarantees
  import opened Retirement
  import opened StreamFacts
  import StreamRuns

  lemma {:induction false} RunAppend(s: System, ms: seq<Move>, m: Move)
    requires Run(s, ms) && CanMove(Systems.After(s, ms), m)
    ensures Run(s, ms + [m]) && Systems.After(s, ms + [m]) == Apply(Systems.After(s, ms), m)
    decreases |ms|
  {
    hide Arrived, Early, Apply;
    if ms == [] {
      assert ms + [m] == [m] && [m][1..] == [];
    } else {
      RunAppend(Apply(s, ms[0]), ms[1..], m);
      assert (ms + [m])[0] == ms[0] && (ms + [m])[1..] == ms[1..] + [m];
    }
  }

  lemma ReachableStep(lx: Limits, ly: Limits, s: System, m: Move)
    requires Systems.Reachable(lx, ly, s) && CanMove(s, m)
    ensures Systems.Reachable(lx, ly, Apply(s, m))
  {
    hide Arrived, Early, Apply;
    var ms :| Run(Start(lx, ly), ms) && Systems.After(Start(lx, ly), ms) == s;
    RunAppend(Start(lx, ly), ms, m);
  }

  /** Both HELLOs cross, in either order of arrival. */
  lemma Greeted(lx: Limits, ly: Limits) returns (s: System)
    requires LimitsOk(lx) && LimitsOk(ly)
    ensures Systems.Reachable(lx, ly, s)
    ensures s == System(GreetedEnd(lx, ly), GreetedEnd(ly, lx))
  {
    var s0 := Start(lx, ly);
    assert Run(s0, []) && Systems.After(s0, []) == s0;
    var s1 := Apply(s0, AtX(SendHello));
    ReachableStep(lx, ly, s0, AtX(SendHello));
    assert s1.x == NewEndpoint(lx).(helloSent := true, ctl := [Hello(WIRE_VERSION, lx)]);
    var s2 := Apply(s1, AtY(SendHello));
    ReachableStep(lx, ly, s1, AtY(SendHello));
    assert s2.y == NewEndpoint(ly).(helloSent := true, ctl := [Hello(WIRE_VERSION, ly)]);
    var s3 := Apply(s2, AtX(RecvControl(Hello(WIRE_VERSION, ly))));
    ReachableStep(lx, ly, s2, AtX(RecvControl(Hello(WIRE_VERSION, ly))));
    s := Apply(s3, AtY(RecvControl(Hello(WIRE_VERSION, lx))));
    ReachableStep(lx, ly, s3, AtY(RecvControl(Hello(WIRE_VERSION, lx))));
  }

  function GreetedEnd(own: Limits, peer: Limits): Endpoint {
    Endpoint(own, Flow.OnHello(NewLedger(own), peer), true, true,
             [Hello(WIRE_VERSION, own)], [Hello(WIRE_VERSION, peer)], map[])
  }

  /** Two endpoints can always open a stream when the acceptor's window has a slot: the stream
      is new at both ends and, nothing having been sent, idle. */
  lemma StreamOpens(lx: Limits, ly: Limits) returns (s: System)
    requires LimitsOk(lx) && LimitsOk(ly) && ly.maxStreams >= 1
    ensures Systems.Reachable(lx, ly, s) && s.x.Established() && s.y.Established()
    ensures s.x.streams == map[0 := NewStream(lx, false)] && s.y.streams == map[0 := NewStream(ly, true)]
    ensures StreamIdle(s.x.streams[0], s.y.streams[0]) && ConnIdle(s.y, s.x)
    ensures !s.x.g.failed && !s.y.g.failed && s.x.lim == lx && s.y.lim == ly
  {
    var s0 := Greeted(lx, ly);
    var s1 := Apply(s0, AtX(TakeSlot));
    ReachableStep(lx, ly, s0, AtX(TakeSlot));
    var s2 := Apply(s1, AtX(OpenChannel(0)));
    ReachableStep(lx, ly, s1, AtX(OpenChannel(0)));
    assert s2.x.streams == map[0 := NewStream(lx, false)];
    s := Apply(s2, AtY(Incoming(0)));
    ReachableStep(lx, ly, s2, AtY(Incoming(0)));
    assert s.y.streams == map[0 := NewStream(ly, true)];
  }

  /** One application closes a new stream: FIN is queued, the read half is cancelled. */
  function ClosedNew(lim: Limits, inbound: bool): Stream {
    var s := NewStream(lim, inbound);
    s.(credit := Some(s.credit.value.(send := s.credit.value.send.(failed := true),
                                      recv := s.credit.value.recv.(cancelled := true))),
       rx := s.rx.(cancel := true),
       tx := s.tx.(terminal := ByFin, dataQ := [Item(Fin, 0)], lifeQ := [StopSending(2)]),
       life := s.life.(due := true))
  }

  /** The four lock sections of `close` on a new stream. */
  lemma Closing(lim: Limits, g: Ledger, inbound: bool)
    ensures var s := NewStream(lim, inbound);
            var s1 := s.(credit := FailSend(s.credit), tx := s.tx.(terminal := ByFin), app := Finishing);
            var s2 := s1.(tx := s1.tx.(dataQ := [Item(Fin, 0)]), app := Quiet).Due();
            var s3 := s2.(rx := s2.rx.(cancel := true), app := Cancelling(0, Some(2)));
            && Enabled(s, ACloseWrite) && Do(lim, g, s, ACloseWrite) == Next(g, s1, [])
            && Enabled(s1, AQueueFin) && Do(lim, g, s1, AQueueFin) == Next(g, s2, [])
            && Enabled(s2, ACancelRead(2)) && Do(lim, g, s2, ACancelRead(2)) == Next(g, s3, [])
            && Enabled(s3, ACancelMark) && Do(lim, g, s3, ACancelMark) == Next(g, ClosedNew(lim, inbound), [])
  {
  }

  // ---- the two ends change places ----

  function Swap(s: System): System { System(s.y, s.x) }

  function SwapMove(m: Move): Move { match m case AtX(ev) => AtY(ev) case AtY(ev) => AtX(ev) }

  lemma SwapStep(s: System, m: Move)
    requires CanMove(s, m)
    ensures CanMove(Swap(s), SwapMove(m)) && Apply(Swap(s), SwapMove(m)) == Swap(Apply(s, m))
  {
    hide Arrives, ClosesEarly, Step;
  }

  lemma {:induction false} SwapRun(lx: Limits, ly: Limits, s: System, ms: seq<Move>)
    requires Run(s, ms) && Systems.Reachable(ly, lx, Swap(s))
    ensures Systems.Reachable(ly, lx, Swap(Systems.After(s, ms)))
    decreases |ms|
  {
    hide Arrived, Early, Apply, Systems.Reachable;
    if ms != [] {
      SwapStep(s, ms[0]);
      ReachableStep(ly, lx, Swap(s), SwapMove(ms[0]));
      SwapRun(lx, ly, Apply(s, ms[0]), ms[1..]);
    }
  }

  /** What two endpoints can come to they can come to with their places exchanged. */
  lemma SwapReachable(lx: Limits, ly: Limits, s: System)
    requires Systems.Reachable(lx, ly, s)
    ensures Systems.Reachable(ly, lx, Swap(s))
  {
    var ms :| Run(Start(lx, ly), ms) && Systems.After(Start(lx, ly), ms) == s;
    assert Run(Start(ly, lx), []) && Systems.After(Start(ly, lx), []) == Swap(Start(lx, ly));
    SwapRun(lx, ly, Start(lx, ly), ms);
  }

  // ---- steps of one stream ----

  /** A step of stream 0 at `x` that changes the stream alone. */
  lemma StepAtX(lx: Limits, ly: Limits, s: System, a: Act, t: Stream) returns (s': System)
    requires Systems.Reachable(lx, ly, s) && !s.x.g.failed && s.x.Established() && 0 in s.x.streams
    requires Enabled(s.x.streams[0], a) && InputOk(a) && !a.ARecv? && !a.AClosed?
    requires Do(s.x.lim, s.x.g, s.x.streams[0], a) == Next(s.x.g, t, [])
    ensures s' == System(s.x.(streams := s.x.streams[0 := t]), s.y) && Systems.Reachable(lx, ly, s')
  {
    hide Do, Enabled;
    ReachableStep(lx, ly, s, AtX(OnStream(0, a)));
    s' := Apply(s, AtX(OnStream(0, a)));
    assert s.x.ctl + [] == s.x.ctl;
  }

  /** The first frame the other end sent on stream 0 is taken. */
  lemma TakesAtX(lx: Limits, ly: Limits, s: System, f: Frame, t: Stream) returns (s': System)
    requires Systems.Reachable(lx, ly, s) && !s.x.g.failed && 0 in s.x.streams && 0 in s.y.streams
    requires s.x.streams[0].rx.log == [] && s.y.streams[0].tx.log == [f] && FrameOk(f)
    requires Enabled(s.x.streams[0], ARecv(f)) && Do(s.x.lim, s.x.g, s.x.streams[0], ARecv(f)) == Next(s.x.g, t, [])
    ensures s' == System(s.x.(streams := s.x.streams[0 := t]), s.y) && Systems.Reachable(lx, ly, s')
  {
    hide Do, Enabled;
    ReachableStep(lx, ly, s, AtX(OnStream(0, ARecv(f))));
    s' := Apply(s, AtX(OnStream(0, ARecv(f))));
    assert s.x.ctl + [] == s.x.ctl;
  }

  lemma ClosesAtX(lx: Limits, ly: Limits, s: System, inbound: bool) returns (s': System)
    requires Systems.Reachable(lx, ly, s) && !s.x.g.failed && s.x.Established()
    requires s.x.streams == map[0 := NewStream(s.x.lim, inbound)]
    ensures Systems.Reachable(lx, ly, s')
    ensures s' == System(s.x.(streams := map[0 := ClosedNew(s.x.lim, inbound)]), s.y)
  {
    Closing(s.x.lim, s.x.g, inbound);
    var t := NewStream(s.x.lim, inbound);
    hide Do, Enabled, Systems.Reachable;
    var t1 := t.(credit := FailSend(t.credit), tx := t.tx.(terminal := ByFin), app := Finishing);
    var t2 := t1.(tx := t1.tx.(dataQ := [Item(Fin, 0)]), app := Quiet).Due();
    var t3 := t2.(rx := t2.rx.(cancel := true), app := Cancelling(0, Some(2)));
    var s1 := StepAtX(lx, ly, s, ACloseWrite, t1);
    var s2 := StepAtX(lx, ly, s1, AQueueFin, t2);
    var s3 := StepAtX(lx, ly, s2, ACancelRead(2), t3);
    s' := StepAtX(lx, ly, s3, ACancelMark, ClosedNew(s.x.lim, inbound));
    assert s'.x.streams == map[0 := ClosedNew(s.x.lim, inbound)];
  }

  /** The accepting application closes the new stream. */
  lemma AcceptorCloses(lx: Limits, ly: Limits, s: System) returns (s': System)
    requires Systems.Reachable(lx, ly, s) && !s.y.g.failed && s.y.Established()
    requires s.y.streams == map[0 := NewStream(s.y.lim, true)]
    ensures Systems.Reachable(lx, ly, s')
    ensures s' == System(s.x, s.y.(streams := map[0 := ClosedNew(s.y.lim, true)]))
  {
    hide Systems.Reachable, ClosedNew, NewStream;
    SwapReachable(lx, ly, s);
    var r := ClosesAtX(ly, lx, Swap(s), true);
    SwapReachable(ly, lx, r);
    s' := Swap(r);
  }

  /** Both applications can then close it, and the retirement theorem takes over. */
  lemma StreamCloses(lx: Limits, ly: Limits) returns (s: System)
    requires LimitsOk(lx) && LimitsOk(ly) && ly.maxStreams >= 1
    ensures Systems.Reachable(lx, ly, s) && BothClosed(s.x, s.y, 0)
  {
    var s0 := StreamOpens(lx, ly);
    hide Systems.Reachable, ClosedNew, NewStream, BothClosed, StreamIdle, ConnIdle;
    var s1 := ClosesAtX(lx, ly, s0, false);
    s := AcceptorCloses(lx, ly, s1);
    Systems.ReachableInv(lx, ly, s);
    AreBothClosed(s, lx, ly);
  }

  lemma AreBothClosed(s: System, lx: Limits, ly: Limits)
    requires SysInv(s) && s.x.Established() && s.y.Established()
    requires s.x.streams == map[0 := ClosedNew(lx, false)] && s.y.streams == map[0 := ClosedNew(ly, true)]
    ensures BothClosed(s.x, s.y, 0)
  {
    hide Joined, ClosedNew, Closed;
    NewIsClosed(lx, false);
    NewIsClosed(ly, true);
  }

  lemma NewIsClosed(lim: Limits, inbound: bool)
    ensures Closed(ClosedNew(lim, inbound))
  {
  }

  // ---- a close that comes too early ----

  /** A stream on which nothing was written, its FIN handed to the transport and not yet noted. */
  function FinOut(s: Stream): Stream {
    s.(credit := FailSend(s.credit), tx := s.tx.(terminal := ByFin, log := [Fin], writer := Noting)).Due()
  }

  function FreshRx(): Rx { Rx([], false, None, false, Idle, [], []) }

  function FreshTx(): Tx { Tx(None, NotEnded, None, false, false, 0, [], [], Ready, [], []) }

  lemma FinSteps(lim: Limits, g: Ledger, s: Stream)
    requires s.tx == FreshTx() && s.app == Quiet && s.CanSend()
    ensures var s1 := s.(credit := FailSend(s.credit), tx := s.tx.(terminal := ByFin), app := Finishing);
            var s2 := s1.(tx := s1.tx.(dataQ := [Item(Fin, 0)]), app := Quiet).Due();
            && Enabled(s, ACloseWrite) && Do(lim, g, s, ACloseWrite) == Next(g, s1, [])
            && Enabled(s1, AQueueFin) && Do(lim, g, s1, AQueueFin) == Next(g, s2, [])
  {
    hide FailSend;
  }

  lemma FinGoesOut(lim: Limits, g: Ledger, s: Stream)
    requires s.tx == FreshTx() && s.app == Quiet && s.CanSend()
    ensures var s2 := s.(credit := FailSend(s.credit), tx := s.tx.(terminal := ByFin, dataQ := [Item(Fin, 0)])).Due();
            var s3 := s2.(tx := s2.tx.(dataQ := [], writer := Holding(Item(Fin, 0))));
            && Enabled(s2, APopData) && Do(lim, g, s2, APopData) == Next(g, s3, [])
            && Enabled(s3, ASendHeld) && Do(lim, g, s3, ASendHeld) == Next(g, FinOut(s), [])
  {
  }

  lemma FinAtX(lx: Limits, ly: Limits, s: System) returns (s': System)
    requires Systems.Reachable(lx, ly, s) && !s.x.g.failed && s.x.Established() && 0 in s.x.streams
    requires s.x.streams[0].tx == FreshTx() && s.x.streams[0].app == Quiet && s.x.streams[0].CanSend()
    ensures Systems.Reachable(lx, ly, s')
    ensures s' == System(s.x.(streams := s.x.streams[0 := FinOut(s.x.streams[0])]), s.y)
  {
    var t := s.x.streams[0];
    FinSteps(s.x.lim, s.x.g, t);
    FinGoesOut(s.x.lim, s.x.g, t);
    hide Do, Enabled, Systems.Reachable, FinOut, FreshTx, FailSend;
    var t1 := t.(credit := FailSend(t.credit), tx := t.tx.(terminal := ByFin), app := Finishing);
    var t2 := t1.(tx := t1.tx.(dataQ := [Item(Fin, 0)]), app := Quiet).Due();
    var t3 := t2.(tx := t2.tx.(dataQ := [], writer := Holding(Item(Fin, 0))));
    var s1 := StepAtX(lx, ly, s, ACloseWrite, t1);
    var s2 := StepAtX(lx, ly, s1, AQueueFin, t2);
    var s3 := StepAtX(lx, ly, s2, APopData, t3);
    s' := StepAtX(lx, ly, s3, ASendHeld, FinOut(t));
    assert s'.x.streams == s.x.streams[0 := FinOut(t)];
  }

  /** The first frame of the other end is a FIN, and it is taken. */
  function FinTaken(s: Stream): Stream { s.(rx := s.rx.(fin := true, log := [Fin])).Due() }

  lemma FinTakenIs(lim: Limits, g: Ledger, s: Stream)
    requires s.rx == FreshRx() && !s.life.closed
    ensures Enabled(s, ARecv(Fin)) && Do(lim, g, s, ARecv(Fin)) == Next(g, FinTaken(s), [])
  {
  }

  /** `y` notes its FIN, finds the stream complete and closes the channel. */
  lemma CloseSteps(lim: Limits, g: Ledger, s: Stream)
    requires s.tx.writer.Noting? && s.rx.fin && s.rx.inbuf == [] && s.life == Life(false, true, false, false, Live)
    ensures var s1 := s.(tx := s.tx.(sent := true, writer := Ready));
            var s2 := s1.(life := Life(false, false, true, false, Live));
            var s3 := s1.(life := Life(false, false, false, true, Live));
            && Enabled(s, ANote) && Do(lim, g, s, ANote) == Next(g, s1, [])
            && Enabled(s1, AMaybeRetire) && Do(lim, g, s1, AMaybeRetire) == Next(g, s2, [])
            && Enabled(s2, ACloseChannel) && Do(lim, g, s2, ACloseChannel) == Next(g, s3, [])
  {
  }

  lemma ShutsAtX(lx: Limits, ly: Limits, s: System) returns (s': System)
    requires Systems.Reachable(lx, ly, s) && !s.x.g.failed && s.x.Established() && 0 in s.x.streams
    requires var t := s.x.streams[0];
             t.tx.writer.Noting? && t.rx.fin && t.rx.inbuf == [] && t.life == Life(false, true, false, false, Live)
    ensures Systems.Reachable(lx, ly, s')
    ensures s'.y == s.y && 0 in s'.x.streams
    ensures s'.x.streams[0].life.closeSent && s'.x.streams[0].tx.log == s.x.streams[0].tx.log
  {
    var t := s.x.streams[0];
    CloseSteps(s.x.lim, s.x.g, t);
    hide Do, Enabled, Systems.Reachable;
    var t1 := t.(tx := t.tx.(sent := true, writer := Ready));
    var t2 := t1.(life := Life(false, false, true, false, Live));
    var t3 := t1.(life := Life(false, false, false, true, Live));
    var s1 := StepAtX(lx, ly, s, ANote, t1);
    var s2 := StepAtX(lx, ly, s1, AMaybeRetire, t2);
    s' := StepAtX(lx, ly, s2, ACloseChannel, t3);
  }

  /** Two conforming endpoints can come to where one end's close arrives before the other has noted
      its own FIN: both ends finish an empty stream, and the close is quick. It is then a violation,
      and the connection is lost. */
  lemma CloseCanBeEarly(lx: Limits, ly: Limits) returns (s: System)
    requires LimitsOk(lx) && LimitsOk(ly) && ly.maxStreams >= 1
    ensures Systems.Reachable(lx, ly, s)
    ensures var m := AtX(OnStream(0, AClosed)); Arrived(s, m) && Early(s, m) && Apply(s, m).x.g.failed
  {
    var s0 := StreamOpens(lx, ly);
    FreshStreams(lx, ly);
    var r := BothFinish(lx, ly, s0);
    hide Systems.Reachable, NewStream, FreshTx, FreshRx, FailSend;
    SwapReachable(lx, ly, r);
    var q := ShutsAtX(ly, lx, Swap(r));
    SwapReachable(ly, lx, q);
    s := Swap(q);
    NeverKilled(lx, ly, s);
    assert Arrived(s, AtX(OnStream(0, AClosed))) && Early(s, AtX(OnStream(0, AClosed)));
  }

  /** Each end has sent FIN and taken the other's; none has noted its own. */
  lemma BothFinish(lx: Limits, ly: Limits, s: System) returns (s': System)
    requires Systems.Reachable(lx, ly, s) && !s.x.g.failed && !s.y.g.failed && s.x.Established() && s.y.Established()
    requires 0 in s.x.streams && 0 in s.y.streams && Fresh(s.x.streams[0]) && Fresh(s.y.streams[0])
    ensures Systems.Reachable(lx, ly, s')
    ensures s'.x == s.x.(streams := s'.x.streams) && s'.y == s.y.(streams := s'.y.streams)
    ensures s'.x.streams == s.x.streams[0 := FinTaken(FinOut(s.x.streams[0]))]
    ensures s'.y.streams == s.y.streams[0 := FinTaken(FinOut(s.y.streams[0]))]
  {
    var a, b := s.x.streams[0], s.y.streams[0];
    FinTakenIs(s.x.lim, s.x.g, FinOut(a));
    FinTakenIs(s.y.lim, s.y.g, FinOut(b));
    assert FinOut(a).tx.log == [Fin] == FinOut(b).tx.log && FinOut(a).rx.log == [] == FinOut(b).rx.log;
    hide Systems.Reachable, FreshTx, FreshRx, FinOut, FinTaken, Do, Enabled;
    var s1 := FinAtX(lx, ly, s);
    SwapReachable(lx, ly, s1);
    var r1 := FinAtX(ly, lx, Swap(s1));
    var r2 := TakesAtX(ly, lx, r1, Fin, FinTaken(FinOut(b)));
    SwapReachable(ly, lx, r2);
    assert r2.y.streams[0] == FinOut(a);
    s' := TakesAtX(lx, ly, Swap(r2), Fin, FinTaken(FinOut(a)));
  }

  /** Nothing has happened on this end. */
  predicate Fresh(s: Stream) {
    s.tx == FreshTx() && s.rx == FreshRx() && s.life == Life(false, false, false, false, Live) && s.app == Quiet
  }

  lemma FreshStreams(lx: Limits, ly: Limits)
    ensures forall b :: Fresh(NewStream(lx, b)) && Fresh(NewStream(ly, b))
  {
  }

  // ---- a RESET that is lost ----

  /** A closed new stream whose STOP_SENDING is on the wire. */
  function StopSent(lim: Limits): Stream {
    var s := ClosedNew(lim, true);
    s.(tx := s.tx.(lifeQ := [], log := [StopSending(2)]))
  }

  lemma StopGoesOut(lim: Limits, g: Ledger)
    ensures var s := ClosedNew(lim, true);
            Enabled(s, ASendLife) && Do(lim, g, s, ASendLife) == Next(g, StopSent(lim), [])
    ensures Closed(StopSent(lim)) && StopSent(lim).tx.log == [StopSending(2)]
  {
  }

  /** The acceptor closes the stream, and its STOP_SENDING goes out. */
  lemma AsksToStop(lx: Limits, ly: Limits, s: System) returns (s': System)
    requires Systems.Reachable(lx, ly, s) && !s.y.g.failed && s.y.Established()
    requires s.y.streams == map[0 := NewStream(s.y.lim, true)]
    ensures Systems.Reachable(lx, ly, s')
    ensures s' == System(s.x, s.y.(streams := map[0 := StopSent(s.y.lim)]))
  {
    StopGoesOut(s.y.lim, s.y.g);
    hide Systems.Reachable, ClosedNew, NewStream, StopSent, Do, Enabled;
    var s1 := AcceptorCloses(lx, ly, s);
    SwapReachable(lx, ly, s1);
    var r := StepAtX(ly, lx, Swap(s1), ASendLife, StopSent(s.y.lim));
    assert r.x.streams == map[0 := StopSent(s.y.lim)];
    SwapReachable(ly, lx, r);
    s' := Swap(r);
  }

  /** The opener's handler takes it and chooses RESET; before it queues the RESET the application
      closes the stream and drops it, and the writer ends. */
  lemma LosesReset(lx: Limits, ly: Limits, s: System) returns (s': System)
    requires Systems.Reachable(lx, ly, s) && !s.x.g.failed && s.x.Established()
    requires s.x.streams == map[0 := NewStream(s.x.lim, false)]
    requires 0 in s.y.streams && s.y.streams[0].tx.log == [StopSending(2)]
    ensures Systems.Reachable(lx, ly, s')
    ensures s' == System(s.x.(streams := map[0 := StreamRuns.LostReset(s.x.lim)]), s.y)
  {
    var t, lim := NewStream(s.x.lim, false), s.x.lim;
    StreamRuns.GapSteps(lim, s.x.g);
    assert t.rx.log == [];
    hide Systems.Reachable, NewStream, Do, Enabled, StreamRuns.StoppingNew, StreamRuns.CancelledInGap, StreamRuns.LostReset;
    var t1 := StreamRuns.StoppingNew(t);
    var s1 := TakesAtX(lx, ly, s, StopSending(2), t1);
    var s2 := StepAtX(lx, ly, s1, ACancelRead(2), t1.(rx := t1.rx.(cancel := true), app := Cancelling(0, Some(2))));
    var s3 := StepAtX(lx, ly, s2, ACancelMark, StreamRuns.CancelledInGap(lim));
    s' := WriterLeaves(lx, ly, s3);
    assert s'.x.streams == map[0 := StreamRuns.LostReset(lim)];
  }

  lemma WriterLeaves(lx: Limits, ly: Limits, s: System) returns (s': System)
    requires Systems.Reachable(lx, ly, s) && !s.x.g.failed && s.x.Established()
    requires 0 in s.x.streams && s.x.streams[0] == StreamRuns.CancelledInGap(s.x.lim)
    ensures Systems.Reachable(lx, ly, s')
    ensures s' == System(s.x.(streams := s.x.streams[0 := StreamRuns.LostReset(s.x.lim)]), s.y)
  {
    var lim, c := s.x.lim, StreamRuns.ClosedInGap(s.x.lim);
    StreamRuns.DroppedSteps(lim, s.x.g);
    StreamRuns.EndedSteps(lim, s.x.g);
    hide Systems.Reachable, Do, Enabled, StreamRuns.CancelledInGap, StreamRuns.ClosedInGap, StreamRuns.LostReset;
    var s4 := StepAtX(lx, ly, s, ASendLife, c.(app := Quiet));
    var s5 := StepAtX(lx, ly, s4, ADropHandle, c);
    var s6 := StepAtX(lx, ly, s5, AWriterEnd, c.(tx := c.tx.(writer := Stopped)));
    s' := StepAtX(lx, ly, s6, AStopDone, StreamRuns.LostReset(lim));
    assert s'.x.streams == s.x.streams[0 := StreamRuns.LostReset(lim)];
  }

  /** Two conforming endpoints whose applications have both closed a stream, and which no run
      retires: the RESET that answers a STOP_SENDING is lost with the writer. */
  lemma ResetCanBeLost(lx: Limits, ly: Limits) returns (s: System)
    requires LimitsOk(lx) && LimitsOk(ly) && ly.maxStreams >= 1
    ensures Systems.Reachable(lx, ly, s) && BothClosed(s.x, s.y, 0) && NeverRetires(s, 0)
  {
    var s0 := StreamOpens(lx, ly);
    StopGoesOut(ly, s0.y.g);
    hide Systems.Reachable, NewStream, ClosedNew, StopSent, StreamRuns.LostReset, StreamIdle, ConnIdle, BothClosed,
      Closed, GaveUp, NeverRetires, Do, Enabled;
    var s1 := AsksToStop(lx, ly, s0);
    s := LosesReset(lx, ly, s1);
    Systems.ReachableInv(lx, ly, s);
    ClosedAndLost(s, lx, ly);
    NoRunRetires(lx, ly, s, 0);
  }

  lemma ClosedAndLost(s: System, lx: Limits, ly: Limits)
    requires SysInv(s) && s.x.Established() && s.y.Established()
    requires s.x.streams == map[0 := StreamRuns.LostReset(lx)] && s.y.streams == map[0 := StopSent(ly)]
    ensures BothClosed(s.x, s.y, 0) && GaveUp(s.x.streams[0])
  {
    StopGoesOut(ly, s.y.g);
    StreamRuns.IsLost(lx);
    hide Joined, StopSent, ClosedNew, StreamRuns.LostReset, Closed, GaveUp, Do, Enabled, InputOk;
  }

  /** No run from `s` retires the stream, at either end. */
  ghost predicate NeverRetires(s: System, id: nat) {
    forall ms :: Run(s, ms) ==>
      var t := Systems.After(s, ms);
      && id in t.x.streams && id in t.y.streams
      && t.x.streams[id].life.phase != Reported && t.y.streams[id].life.phase != Reported
  }

  lemma NoRunRetires(lx: Limits, ly: Limits, s: System, id: nat)
    requires LimitsOk(lx) && LimitsOk(ly) && Systems.Reachable(lx, ly, s)
    requires id in s.x.streams && id in s.y.streams && (GaveUp(s.x.streams[id]) || GaveUp(s.y.streams[id]))
    ensures NeverRetires(s, id)
  {
    hide Systems.Reachable, GaveUp, Run, Systems.After;
    forall ms | Run(s, ms)
      ensures var t := Systems.After(s, ms);
              && id in t.x.streams && id in t.y.streams
              && t.x.streams[id].life.phase != Reported && t.y.streams[id].life.phase != Reported
    {
      GaveUpNeverRetires(lx, ly, s, id, ms);
    }
  }
}
