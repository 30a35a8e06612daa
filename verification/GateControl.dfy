/** What the gate hears and says on the control channel, and when the connection is over, as functions
    of the events alone. */
module GateControl {
  import opened Basics
  import opened Wire
  import opened Gate
  import CreditEngine
  import Endpoints
  import Flow

  // ---- the run's history ----

  /** The control messages that could be read. */
  function Heard(evs: seq<Event>): seq<Control> {
    if evs == [] then [] else Heard(evs[..|evs| - 1]) + Read(evs[|evs| - 1])
  }

  function Read(ev: Event): seq<Control> {
    if ev.ControlMessage? && DecodeControl(ev.data).Ok? then [DecodeControl(ev.data).value] else []
  }

  predicate AllReadable(evs: seq<Event>) {
    forall i :: 0 <= i < |evs| && evs[i].ControlMessage? ==> DecodeControl(evs[i].data).Ok?
  }

  /** The limits of the first HELLO of wire version 1. */
  function FirstHello(msgs: seq<Control>): Option<Limits> {
    if msgs == [] then None
    else if FirstHello(msgs[..|msgs| - 1]).Some? then FirstHello(msgs[..|msgs| - 1])
    else if msgs[|msgs| - 1].Hello? && msgs[|msgs| - 1].version == 1 then Some(msgs[|msgs| - 1].limits)
    else None
  }

  function Channels(evs: seq<Event>): seq<nat> {
    if evs == [] then []
    else Channels(evs[..|evs| - 1]) + if evs[|evs| - 1].Channel? then [evs[|evs| - 1].id] else []
  }

  function Gone(evs: seq<Event>): set<nat> {
    if evs == [] then {}
    else Gone(evs[..|evs| - 1]) + if evs[|evs| - 1].StreamRetired? then {evs[|evs| - 1].id} else {}
  }

  // ---- what follows from it ----

  /** The connection goes on, or ends with a code told to the peer, or without a word. */
  datatype Verdict = GoesOn | Ends(code: Option<nat>)

  /** `greeted`: a HELLO was taken. `full`: no stream slot is free. 6 is the code of a violation, 7 of a
      wire version not supported. */
  function Verdicts(greeted: bool, full: bool, ev: Event): Verdict {
    match ev
    case ControlMessage(data) =>
      (match DecodeControl(data)
       case Err(_) => Ends(Some(6))
       case Ok(Hello(v, _)) => if greeted then Ends(Some(6)) else if v != 1 then Ends(Some(7)) else GoesOn
       case Ok(Close(_)) => Ends(None)
       case Ok(_) => if greeted then GoesOn else Ends(Some(6)))
    case ReservedLost => Ends(Some(6))
    case Channel(_) => if full then Ends(Some(6)) else GoesOn
    case CloseCall(code) => Ends(Some(code))
    case Violation(code) => Ends(Some(code))
    case TransportGone => Ends(None)
    case _ => GoesOn
  }

  /** Event `ev` after the events `evs`, on a connection that is up. */
  function Judged(lim: Limits, evs: seq<Event>, ev: Event): Verdict {
    Verdicts(Heard(evs) != [], |Channels(evs)| >= Min(lim.maxStreams + |Gone(evs)|, MAX_OFFSET), ev)
  }

  predicate Over(lim: Limits, evs: seq<Event>) {
    evs != [] && (Over(lim, evs[..|evs| - 1]) || Judged(lim, evs[..|evs| - 1], evs[|evs| - 1]).Ends?)
  }

  /** HELLO when the control channel opens; one close when the connection ends; and after that only
      the answer to a HELLO of another version, which does not look whether the connection is over. */
  function SaidAt(lim: Limits, evs: seq<Event>, ev: Event): seq<Control> {
    if ControlOpens !in evs then (if ev == ControlOpens && !Over(lim, evs) then [Hello(1, lim)] else [])
    else if Over(lim, evs) then
      if FirstHello(Heard(evs)).None? && OtherVersion(ev) then [Control.Close(7)] else []
    else
      var v := Judged(lim, evs, ev);
      if v.Ends? && v.code.Some? then [Control.Close(v.code.value)] else []
  }

  predicate OtherVersion(ev: Event) {
    ev.ControlMessage? && DecodeControl(ev.data).Ok? && DecodeControl(ev.data).value.Hello? && DecodeControl(ev.data).value.version != 1
  }

  /** Everything said on the control channel but credit. */
  function Said(lim: Limits, evs: seq<Event>): seq<Control> {
    if evs == [] then [] else Said(lim, evs[..|evs| - 1]) + SaidAt(lim, evs[..|evs| - 1], evs[|evs| - 1])
  }

  // ---- the gate does that ----

  /** While the connection is up: everything that came could be read, HELLO of our version first and
      once, and the send limits are the largest that came; every channel is observed, and registered
      until it retires. */
  ghost predicate Knows(evs: seq<Event>, g: Gate) {
    !g.hs.tearingDown && g.hs.helloSent == g.hs.controlOpen && KnowsPeer(evs, g) && KnowsStreams(evs, g)
  }

  ghost predicate KnowsPeer(evs: seq<Event>, g: Gate) {
    && AllReadable(evs) && Endpoints.OpenedByHello(Heard(evs))
    && g.flow.g.peerInit == Endpoints.InitialWindow(Heard(evs))
    && g.flow.g.peerMaxData == Endpoints.AnnouncedData(Heard(evs))
    && g.flow.g.peerMaxStreams == Endpoints.AnnouncedStreams(Heard(evs))
  }

  ghost predicate KnowsStreams(evs: seq<Event>, g: Gate) {
    && g.q.observed == Channels(evs)
    && g.streams.live == Elements(g.q.observed) - g.streams.retired && g.streams.destroyed == {}
  }

  ghost predicate Tells(lim: Limits, evs: seq<Event>, g: Gate) {
    && g.flow.lim == lim
    && g.hs.closeFired == Over(lim, evs) && g.hs.sent == Said(lim, evs)
    && g.hs.controlOpen == (ControlOpens in evs) && g.hs.peerHello == FirstHello(Heard(evs))
    && g.streams.retired == Gone(evs)
    && (!g.hs.closeFired ==> Knows(evs, g))
  }

  lemma OneMore(lim: Limits, evs: seq<Event>, ev: Event)
    ensures var more := evs + [ev];
            && Heard(more) == Heard(evs) + Read(ev)
            && (AllReadable(more) <==> AllReadable(evs) && (ev.ControlMessage? ==> DecodeControl(ev.data).Ok?))
            && Channels(more) == Channels(evs) + (if ev.Channel? then [ev.id] else [])
            && Gone(more) == Gone(evs) + (if ev.StreamRetired? then {ev.id} else {})
            && (Over(lim, more) <==> Over(lim, evs) || Judged(lim, evs, ev).Ends?)
            && Said(lim, more) == Said(lim, evs) + SaidAt(lim, evs, ev)
            && (ControlOpens in more <==> ControlOpens in evs || ev == ControlOpens)
  {
    var more := evs + [ev];
    assert more[..|more| - 1] == evs;
    hide DecodeControl, Judged, SaidAt;
    assert forall i :: 0 <= i < |evs| ==> more[i] == evs[i];
    assert more[|evs|] == ev;
  }

  lemma HelloPush(msgs: seq<Control>, m: Control)
    ensures FirstHello(msgs + [m]) ==
            if FirstHello(msgs).Some? then FirstHello(msgs) else if m.Hello? && m.version == 1 then Some(m.limits) else None
  {
    assert (msgs + [m])[..|msgs|] == msgs;
  }

  lemma {:induction false} HelloIsFirst(msgs: seq<Control>)
    requires Endpoints.OpenedByHello(msgs)
    ensures FirstHello(msgs) == if msgs == [] then None else Some(msgs[0].limits)
  {
    if |msgs| > 1 {
      HelloIsFirst(msgs[..|msgs| - 1]);
    } else if |msgs| == 1 {
      assert msgs[..0] == [];
    }
  }

  // ---- one event ----

  /** On a connection that is over. */
  lemma OverHandles(g: Gate, ev: Event)
    requires g.hs.closeFired
    ensures var h := Handle(g, ev);
            && h.hs.closeFired && h.flow.lim == g.flow.lim
            && h.hs.controlOpen == (g.hs.controlOpen || ev == ControlOpens)
            && h.hs.sent == g.hs.sent + (if g.hs.controlOpen && g.hs.peerHello.None? && OtherVersion(ev) then [Control.Close(7)] else [])
            && h.streams.retired == g.streams.retired + (if ev.StreamRetired? then {ev.id} else {})
            && h.hs.peerHello ==
               if g.hs.peerHello.None? && Read(ev) != [] && Read(ev)[0].Hello? && Read(ev)[0].version == 1
               then Some(Read(ev)[0].limits) else g.hs.peerHello
  {
    LimStays(g, ev);
    hide CreditEngine.Step, DecodeControl, AcceptOne, AbortOne, RefuseWaiters, Surface, Observe;
    assert g.streams.retired + {} == g.streams.retired && g.hs.sent + [] == g.hs.sent;
  }

  lemma OverTells(lim: Limits, evs: seq<Event>, g: Gate, ev: Event)
    requires Tells(lim, evs, g) && g.hs.closeFired
    ensures Tells(lim, evs + [ev], Handle(g, ev))
  {
    OneMore(lim, evs, ev);
    OverHandles(g, ev);
    if Read(ev) != [] { HelloPush(Heard(evs), Read(ev)[0]); }
    assert Heard(evs) + [] == Heard(evs);
    hide Handle, DecodeControl, Heard, Said, Over, Gone, Channels, AllReadable, FirstHello, Judged, Knows;
  }

  predicate Full(g: Gate) { g.flow.g.peerOpened >= g.flow.g.advertisedMaxStreams }

  /** On a connection that is up: whether it ends, and what is said. */
  lemma UpSpeaks(g: Gate, ev: Event)
    requires !g.hs.closeFired && !g.hs.tearingDown && g.hs.helloSent == g.hs.controlOpen
    ensures var h, v := Handle(g, ev), Verdicts(g.hs.peerHello.Some?, Full(g), ev);
            && h.flow.lim == g.flow.lim
            && h.hs.closeFired == v.Ends?
            && h.hs.controlOpen == (g.hs.controlOpen || ev == ControlOpens)
            && h.hs.sent == g.hs.sent +
               (if !g.hs.controlOpen then (if ev == ControlOpens then [Hello(1, g.flow.lim)] else [])
                else if v.Ends? && v.code.Some? then [Control.Close(v.code.value)] else [])
            && (!h.hs.closeFired ==> !h.hs.tearingDown && h.hs.helloSent == h.hs.controlOpen)
  {
    LimStays(g, ev);
    hide CreditEngine.Step, DecodeControl, AcceptOne, AbortOne, RefuseWaiters, Surface, Observe;
    assert g.hs.sent + [] == g.hs.sent;
  }

  /** And what it leaves known, if it goes on. */
  lemma UpHears(g: Gate, ev: Event)
    requires !g.hs.closeFired
    ensures var h := Handle(g, ev);
            && h.hs.peerHello ==
               (if g.hs.peerHello.None? && Read(ev) != [] && Read(ev)[0].Hello? && Read(ev)[0].version == 1
                then Some(Read(ev)[0].limits) else g.hs.peerHello)
            && h.streams.retired == g.streams.retired + (if ev.StreamRetired? then {ev.id} else {})
            && (!h.hs.closeFired ==>
                 && h.q.observed == g.q.observed + (if ev.Channel? then [ev.id] else [])
                 && h.streams.destroyed == g.streams.destroyed
                 && h.streams.live == (if ev.Channel? then g.streams.live + {ev.id}
                                       else if ev.StreamRetired? then g.streams.live - {ev.id} else g.streams.live))
  {
    SurfaceObserves(g.q);
    hide CreditEngine.Step, DecodeControl, Without, RefuseWaiters, Surface;
    assert g.streams.retired + {} == g.streams.retired && g.q.observed + [] == g.q.observed;
  }

  lemma SurfaceObserves(q: Queues)
    ensures Surface(q).observed == q.observed
  {
    EnqueueAllObserves(q.(staged := []), q.staged);
  }

  lemma {:induction false} EnqueueAllObserves(q: Queues, streams: seq<nat>)
    ensures EnqueueAll(q, streams).observed == q.observed
    decreases |streams|
  {
    if streams != [] { EnqueueAllObserves(Enqueue(q, streams[0]), streams[1..]); }
  }

  /** The send limits after a message that goes on. */
  lemma UpLimits(g: Gate, ev: Event)
    requires !g.hs.closeFired && !Handle(g, ev).hs.closeFired
    ensures LimitsMoved(g.flow.g, Handle(g, ev).flow.g, Read(ev))
  {
    if ev.ControlMessage? {
      IsControl(g, ev.data);
      hide Handle;
      ControlMoves(g, ev.data);
    } else {
      hide OnControl, DecodeControl, AcceptOne, AbortOne, RefuseWaiters, Surface, Observe;
    }
  }

  predicate LimitsMoved(f: Flow.Ledger, f': Flow.Ledger, read: seq<Control>) {
    if read == [] then f'.peerInit == f.peerInit && f'.peerMaxData == f.peerMaxData && f'.peerMaxStreams == f.peerMaxStreams
    else
      match read[0]
      case Hello(_, l) => f'.peerInit == l.maxStreamData && f'.peerMaxData == l.maxData && f'.peerMaxStreams == l.maxStreams
      case MaxData(v) => f'.peerInit == f.peerInit && f'.peerMaxData == Max(f.peerMaxData, v) && f'.peerMaxStreams == f.peerMaxStreams
      case MaxStreams(v) => f'.peerInit == f.peerInit && f'.peerMaxData == f.peerMaxData && f'.peerMaxStreams == Max(f.peerMaxStreams, v)
      case Close(_) => false
  }

  lemma ControlMoves(g: Gate, data: seq<byte>)
    requires !g.hs.closeFired && !OnControl(g, data).hs.closeFired
    ensures LimitsMoved(g.flow.g, OnControl(g, data).flow.g, Read(ControlMessage(data)))
  {
    if DecodeControl(data).Ok? {
      var m := DecodeControl(data).value;
      EngineMoves(g.flow, m);
      if m.Hello? { HelloFlow(g, m.version, m.limits); }
    }
    hide DecodeControl, CreditEngine.Step, RefuseWaiters, OnHello, LimitsMoved;
  }

  lemma HelloFlow(g: Gate, v: byte, l: Limits)
    ensures !g.hs.closeFired && !OnHello(g, v, l).hs.closeFired ==>
      OnHello(g, v, l).flow == CreditEngine.Step(g.flow, CreditEngine.PeerHello(l)).0
  {
    hide CreditEngine.Step, RefuseWaiters, Surface;
  }

  lemma EngineMoves(f: CreditEngine.FlowState, m: Control)
    ensures m.Hello? ==> LimitsMoved(f.g, CreditEngine.Step(f, CreditEngine.PeerHello(m.limits)).0.g, [m])
    ensures m.MaxData? ==> LimitsMoved(f.g, CreditEngine.Step(f, CreditEngine.PeerMaxData(m.limit)).0.g, [m])
    ensures m.MaxStreams? ==> LimitsMoved(f.g, CreditEngine.Step(f, CreditEngine.PeerMaxStreams(m.limit)).0.g, [m])
  {
  }

  lemma UpTells(lim: Limits, evs: seq<Event>, g: Gate, ev: Event)
    requires GateInv(g) && Possible(g, ev) && Tells(lim, evs, g) && !g.hs.closeFired
    ensures Tells(lim, evs + [ev], Handle(g, ev))
  {
    SpeaksOn(lim, evs, g, ev);
    HearsOn(lim, evs, g, ev);
    hide Handle, Heard, Said, Over, Gone, FirstHello, Knows, GateInv, Possible;
    if !Handle(g, ev).hs.closeFired { UpKnows(lim, evs, g, ev); }
  }

  lemma SpeaksOn(lim: Limits, evs: seq<Event>, g: Gate, ev: Event)
    requires GateInv(g) && Tells(lim, evs, g) && !g.hs.closeFired
    ensures var h := Handle(g, ev);
            && h.flow.lim == lim && h.hs.closeFired == Over(lim, evs + [ev]) && h.hs.sent == Said(lim, evs + [ev])
            && h.hs.controlOpen == (ControlOpens in evs + [ev])
  {
    OneMore(lim, evs, ev);
    UpSpeaks(g, ev);
    SaidIs(lim, evs, g, ev);
    hide Handle, Heard, Said, SaidAt, Judged, Over, Gone, Channels, AllReadable, FirstHello, KnowsPeer, KnowsStreams, Full, GateInv, Verdicts, Read;
  }

  lemma HearsOn(lim: Limits, evs: seq<Event>, g: Gate, ev: Event)
    requires Tells(lim, evs, g) && !g.hs.closeFired
    ensures var h := Handle(g, ev);
            h.hs.peerHello == FirstHello(Heard(evs + [ev])) && h.streams.retired == Gone(evs + [ev])
  {
    OneMore(lim, evs, ev);
    UpHears(g, ev);
    ReadsOne(ev);
    if Read(ev) != [] { HelloPush(Heard(evs), Read(ev)[0]); }
    hide Handle, Heard, Said, SaidAt, Judged, Over, Gone, Channels, AllReadable, FirstHello, Knows, Read;
    assert Heard(evs) + [] == Heard(evs);
  }

  lemma ReadsOne(ev: Event)
    ensures Read(ev) == [] || Read(ev) == [Read(ev)[0]]
  {
    hide DecodeControl;
  }

  lemma FullIs(lim: Limits, evs: seq<Event>, g: Gate)
    requires GateInv(g) && Tells(lim, evs, g) && !g.hs.closeFired
    ensures Full(g) <==> |Channels(evs)| >= Min(lim.maxStreams + |Gone(evs)|, MAX_OFFSET)
    ensures g.hs.peerHello.Some? <==> Heard(evs) != []
  {
    SlotsAre(g);
    KnownSoFar(lim, evs, g);
    hide GateInv, Tells, Heard, Gone, Channels, FirstHello;
  }

  lemma KnownSoFar(lim: Limits, evs: seq<Event>, g: Gate)
    requires Tells(lim, evs, g) && !g.hs.closeFired
    ensures g.q.observed == Channels(evs) && g.streams.retired == Gone(evs) && g.flow.lim == lim
    ensures g.hs.peerHello.Some? <==> Heard(evs) != []
  {
    hide Heard, Gone, Channels, Said, Over, AllReadable, Elements, FirstHello, Endpoints.OpenedByHello, Endpoints.AnnouncedData,
      Endpoints.AnnouncedStreams, Endpoints.InitialWindow;
    HelloIsFirst(Heard(evs));
  }

  lemma SlotsAre(g: Gate)
    requires GateInv(g)
    ensures g.flow.g.peerOpened == |g.q.observed|
    ensures g.flow.g.advertisedMaxStreams == Min(g.flow.lim.maxStreams + |g.streams.retired|, MAX_OFFSET)
  {
    hide CreditEngine.Balanced, CreditEngine.NoLostWakeup, StagesOk, SpokenOk, OrderOk, WaitersOk;
  }

  /** The verdict and the words, from the state. */
  lemma SaidIs(lim: Limits, evs: seq<Event>, g: Gate, ev: Event)
    requires GateInv(g) && Tells(lim, evs, g) && !g.hs.closeFired
    ensures Judged(lim, evs, ev) == Verdicts(g.hs.peerHello.Some?, Full(g), ev)
    ensures var v := Verdicts(g.hs.peerHello.Some?, Full(g), ev);
            SaidAt(lim, evs, ev) ==
              if !g.hs.controlOpen then (if ev == ControlOpens then [Hello(1, g.flow.lim)] else [])
              else if v.Ends? && v.code.Some? then [Control.Close(v.code.value)] else []
  {
    FullIs(lim, evs, g);
    hide GateInv, Heard, Said, Gone, Channels, FirstHello, Verdicts, Full, Knows, OtherVersion;
  }

  lemma UpKnows(lim: Limits, evs: seq<Event>, g: Gate, ev: Event)
    requires GateInv(g) && Possible(g, ev) && Tells(lim, evs, g) && !g.hs.closeFired && !Handle(g, ev).hs.closeFired
    ensures Knows(evs + [ev], Handle(g, ev))
  {
    UpSpeaks(g, ev);
    hide Handle, GateInv, Possible, KnowsPeer, KnowsStreams, Heard, Said, Over, Gone, Channels, FirstHello, Verdicts;
    StreamsKnown(lim, evs, g, ev);
    PeerKnown(lim, evs, g, ev);
  }

  lemma StreamsKnown(lim: Limits, evs: seq<Event>, g: Gate, ev: Event)
    requires GateInv(g) && Possible(g, ev) && KnowsStreams(evs, g) && !g.hs.closeFired && !Handle(g, ev).hs.closeFired
    ensures KnowsStreams(evs + [ev], Handle(g, ev))
  {
    OneMore(lim, evs, ev);
    UpHears(g, ev);
    RetiredCame(g);
    assert ev.Channel? ==> ev.id !in g.streams.retired;
    hide Handle, Heard, Said, Over, Gone, Channels, GateInv, Possible, Elements, Judged, SaidAt, AllReadable;
    LiveMore(g.q.observed, g.streams.retired, ev);
    if !ev.Channel? { assert g.q.observed + [] == g.q.observed; }
    if !ev.StreamRetired? { assert g.streams.retired + {} == g.streams.retired; }
  }

  lemma RetiredCame(g: Gate)
    requires GateInv(g)
    ensures forall id :: id in g.streams.retired ==> id in g.q.observed
  {
    hide CreditEngine.Inv;
  }

  lemma PeerKnown(lim: Limits, evs: seq<Event>, g: Gate, ev: Event)
    requires GateInv(g) && Tells(lim, evs, g) && !g.hs.closeFired && !Handle(g, ev).hs.closeFired
    ensures KnowsPeer(evs + [ev], Handle(g, ev))
  {
    OneMore(lim, evs, ev);
    UpSpeaks(g, ev);
    FullIs(lim, evs, g);
    GoesOnIs(g, ev);
    HeardMore(lim, evs, g, ev);
    PeerWas(lim, evs, g);
    UpLimits(g, ev);
    ReadsOne(ev);
    hide *;
    PeerMoves(evs, ev, g, Handle(g, ev));
  }

  lemma PeerMoves(evs: seq<Event>, ev: Event, g: Gate, h: Gate)
    requires KnowsPeer(evs, g) && LimitsMoved(g.flow.g, h.flow.g, Read(ev)) && (Read(ev) == [] || Read(ev) == [Read(ev)[0]])
    requires AllReadable(evs + [ev]) && Heard(evs + [ev]) == Heard(evs) + Read(ev)
    requires Endpoints.OpenedByHello(Heard(evs) + Read(ev))
    requires Read(ev) != [] ==> PeerHeard(Heard(evs), Read(ev)[0], Heard(evs) + Read(ev))
    ensures KnowsPeer(evs + [ev], h)
  {
    hide Heard, Read, AllReadable, Endpoints.AnnouncedData, Endpoints.AnnouncedStreams, Endpoints.OpenedByHello, Endpoints.InitialWindow;
    assert Heard(evs) + [] == Heard(evs);
  }

  /** What message `m` adds to the peer's announcements. */
  predicate PeerHeard(was: seq<Control>, m: Control, now: seq<Control>) {
    && Endpoints.InitialWindow(now) == (if m.Hello? then m.limits.maxStreamData else Endpoints.InitialWindow(was))
    && Endpoints.AnnouncedData(now) == (if m.Hello? then m.limits.maxData else Max(Endpoints.AnnouncedData(was), Endpoints.DataLimitOf(m)))
    && Endpoints.AnnouncedStreams(now) ==
       (if m.Hello? then m.limits.maxStreams else Max(Endpoints.AnnouncedStreams(was), Endpoints.StreamLimitOf(m)))
  }

  lemma PeerWas(lim: Limits, evs: seq<Event>, g: Gate)
    requires Tells(lim, evs, g) && !g.hs.closeFired
    ensures KnowsPeer(evs, g)
  {
    hide KnowsPeer, KnowsStreams, Heard, Gone, Said, Over, FirstHello;
  }

  lemma GoesOnIs(g: Gate, ev: Event)
    ensures Verdicts(g.hs.peerHello.Some?, Full(g), ev).Ends? || Verdicts(g.hs.peerHello.Some?, Full(g), ev) == GoesOn
    ensures ev.ControlMessage? && Verdicts(g.hs.peerHello.Some?, Full(g), ev) == GoesOn ==> DecodeControl(ev.data).Ok?
  {
    hide DecodeControl;
  }

  /** A message that goes on extends the greeting in order. */
  lemma HeardMore(lim: Limits, evs: seq<Event>, g: Gate, ev: Event)
    requires Tells(lim, evs, g) && !g.hs.closeFired && (g.hs.peerHello.Some? <==> Heard(evs) != [])
    requires Verdicts(g.hs.peerHello.Some?, Full(g), ev) == GoesOn
    ensures ev.ControlMessage? ==> Read(ev) != []
    ensures Endpoints.OpenedByHello(Heard(evs) + Read(ev))
    ensures Read(ev) != [] ==> PeerHeard(Heard(evs), Read(ev)[0], Heard(evs) + Read(ev))
  {
    hide DecodeControl, Heard, Said, Over, Gone, Channels, FirstHello, AllReadable;
    var was := Heard(evs);
    if Read(ev) == [] {
      assert was + [] == was;
    } else {
      var m := Read(ev)[0];
      Endpoints.AppendControl(was, m);
      assert was + Read(ev) == was + [m];
      if was != [] { assert (was + [m])[0] == was[0]; } else { NothingAnnounced(); }
    }
  }

  lemma NothingAnnounced()
    ensures Endpoints.AnnouncedData([]) == 0 && Endpoints.AnnouncedStreams([]) == 0
  {
  }

  lemma LiveMore(observed: seq<nat>, retired: set<nat>, ev: Event)
    ensures ev.Channel? && ev.id !in retired ==>
      Elements(observed + [ev.id]) - retired == Elements(observed) - retired + {ev.id}
    ensures ev.StreamRetired? ==> Elements(observed) - (retired + {ev.id}) == Elements(observed) - retired - {ev.id}
  {
  }

  lemma StepTells(lim: Limits, evs: seq<Event>, g: Gate, ev: Event)
    requires GateInv(g) && Possible(g, ev) && Tells(lim, evs, g)
    ensures Tells(lim, evs + [ev], Handle(g, ev))
  {
    hide Tells, Handle, GateInv;
    if g.hs.closeFired { OverTells(lim, evs, g, ev); } else { UpTells(lim, evs, g, ev); }
  }

  lemma StartTells(lim: Limits)
    ensures Tells(lim, [], Start(lim))
  {
    assert Elements([]) == {};
    NothingAnnounced();
  }

  /** In every run: the connection is over, and what has been said, exactly as the events tell. While
      it is up every message that came was in order and of our version, and the send limits are the
      largest that came; so a bad message, a second HELLO, one of another version, or credit before
      HELLO leaves it over. */
  lemma {:induction false} RunTells(lim: Limits, evs: seq<Event>)
    requires LimitsOk(lim) && PossibleRun(Start(lim), evs)
    ensures Tells(lim, evs, After(Start(lim), evs))
    decreases |evs|
  {
    if evs == [] {
      StartTells(lim);
    } else {
      var init, ev := evs[..|evs| - 1], evs[|evs| - 1];
      assert evs == init + [ev];
      AfterSnoc(Start(lim), init, ev);
      RunTells(lim, init);
      StartInv(lim);
      RunKeeps(Start(lim), init);
      hide Tells, Handle, Possible, GateInv, After, PossibleRun;
      StepTells(lim, init, After(Start(lim), init), ev);
    }
  }

  /** The event that ends the connection, and what is said at each: one close, with the code of what
      ended it, if the control channel is open and it was neither the peer's close nor a loss of the
      transport. */
  lemma ClosesExactly(lim: Limits, evs: seq<Event>, ev: Event)
    requires LimitsOk(lim) && PossibleRun(Start(lim), evs) && Possible(After(Start(lim), evs), ev)
    ensures var g := After(Start(lim), evs);
            && (!g.hs.closeFired ==> (Handle(g, ev).hs.closeFired <==> Judged(lim, evs, ev).Ends?))
            && (g.hs.closeFired ==> Handle(g, ev).hs.closeFired)
            && Handle(g, ev).hs.sent == g.hs.sent + SaidAt(lim, evs, ev)
  {
    RunTells(lim, evs);
    StartInv(lim);
    RunKeeps(Start(lim), evs);
    hide Knows, Handle, GateInv, Possible, After, PossibleRun, Judged, SaidAt;
    StepTells(lim, evs, After(Start(lim), evs), ev);
    OneMore(lim, evs, ev);
  }

  /** Once it is over the gate says nothing more, if and only if it is not a HELLO of another version
      before any of ours on a control channel that opened. */
  lemma SilentAfterwards(lim: Limits, evs: seq<Event>, ev: Event)
    requires LimitsOk(lim) && PossibleRun(Start(lim), evs) && Possible(After(Start(lim), evs), ev)
    requires After(Start(lim), evs).hs.closeFired
    ensures var g := After(Start(lim), evs);
            Handle(g, ev).hs.sent == g.hs.sent <==>
              !(ControlOpens in evs && FirstHello(Heard(evs)).None? && OtherVersion(ev))
  {
    RunTells(lim, evs);
    OverHandles(After(Start(lim), evs), ev);
    hide Knows, Handle, After, PossibleRun, Possible, Heard, FirstHello, Said, OtherVersion;
  }

  /** That exception happens: a HELLO of version 2 after the transport was lost is answered. */
  lemma LateVersionAnswered(l: Limits)
    requires LimitsOk(l)
    ensures var lim := Limits(1, 1, 1);
            var evs := [ControlOpens, TransportGone, ControlMessage(EncodeControl(Hello(2, l)))];
            && PossibleRun(Start(lim), evs)
            && After(Start(lim), evs).hs.closeFired && After(Start(lim), evs).hs.sent == [Hello(1, lim), Control.Close(7)]
  {
    ControlRoundTrip(Hello(2, l));
    var lim, data := Limits(1, 1, 1), EncodeControl(Hello(2, l));
    var g1 := Handle(Start(lim), ControlOpens);
    var g2 := Handle(g1, TransportGone);
    assert g1.hs.sent == [Hello(1, lim)] && g2.hs.closeFired && g2.hs.controlOpen && g2.hs.peerHello == None;
    OverHandles(g2, ControlMessage(data));
    hide Handle, EncodeControl, DecodeControl;
    ThreeSteps(Start(lim), ControlOpens, TransportGone, ControlMessage(data));
  }
}
