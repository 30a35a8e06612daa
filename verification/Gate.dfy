/** The connection gate: HELLO establishment, staged and incoming streams, accepting, teardown.

    Every handler runs to its end before the next, so each is one step. Streams and blocked
    accepts are named by numbers; a promise is its outcome. */
module Gate {
  import opened Basics
  import opened Wire
  import opened CreditEngine
  import Flow

  const PROTOCOL_ERROR := 6
  const UNSUPPORTED := 7

  datatype Phase = Connecting | Open | Closed

  datatype Handshake = Handshake(
    phase: Phase, tearingDown: bool, controlOpen: bool,
    helloSent: bool, peerHello: Option<Limits>, established: bool, closeFired: bool,
    sent: seq<Control>, teardowns: nat)

  /** How an accept ended. */
  datatype Outcome = Got(stream: nat) | Refused | Aborted

  /** `observed`: every peer stream, as it came. `handed`: every stream given to an accept, and
      `servedTo` those accepts. */
  datatype Queues = Queues(
    staged: seq<nat>, incoming: seq<nat>, waiters: seq<nat>,
    outcomes: map<nat, Outcome>, observed: seq<nat>, handed: seq<nat>, servedTo: seq<nat>)

  datatype Streams = Streams(live: set<nat>, destroyed: set<nat>, retired: set<nat>)

  datatype Gate = Gate(flow: FlowState, hs: Handshake, q: Queues, streams: Streams)

  datatype Event =
    | ControlOpens
    | ControlMessage(data: seq<byte>)
    | ReservedLost
    | Channel(id: nat)
    | Accept(w: nat)
    | Abort(w: nat)
    | CloseCall(code: nat)
    | Violation(code: nat)
    | TransportGone
    | StreamRetired(id: nat)

  function Start(lim: Limits): Gate {
    Gate(Init(lim), Handshake(Connecting, false, false, false, None, false, false, [], 0),
         Queues([], [], [], map[], [], [], []), Streams({}, {}, {}))
  }

  // ---- queues ----

  /** To the longest-waiting accept, or to the queue. */
  function Enqueue(q: Queues, s: nat): Queues {
    if q.waiters == [] then q.(incoming := q.incoming + [s])
    else q.(waiters := q.waiters[1..], outcomes := q.outcomes[q.waiters[0] := Got(s)],
            handed := q.handed + [s], servedTo := q.servedTo + [q.waiters[0]])
  }

  function EnqueueAll(q: Queues, streams: seq<nat>): Queues
    decreases |streams|
  {
    if streams == [] then q else EnqueueAll(Enqueue(q, streams[0]), streams[1..])
  }

  /** Everything staged is surfaced. */
  function Surface(q: Queues): Queues { EnqueueAll(q.(staged := []), q.staged) }

  function Observe(q: Queues, id: nat, established: bool): Queues {
    var r := q.(observed := q.observed + [id]);
    if established then Enqueue(r, id) else r.(staged := r.staged + [id])
  }

  function AcceptOne(q: Queues, w: nat, closed: bool): Queues {
    if q.incoming != [] then
      q.(incoming := q.incoming[1..], outcomes := q.outcomes[w := Got(q.incoming[0])],
         handed := q.handed + [q.incoming[0]], servedTo := q.servedTo + [w])
    else if closed then q.(outcomes := q.outcomes[w := Refused])
    else q.(waiters := q.waiters + [w])
  }

  function Without(ws: seq<nat>, w: nat): seq<nat> {
    if ws == [] then [] else if ws[0] == w then ws[1..] else [ws[0]] + Without(ws[1..], w)
  }

  function AbortOne(q: Queues, w: nat): Queues {
    if w in q.waiters then q.(waiters := Without(q.waiters, w), outcomes := q.outcomes[w := Aborted]) else q
  }

  function RefuseAll(outcomes: map<nat, Outcome>, ws: seq<nat>): map<nat, Outcome>
    decreases |ws|
  {
    if ws == [] then outcomes else RefuseAll(outcomes[ws[0] := Refused], ws[1..])
  }

  function RefuseWaiters(q: Queues): Queues {
    q.(staged := [], outcomes := RefuseAll(q.outcomes, q.waiters), waiters := [])
  }

  // ---- the handlers ----

  function Send(h: Handshake, m: Control): Handshake {
    if h.controlOpen then h.(sent := h.sent + [m]) else h
  }

  predicate Ready(h: Handshake) { !h.established && !h.closeFired && h.helloSent && h.peerHello.Some? }

  function CheckEstablished(g: Gate): Gate {
    if Ready(g.hs) then g.(hs := g.hs.(established := true, phase := Open), q := Surface(g.q)) else g
  }

  function SendHello(g: Gate): Gate {
    if g.hs.helloSent || g.hs.closeFired then g
    else CheckEstablished(g.(hs := Send(g.hs.(helloSent := true), Hello(WIRE_VERSION, g.flow.lim))))
  }

  function Shut(h: Handshake): Handshake {
    h.(closeFired := true, tearingDown := true, phase := Closed, teardowns := h.teardowns + 1)
  }

  function Teardown(g: Gate): Gate {
    if g.hs.closeFired then g
    else Gate(CreditEngine.Step(g.flow, Fail).0, Shut(g.hs), RefuseWaiters(g.q),
              g.streams.(destroyed := g.streams.destroyed + g.streams.live, live := {}))
  }

  /** A violation by the peer, or a local fatal condition: say so, then tear down. */
  function Fatal(g: Gate, code: nat): Gate {
    if g.hs.closeFired then g else Teardown(g.(hs := Send(g.hs.(tearingDown := true), Close(code))))
  }

  function OnHello(g: Gate, v: byte, l: Limits): Gate {
    if g.hs.peerHello.Some? then Fatal(g, PROTOCOL_ERROR)
    else if v != WIRE_VERSION then Teardown(g.(hs := Send(g.hs, Close(UNSUPPORTED))))
    else CheckEstablished(g.(hs := g.hs.(peerHello := Some(l)), flow := CreditEngine.Step(g.flow, PeerHello(l)).0))
  }

  function OnLimit(g: Gate, op: Op): Gate {
    if g.hs.peerHello.None? then Fatal(g, PROTOCOL_ERROR) else g.(flow := CreditEngine.Step(g.flow, op).0)
  }

  function OnControl(g: Gate, data: seq<byte>): Gate {
    match DecodeControl(data)
    case Err(_) => Fatal(g, PROTOCOL_ERROR)
    case Ok(Hello(v, l)) => OnHello(g, v, l)
    case Ok(Close(_)) => Teardown(g)
    case Ok(MaxData(v)) => OnLimit(g, PeerMaxData(v))
    case Ok(MaxStreams(v)) => OnLimit(g, PeerMaxStreams(v))
  }

  /** An incoming channel takes a slot at once, accepted or not, established or not. */
  function OnChannel(g: Gate, id: nat): Gate {
    if g.flow.g.peerOpened >= g.flow.g.advertisedMaxStreams then Fatal(g, PROTOCOL_ERROR)
    else g.(flow := CreditEngine.Step(g.flow, PeerOpened).0, streams := g.streams.(live := g.streams.live + {id}),
            q := Observe(g.q, id, g.hs.established))
  }

  /** Only streams the peer opened return a slot; they are all this gate hears of. */
  function OnRetired(g: Gate, id: nat): Gate {
    g.(flow := CreditEngine.Step(g.flow, PeerRetired).0,
       streams := g.streams.(live := g.streams.live - {id}, retired := g.streams.retired + {id}))
  }

  function Handle(g: Gate, ev: Event): Gate {
    match ev
    case ControlOpens => SendHello(g.(hs := g.hs.(controlOpen := true)))
    case ControlMessage(data) => OnControl(g, data)
    case ReservedLost => if g.hs.tearingDown || g.hs.closeFired then g else Fatal(g, PROTOCOL_ERROR)
    case Channel(id) => OnChannel(g, id)
    case Accept(w) => g.(q := AcceptOne(g.q, w, g.hs.phase == Closed))
    case Abort(w) => g.(q := AbortOne(g.q, w))
    case CloseCall(code) => Fatal(g, code)
    case Violation(code) => Fatal(g, code)
    case TransportGone => Teardown(g)
    case StreamRetired(id) => OnRetired(g, id)
  }

  /** Channels and accepts are new objects; a stream's retire hook fires once. */
  predicate Possible(g: Gate, ev: Event) {
    match ev
    case Channel(id) => id !in g.q.observed
    case Accept(w) => w !in g.q.waiters && w !in g.q.outcomes
    case StreamRetired(id) => id in g.q.observed && id !in g.streams.retired
    case _ => true
  }

  // ---- the invariant ----

  /** Open exactly from establishment to teardown, and one teardown. */
  ghost predicate StagesOk(h: Handshake) {
    && (h.established ==> h.helloSent && h.peerHello.Some?)
    && h.phase == (if h.closeFired then Closed else if h.established then Open else Connecting)
    && h.teardowns == (if h.closeFired then 1 else 0)
  }

  /** Our HELLO is said first, once, and as soon as the control channel is open. */
  ghost predicate SpokenOk(h: Handshake, lim: Limits) {
    !h.closeFired ==>
      && h.controlOpen == h.helloSent
      && h.sent == if h.helloSent then [Hello(WIRE_VERSION, lim)] else []
  }

  /** Nothing is surfaced before establishment, nothing stays staged after it, and what is handed
      out is, in order, what was observed. */
  ghost predicate OrderOk(q: Queues, established: bool, closed: bool) {
    && (if established then q.staged == [] && q.observed == q.handed + q.incoming
        else q.handed == [] && q.incoming == [] && (!closed ==> q.observed == q.staged))
    && (q.incoming == [] || q.waiters == [])
  }

  predicate Distinct(ws: seq<nat>) { forall i, j :: 0 <= i < j < |ws| ==> ws[i] != ws[j] }

  /** Each accept is waiting or has one outcome; none waits on a closed connection. */
  ghost predicate WaitersOk(q: Queues, closed: bool) {
    && Distinct(q.waiters)
    && (forall w :: w in q.waiters ==> w !in q.outcomes)
    && (closed ==> q.waiters == [])
  }

  /** Slots: one for every stream observed, given back by every stream retired. */
  ghost predicate SlotsOk(f: FlowState, observed: seq<nat>, s: Streams) {
    && f.g.peerOpened == |observed| && f.g.peerRetired == |s.retired|
    && Distinct(observed)
    && (forall id :: id in s.retired || id in s.live || id in s.destroyed ==> id in observed)
  }

  /** All but what the control channel has carried. */
  ghost predicate BodyOk(g: Gate) {
    && StagesOk(g.hs)
    && OrderOk(g.q, g.hs.established, g.hs.closeFired) && WaitersOk(g.q, g.hs.closeFired)
    && CreditEngine.Inv(g.flow) && g.flow.hello == g.hs.peerHello.Some? && g.flow.g.failed == g.hs.closeFired
    && SlotsOk(g.flow, g.q.observed, g.streams)
  }

  ghost predicate GateInv(g: Gate) { BodyOk(g) && SpokenOk(g.hs, g.flow.lim) && !Ready(g.hs) }

  // ---- what the loops do ----

  /** The longest-waiting accepts get the streams, first come first served; what is left over on
      either side stays in order. */
  ghost predicate Surfaced(q: Queues, r: Queues, streams: seq<nat>, k: nat) {
    && k == Min(|q.waiters|, |streams|)
    && r.waiters == q.waiters[k..] && r.handed == q.handed + streams[..k] && r.incoming == q.incoming + streams[k..]
    && r.staged == q.staged && r.observed == q.observed && r.servedTo == q.servedTo + q.waiters[..k]
    && (forall w :: w in r.outcomes <==> w in q.outcomes || w in q.waiters[..k])
    && (forall i :: 0 <= i < k ==> r.outcomes[q.waiters[i]] == Got(streams[i]))
    && (forall w :: w in q.outcomes && w !in q.waiters[..k] ==> r.outcomes[w] == q.outcomes[w])
  }

  lemma {:induction false} EnqueueAllSurfaces(q: Queues, streams: seq<nat>)
    requires (q.incoming == [] || q.waiters == []) && Distinct(q.waiters)
    ensures Surfaced(q, EnqueueAll(q, streams), streams, Min(|q.waiters|, |streams|))
    decreases |streams|
  {
    if streams == [] {
      assert q.waiters[0..] == q.waiters && q.incoming + streams[0..] == q.incoming && q.handed + streams[..0] == q.handed;
      assert q.servedTo + q.waiters[..0] == q.servedTo;
    } else {
      var m, rest := Enqueue(q, streams[0]), streams[1..];
      EnqueueAllSurfaces(m, rest);
      if q.waiters == [] {
        assert m.incoming + rest[0..] == q.incoming + streams[0..] && m.handed + rest[..0] == q.handed + streams[..0];
        assert q.servedTo + q.waiters[..0] == m.servedTo + m.waiters[..0];
      } else {
        SurfacedOneMore(q, m, EnqueueAll(m, rest), streams);
      }
    }
  }

  lemma SurfacedOneMore(q: Queues, m: Queues, r: Queues, streams: seq<nat>)
    requires q.waiters != [] && streams != [] && Distinct(q.waiters) && m == Enqueue(q, streams[0])
    requires Surfaced(m, r, streams[1..], Min(|m.waiters|, |streams| - 1))
    ensures Surfaced(q, r, streams, Min(|q.waiters|, |streams|))
  {
    var k := Min(|m.waiters|, |streams| - 1);
    ServedOneMore(q, m, r, streams, k);
    ListsOneMore(q, m, r, streams, k);
    hide Distinct, Enqueue;
    assert k + 1 == Min(|q.waiters|, |streams|);
  }

  lemma ListsOneMore(q: Queues, m: Queues, r: Queues, streams: seq<nat>, k: nat)
    requires q.waiters != [] && streams != [] && m == Enqueue(q, streams[0])
    requires k == Min(|m.waiters|, |streams| - 1) && Surfaced(m, r, streams[1..], k)
    ensures |m.waiters| + 1 == |q.waiters|
    ensures r.waiters == q.waiters[k + 1..] && r.handed == q.handed + streams[..k + 1]
    ensures r.incoming == q.incoming + streams[k + 1..] && r.staged == q.staged && r.observed == q.observed
    ensures r.servedTo == q.servedTo + q.waiters[..k + 1]
  {
    TakenOneMore(q.handed, q.incoming, streams, k);
    SplitsOneMore(q.servedTo, q.waiters, k);
  }

  lemma SplitsOneMore(servedTo: seq<nat>, waiters: seq<nat>, k: nat)
    requires k < |waiters|
    ensures servedTo + [waiters[0]] + waiters[1..][..k] == servedTo + waiters[..k + 1]
    ensures waiters[1..][k..] == waiters[k + 1..]
  {
    assert [waiters[0]] + waiters[1..][..k] == waiters[..k + 1];
  }

  lemma TakenOneMore(handed: seq<nat>, incoming: seq<nat>, streams: seq<nat>, k: nat)
    requires k < |streams|
    ensures handed + [streams[0]] + streams[1..][..k] == handed + streams[..k + 1]
    ensures incoming + streams[1..][k..] == incoming + streams[k + 1..]
  {
    assert [streams[0]] + streams[1..][..k] == streams[..k + 1];
  }

  lemma ServedOneMore(q: Queues, m: Queues, r: Queues, streams: seq<nat>, k: nat)
    requires q.waiters != [] && streams != [] && Distinct(q.waiters) && m == Enqueue(q, streams[0])
    requires k == Min(|m.waiters|, |streams| - 1) && Surfaced(m, r, streams[1..], k)
    ensures forall w :: w in r.outcomes <==> w in q.outcomes || w in q.waiters[..k + 1]
    ensures forall i :: 0 <= i < k + 1 ==> r.outcomes[q.waiters[i]] == Got(streams[i])
    ensures forall w :: w in q.outcomes && w !in q.waiters[..k + 1] ==> r.outcomes[w] == q.outcomes[w]
  {
    var first, served := q.waiters[0], m.waiters[..k];
    assert q.waiters[..k + 1] == [first] + served && first !in served;
    forall i | 0 <= i < k + 1 ensures q.waiters[i] in r.outcomes && r.outcomes[q.waiters[i]] == Got(streams[i]) {
      if i > 0 {
        assert q.waiters[i] == m.waiters[i - 1] && streams[i] == streams[1..][i - 1];
      } else {
        assert r.outcomes[first] == Got(streams[0]);
      }
    }
  }

  lemma {:induction false} RefuseAllRefuses(outcomes: map<nat, Outcome>, ws: seq<nat>)
    ensures forall w: nat :: w in RefuseAll(outcomes, ws) <==> w in outcomes || w in ws
    ensures forall w: nat :: w in RefuseAll(outcomes, ws) ==>
      RefuseAll(outcomes, ws)[w] == if w in ws then Refused else outcomes[w]
    decreases |ws|
  {
    if ws == [] {
      assert forall w: nat :: w !in ws;
      assert RefuseAll(outcomes, ws) == outcomes;
    } else {
      RefuseAllRefuses(outcomes[ws[0] := Refused], ws[1..]);
      assert RefuseAll(outcomes, ws) == RefuseAll(outcomes[ws[0] := Refused], ws[1..]);
      HeadOrTail(ws);
    }
  }

  lemma HeadOrTail(ws: seq<nat>)
    requires ws != []
    ensures forall w: nat :: w in ws <==> w == ws[0] || w in ws[1..]
  {
    forall w: nat | w in ws ensures w == ws[0] || w in ws[1..] {
      var i :| 0 <= i < |ws| && ws[i] == w;
      if i > 0 { assert ws[1..][i - 1] == w; }
    }
  }

  lemma {:induction false} WithoutRemoves(ws: seq<nat>, i: nat)
    requires i < |ws| && Distinct(ws)
    ensures Without(ws, ws[i]) == ws[..i] + ws[i + 1..]
  {
    if i > 0 {
      assert ws[0] != ws[i] && ws[1..][i - 1] == ws[i];
      WithoutRemoves(ws[1..], i - 1);
      assert ws[1..][..i - 1] == ws[1..i] && ws[1..][i..] == ws[i + 1..];
    }
  }

  // ---- the queues keep their order ----

  lemma SurfaceKeeps(q: Queues)
    requires OrderOk(q, false, false) && WaitersOk(q, false)
    ensures OrderOk(Surface(q), true, false) && WaitersOk(Surface(q), false) && Surface(q).observed == q.observed
  {
    var k: nat := Min(|q.waiters|, |q.staged|);
    EnqueueAllSurfaces(q.(staged := []), q.staged);
    SurfacedInOrder(q, EnqueueAll(q.(staged := []), q.staged), k);
    StillWaiting(q, EnqueueAll(q.(staged := []), q.staged), k);
    hide OrderOk, WaitersOk, EnqueueAll;
  }

  lemma SurfacedInOrder(q: Queues, r: Queues, k: nat)
    requires OrderOk(q, false, false) && Surfaced(q.(staged := []), r, q.staged, k)
    ensures OrderOk(r, true, false) && r.observed == q.observed
  {
    assert r.handed == q.staged[..k] && r.incoming == q.staged[k..];
    assert q.staged[..k] + q.staged[k..] == q.staged;
  }

  lemma StillWaiting(q: Queues, r: Queues, k: nat)
    requires WaitersOk(q, false) && Surfaced(q.(staged := []), r, q.staged, k)
    ensures WaitersOk(r, false)
  {
    forall w | w in r.waiters ensures w !in r.outcomes {
      var i :| 0 <= i < |r.waiters| && r.waiters[i] == w;
      assert w == q.waiters[k + i] && w in q.waiters && w !in q.waiters[..k];
    }
  }

  lemma ObserveKeeps(q: Queues, id: nat, established: bool, closed: bool)
    requires OrderOk(q, established, closed) && WaitersOk(q, closed)
    ensures OrderOk(Observe(q, id, established), established, closed) && WaitersOk(Observe(q, id, established), closed)
    ensures Observe(q, id, established).observed == q.observed + [id]
  {
    if established {
      assert (q.handed + q.incoming) + [id] == q.handed + (q.incoming + [id]);
      assert q.incoming == [] ==> q.handed + q.incoming == q.handed;
    }
  }

  lemma AcceptKeeps(q: Queues, w: nat, established: bool, closed: bool)
    requires OrderOk(q, established, closed) && WaitersOk(q, closed) && w !in q.waiters && w !in q.outcomes
    ensures OrderOk(AcceptOne(q, w, closed), established, closed) && WaitersOk(AcceptOne(q, w, closed), closed)
    ensures AcceptOne(q, w, closed).observed == q.observed
  {
    if q.incoming != [] {
      assert q.handed + q.incoming == (q.handed + [q.incoming[0]]) + q.incoming[1..];
    }
  }

  lemma AbortKeeps(q: Queues, w: nat, established: bool, closed: bool)
    requires OrderOk(q, established, closed) && WaitersOk(q, closed)
    ensures OrderOk(AbortOne(q, w), established, closed) && WaitersOk(AbortOne(q, w), closed)
    ensures AbortOne(q, w).observed == q.observed
  {
    if w in q.waiters { WithoutKeeps(q.waiters, w); }
    hide Without;
  }

  lemma WithoutKeeps(ws: seq<nat>, w: nat)
    requires w in ws && Distinct(ws)
    ensures Distinct(Without(ws, w)) && w !in Without(ws, w)
    ensures forall x :: x in Without(ws, w) ==> x in ws
  {
    var i: nat :| i < |ws| && ws[i] == w;
    WithoutRemoves(ws, i);
    hide Without;
    var rest := ws[..i] + ws[i + 1..];
    assert forall j :: 0 <= j < |rest| ==> rest[j] == if j < i then ws[j] else ws[j + 1];
  }

  lemma RefuseKeeps(q: Queues, established: bool)
    requires OrderOk(q, established, false) && WaitersOk(q, false)
    ensures OrderOk(RefuseWaiters(q), established, true) && WaitersOk(RefuseWaiters(q), true)
  {
  }

  // ---- every handler keeps the invariant ----

  lemma FlowStays(f: FlowState, op: Op)
    ensures var f' := CreditEngine.Step(f, op).0;
            && f'.lim == f.lim && f'.g.failed == (f.g.failed || op == Fail) && f'.hello == (f.hello || op.PeerHello?)
            && (op != PeerOpened ==> f'.g.peerOpened == f.g.peerOpened)
            && (op != PeerRetired ==> f'.g.peerRetired == f.g.peerRetired)
  {
  }

  lemma FlowCounts(f: FlowState)
    ensures CreditEngine.Step(f, PeerRetired).0.g.peerRetired == f.g.peerRetired + 1
    ensures f.g.peerOpened < f.g.advertisedMaxStreams ==>
      CreditEngine.Step(f, PeerOpened).0.g.peerOpened == f.g.peerOpened + 1
  {
  }

  lemma OpenedReply(f: FlowState)
    ensures CreditEngine.Step(f, PeerOpened).1 == Accepted(f.g.peerOpened < f.g.advertisedMaxStreams)
    ensures f.g.peerOpened >= f.g.advertisedMaxStreams ==> CreditEngine.Step(f, PeerOpened).0 == f
  {
  }

  lemma TeardownKeeps(g: Gate)
    requires BodyOk(g)
    ensures GateInv(Teardown(g))
  {
    hide CreditEngine.Inv, CreditEngine.Step, OrderOk, WaitersOk, RefuseAll;
    if !g.hs.closeFired {
      FlowStays(g.flow, Fail);
      StepKeeps(g.flow, Fail);
      RefuseKeeps(g.q, g.hs.established);
    }
  }

  lemma FatalKeeps(g: Gate, code: nat)
    requires GateInv(g)
    ensures GateInv(Fatal(g, code))
  {
    hide CreditEngine.Inv, OrderOk, WaitersOk, SlotsOk, Teardown;
    if !g.hs.closeFired { TeardownKeeps(g.(hs := Send(g.hs.(tearingDown := true), Close(code)))); }
  }

  /** Establishing surfaces everything staged. */
  lemma CheckKeeps(g: Gate)
    requires BodyOk(g) && SpokenOk(g.hs, g.flow.lim)
    ensures GateInv(CheckEstablished(g))
  {
    hide CreditEngine.Inv, OrderOk, WaitersOk, Surface;
    if Ready(g.hs) { SurfaceKeeps(g.q); }
  }

  lemma SendHelloKeeps(g: Gate)
    requires GateInv(g)
    ensures GateInv(Handle(g, ControlOpens))
  {
    hide CreditEngine.Inv, OrderOk, WaitersOk, SlotsOk, CheckEstablished;
    if !g.hs.helloSent && !g.hs.closeFired {
      CheckKeeps(g.(hs := Send(g.hs.(controlOpen := true, helloSent := true), Hello(WIRE_VERSION, g.flow.lim))));
    }
  }

  lemma HelloKeeps(g: Gate, v: byte, l: Limits)
    requires GateInv(g) && LimitsOk(l)
    ensures GateInv(OnHello(g, v, l))
  {
    hide CreditEngine.Inv, CreditEngine.Step, OrderOk, WaitersOk, CheckEstablished, Teardown, Fatal;
    if g.hs.peerHello.Some? {
      FatalKeeps(g, PROTOCOL_ERROR);
    } else if v != WIRE_VERSION {
      TeardownKeeps(g.(hs := Send(g.hs, Close(UNSUPPORTED))));
    } else {
      FlowStays(g.flow, PeerHello(l));
      StepKeeps(g.flow, PeerHello(l));
      CheckKeeps(g.(hs := g.hs.(peerHello := Some(l)), flow := CreditEngine.Step(g.flow, PeerHello(l)).0));
    }
  }

  lemma LimitKeeps(g: Gate, op: Op)
    requires GateInv(g) && (op.PeerMaxData? || op.PeerMaxStreams?) && op.v <= MAX_OFFSET
    ensures GateInv(OnLimit(g, op))
  {
    hide CreditEngine.Inv, CreditEngine.Step, OrderOk, WaitersOk, Fatal;
    if g.hs.peerHello.None? {
      FatalKeeps(g, PROTOCOL_ERROR);
    } else {
      FlowStays(g.flow, op);
      StepKeeps(g.flow, op);
    }
  }

  lemma ControlKeeps(g: Gate, data: seq<byte>)
    requires GateInv(g)
    ensures GateInv(OnControl(g, data))
  {
    hide DecodeControl, OnHello, OnLimit, Fatal, Teardown, GateInv;
    if DecodeControl(data).Err? {
      FatalKeeps(g, PROTOCOL_ERROR);
    } else {
      ControlCanonical(data);
      match DecodeControl(data).value
      case Hello(v, l) => HelloKeeps(g, v, l);
      case Close(_) => CloseKeeps(g);
      case MaxData(v) => LimitKeeps(g, PeerMaxData(v));
      case MaxStreams(v) => LimitKeeps(g, PeerMaxStreams(v));
    }
  }

  lemma CloseKeeps(g: Gate)
    requires GateInv(g)
    ensures GateInv(Teardown(g))
  {
    hide BodyOk, Teardown;
    TeardownKeeps(g);
  }

  lemma ChannelKeeps(g: Gate, id: nat)
    requires GateInv(g) && Possible(g, Channel(id))
    ensures GateInv(OnChannel(g, id))
  {
    hide CreditEngine.Inv, CreditEngine.Step, OrderOk, WaitersOk, Observe, Fatal;
    if g.flow.g.peerOpened >= g.flow.g.advertisedMaxStreams {
      FatalKeeps(g, PROTOCOL_ERROR);
    } else {
      FlowStays(g.flow, PeerOpened);
      FlowCounts(g.flow);
      StepKeeps(g.flow, PeerOpened);
      ObserveKeeps(g.q, id, g.hs.established, g.hs.closeFired);
    }
  }

  lemma QueueKeeps(g: Gate, w: nat)
    requires GateInv(g)
    ensures Possible(g, Accept(w)) ==> GateInv(Handle(g, Accept(w)))
    ensures GateInv(Handle(g, Abort(w)))
  {
    hide CreditEngine.Inv, OrderOk, WaitersOk, SlotsOk, AcceptOne, AbortOne;
    AbortKeeps(g.q, w, g.hs.established, g.hs.closeFired);
    if Possible(g, Accept(w)) { AcceptKeeps(g.q, w, g.hs.established, g.hs.closeFired); }
  }

  function Elements(s: seq<nat>): set<nat> { set x: nat | x in s }

  lemma {:induction false} ElementsSize(s: seq<nat>)
    ensures |Elements(s)| <= |s|
  {
    if s == [] {
      assert Elements(s) == {};
    } else {
      ElementsSize(s[1..]);
      HeadOrTail(s);
      assert Elements(s) == {s[0]} + Elements(s[1..]);
    }
  }

  /** A stream that has not retired leaves more streams observed than retired. */
  lemma FewerRetired(observed: seq<nat>, retired: set<nat>, id: nat)
    requires id in observed && id !in retired && forall j: nat :: j in retired ==> j in observed
    ensures |retired| < |observed|
  {
    ElementsSize(observed);
    SubsetSize(retired + {id}, Elements(observed));
  }

  lemma SubsetSize(a: set<nat>, b: set<nat>)
    requires a <= b
    ensures |a| <= |b|
  {
    assert b == a + (b - a) && |a + (b - a)| == |a| + |b - a|;
  }

  lemma RetiredKeeps(g: Gate, id: nat)
    requires GateInv(g) && Possible(g, StreamRetired(id))
    ensures GateInv(OnRetired(g, id))
  {
    hide CreditEngine.Inv, CreditEngine.Step, OrderOk, WaitersOk;
    FewerRetired(g.q.observed, g.streams.retired, id);
    FlowStays(g.flow, PeerRetired);
    FlowCounts(g.flow);
    StepKeeps(g.flow, PeerRetired);
  }

  lemma GateKeeps(g: Gate, ev: Event)
    requires GateInv(g) && Possible(g, ev)
    ensures GateInv(Handle(g, ev))
  {
    hide GateInv, OnControl, OnChannel, OnRetired, SendHello, Fatal, Teardown, AcceptOne, AbortOne, Possible;
    match ev
    case ControlOpens => SendHelloKeeps(g);
    case ControlMessage(data) => ControlKeeps(g, data);
    case ReservedLost => FatalKeeps(g, PROTOCOL_ERROR);
    case Channel(id) => ChannelKeeps(g, id);
    case Accept(w) => QueueKeeps(g, w);
    case Abort(w) => QueueKeeps(g, w);
    case CloseCall(code) => FatalKeeps(g, code);
    case Violation(code) => FatalKeeps(g, code);
    case TransportGone => CloseKeeps(g);
    case StreamRetired(id) => RetiredKeeps(g, id);
  }

  // ---- whole runs ----

  ghost predicate PossibleRun(g: Gate, evs: seq<Event>)
    decreases |evs|
  {
    evs == [] || (Possible(g, evs[0]) && PossibleRun(Handle(g, evs[0]), evs[1..]))
  }

  function After(g: Gate, evs: seq<Event>): Gate
    decreases |evs|
  {
    if evs == [] then g else After(Handle(g, evs[0]), evs[1..])
  }

  lemma {:induction false} RunKeeps(g: Gate, evs: seq<Event>)
    requires GateInv(g) && PossibleRun(g, evs)
    ensures GateInv(After(g, evs))
    decreases |evs|
  {
    hide GateInv, Handle, Possible;
    if evs != [] {
      GateKeeps(g, evs[0]);
      RunKeeps(Handle(g, evs[0]), evs[1..]);
    }
  }

  lemma StartInv(lim: Limits)
    requires LimitsOk(lim)
    ensures GateInv(Start(lim))
  {
  }

  /** Accepted streams are, in order and without loss or repetition, the streams observed; none
      before mutual HELLO, and none left staged after it. */
  lemma AcceptedInOrder(lim: Limits, evs: seq<Event>)
    requires LimitsOk(lim) && PossibleRun(Start(lim), evs)
    ensures var g := After(Start(lim), evs);
            && g.q.handed <= g.q.observed && Distinct(g.q.observed)
            && (!g.hs.established ==> g.q.handed == [] && g.q.incoming == [])
            && (g.hs.established ==> g.q.staged == [] && g.q.observed == g.q.handed + g.q.incoming)
            && (g.q.incoming == [] || g.q.waiters == [])
            && (!g.hs.closeFired ==> (g.hs.established <==> g.hs.helloSent && g.hs.peerHello.Some?))
  {
    StartInv(lim);
    RunKeeps(Start(lim), evs);
    hide After, PossibleRun, CreditEngine.Inv;
  }

  /** Teardown runs at most once, leaves no accept waiting, and fails every credit wait. */
  lemma TornDownOnce(lim: Limits, evs: seq<Event>)
    requires LimitsOk(lim) && PossibleRun(Start(lim), evs)
    ensures var g := After(Start(lim), evs);
            && g.hs.teardowns <= 1
            && (g.hs.teardowns == 1 <==> g.hs.phase == Closed)
            && (g.hs.phase == Closed ==> g.q.waiters == [] && g.flow.g.failed)
  {
    StartInv(lim);
    RunKeeps(Start(lim), evs);
    hide After, PossibleRun, CreditEngine.Inv;
  }

  /** The window is the one announced first. */
  lemma LimStays(g: Gate, ev: Event)
    ensures Handle(g, ev).flow.lim == g.flow.lim
  {
    hide DecodeControl, EnqueueAll, RefuseAll, RefuseWaiters, Surface, Observe;
    if ev.ControlMessage? { hide Handle; ControlLim(g, ev.data); IsControl(g, ev.data); } else { hide OnControl; }
  }

  lemma IsControl(g: Gate, data: seq<byte>)
    ensures Handle(g, ControlMessage(data)) == OnControl(g, data)
  {
  }

  lemma ControlLim(g: Gate, data: seq<byte>)
    ensures OnControl(g, data).flow.lim == g.flow.lim
  {
    hide DecodeControl, RefuseWaiters, Surface;
  }

  lemma {:induction false} LimAfter(g: Gate, evs: seq<Event>)
    ensures After(g, evs).flow.lim == g.flow.lim
    decreases |evs|
  {
    hide Handle;
    if evs != [] {
      LimStays(g, evs[0]);
      LimAfter(Handle(g, evs[0]), evs[1..]);
    }
  }

  /** However many streams the peer opens, those not yet retired fit the announced window. */
  lemma SlotsAreBounded(lim: Limits, evs: seq<Event>)
    requires LimitsOk(lim) && PossibleRun(Start(lim), evs)
    ensures var g := After(Start(lim), evs);
            |g.q.observed| - |g.streams.retired| <= lim.maxStreams
  {
    StartInv(lim);
    RunKeeps(Start(lim), evs);
    LimAfter(Start(lim), evs);
    hide After, PossibleRun, Balanced, NoLostWakeup;
  }

  /** An arriving channel is let in exactly when fewer streams than the window have yet to retire:
      whether earlier streams were accepted plays no part. */
  lemma AdmittedExactly(lim: Limits, evs: seq<Event>, id: nat)
    requires LimitsOk(lim) && PossibleRun(Start(lim), evs)
    requires var g := After(Start(lim), evs); Possible(g, Channel(id)) && !g.hs.closeFired
    ensures var g := After(Start(lim), evs);
            lim.maxStreams + |g.streams.retired| <= MAX_OFFSET ==>
              (id in Handle(g, Channel(id)).q.observed <==> |g.q.observed| - |g.streams.retired| < lim.maxStreams)
  {
    StartInv(lim);
    RunKeeps(Start(lim), evs);
    LimAfter(Start(lim), evs);
    hide After, PossibleRun, Balanced, NoLostWakeup, RefuseAll;
  }

  /** Streams waiting to be accepted. */
  function Waiting(g: Gate): nat { |g.q.staged| + |g.q.incoming| }

  /** The streams waiting to be accepted fit the window but for those that retired unaccepted. */
  lemma QueueFits(lim: Limits, evs: seq<Event>)
    requires LimitsOk(lim) && PossibleRun(Start(lim), evs)
    ensures var g := After(Start(lim), evs);
            !g.hs.closeFired ==> Waiting(g) <= lim.maxStreams + |g.streams.retired - Elements(g.q.handed)|
  {
    SlotsAreBounded(lim, evs);
    AcceptedInOrder(lim, evs);
    StartInv(lim);
    RunKeeps(Start(lim), evs);
    var g := After(Start(lim), evs);
    if !g.hs.closeFired {
      StagedOrHanded(g);
      hide After, PossibleRun, GateInv, Elements;
      RetiredOrNot(g.streams.retired, g.q.handed);
    }
  }

  lemma StagedOrHanded(g: Gate)
    requires GateInv(g) && !g.hs.closeFired
    ensures |g.q.observed| == |g.q.handed| + Waiting(g)
  {
    hide CreditEngine.Inv;
  }

  lemma RetiredOrNot(retired: set<nat>, handed: seq<nat>)
    ensures |retired| <= |handed| + |retired - Elements(handed)|
  {
    ElementsSize(handed);
    var both := retired * Elements(handed);
    SubsetSize(both, Elements(handed));
    assert retired == both + (retired - Elements(handed));
  }

  /** The channel that takes the queue past the window: it is full, and more streams have retired
      than were ever accepted. */
  predicate Overfills(g: Gate, ev: Event) {
    ev.Channel? && Waiting(g) == g.flow.lim.maxStreams && |g.q.handed| < |g.streams.retired|
  }

  /** Short of the ceiling of all counts, and with the connection up. */
  predicate Ordinary(g: Gate) {
    !g.hs.closeFired && g.flow.lim.maxStreams + |g.streams.retired| <= MAX_OFFSET
  }

  /** A queue within the window leaves it at exactly such a step. */
  lemma QueueExceedsExactly(g: Gate, ev: Event)
    requires GateInv(g) && Possible(g, ev) && Ordinary(g) && Waiting(g) <= g.flow.lim.maxStreams
    ensures Waiting(Handle(g, ev)) > g.flow.lim.maxStreams <==> Overfills(g, ev)
  {
    if ev.Channel? { ChannelExceeds(g, ev.id); } else { NoMoreWaiting(g, ev); }
  }

  lemma ChannelExceeds(g: Gate, id: nat)
    requires GateInv(g) && Possible(g, Channel(id)) && Ordinary(g) && Waiting(g) <= g.flow.lim.maxStreams
    ensures Waiting(Handle(g, Channel(id))) > g.flow.lim.maxStreams <==> Overfills(g, Channel(id))
  {
    StagedOrHanded(g);
    SetOfObserved(g);
    hide Balanced, NoLostWakeup, RefuseAll, Elements;
  }

  lemma SetOfObserved(g: Gate)
    requires GateInv(g)
    ensures |g.streams.retired| <= |g.q.observed|
  {
    ElementsSize(g.q.observed);
    SubsetSize(g.streams.retired, Elements(g.q.observed));
    hide CreditEngine.Inv;
  }

  /** Every other step leaves the queue as it is, moves it on, or empties it. */
  lemma NoMoreWaiting(g: Gate, ev: Event)
    requires GateInv(g) && Possible(g, ev) && !ev.Channel?
    ensures Waiting(Handle(g, ev)) <= Waiting(g)
  {
    if ev.ControlOpens? || ev.ControlMessage? {
      if !g.hs.established && !g.hs.closeFired { SurfaceWaits(g.q); }
      hide CreditEngine.Inv, OrderOk, WaitersOk, SlotsOk, CreditEngine.Step, DecodeControl, Surface, RefuseAll;
    } else {
      hide GateInv, CreditEngine.Step, OnControl, SendHello, RefuseAll, Without, EnqueueAll;
    }
  }

  lemma SurfaceWaits(q: Queues)
    requires OrderOk(q, false, false) && WaitersOk(q, false)
    ensures |Surface(q).staged| + |Surface(q).incoming| <= |q.staged| + |q.incoming|
  {
    EnqueueAllSurfaces(q.(staged := []), q.staged);
    hide EnqueueAll;
  }

  lemma AfterSnoc(g: Gate, evs: seq<Event>, ev: Event)
    ensures After(g, evs + [ev]) == Handle(After(g, evs), ev)
    ensures PossibleRun(g, evs + [ev]) ==> PossibleRun(g, evs) && Possible(After(g, evs), ev)
    decreases |evs|
  {
    hide Handle, Possible;
    if evs == [] {
      assert evs + [ev] == [ev] && [ev][1..] == [];
    } else {
      AfterSnoc(Handle(g, evs[0]), evs[1..], ev);
      assert (evs + [ev])[0] == evs[0] && (evs + [ev])[1..] == evs[1..] + [ev];
    }
  }

  /** The gate before event `k` of the run. */
  function Before(lim: Limits, evs: seq<Event>, k: nat): Gate
    requires k <= |evs|
  {
    After(Start(lim), evs[..k])
  }

  /** A whole run keeps the accept queue within the window if and only if no channel ever arrives at
      a full queue after more streams retired than were accepted. */
  lemma {:induction false} QueueStaysInWindow(lim: Limits, evs: seq<Event>)
    requires LimitsOk(lim) && PossibleRun(Start(lim), evs)
    requires forall k :: 0 <= k <= |evs| ==> Ordinary(Before(lim, evs, k))
    ensures (forall k :: 0 <= k <= |evs| ==> Waiting(Before(lim, evs, k)) <= lim.maxStreams) <==>
            (forall k :: 0 <= k < |evs| ==> !Overfills(Before(lim, evs, k), evs[k]))
    decreases |evs|
  {
    hide PossibleRun, After, Handle, Possible, GateInv, Ordinary, Overfills, Waiting;
    if evs == [] {
      NothingWaits(lim);
      assert evs[..0] == [];
    } else {
      var n := |evs| - 1;
      var init, ev := evs[..n], evs[n];
      assert evs == init + [ev] && evs[..|evs|] == evs;
      AfterSnoc(Start(lim), init, ev);
      forall k | 0 <= k <= n ensures Before(lim, evs, k) == Before(lim, init, k) {
        assert init[..k] == evs[..k];
      }
      forall k | 0 <= k <= |init| ensures Ordinary(Before(lim, init, k)) {
        assert Ordinary(Before(lim, evs, k));
      }
      QueueStaysInWindow(lim, init);
      LastStep(lim, evs, n);
    }
  }

  lemma NothingWaits(lim: Limits)
    ensures Waiting(After(Start(lim), [])) == 0
  {
  }

  lemma LastStep(lim: Limits, evs: seq<Event>, n: nat)
    requires n + 1 == |evs| && LimitsOk(lim) && PossibleRun(Start(lim), evs) && Ordinary(Before(lim, evs, n))
    ensures Waiting(Before(lim, evs, n)) <= lim.maxStreams ==>
            (Waiting(Before(lim, evs, n + 1)) > lim.maxStreams <==> Overfills(Before(lim, evs, n), evs[n]))
  {
    var init := evs[..n];
    var g := After(Start(lim), init);
    LastIs(lim, evs, n);
    StartInv(lim);
    hide *;
    if Waiting(g) <= lim.maxStreams { QueueExceedsExactly(g, evs[n]); }
  }

  /** The last two states of a run. */
  lemma LastIs(lim: Limits, evs: seq<Event>, n: nat)
    requires n + 1 == |evs| && LimitsOk(lim) && PossibleRun(Start(lim), evs)
    ensures var g := After(Start(lim), evs[..n]);
            && Before(lim, evs, n) == g && Before(lim, evs, n + 1) == Handle(g, evs[n])
            && GateInv(g) && Possible(g, evs[n]) && g.flow.lim == lim
  {
    hide *;
    StartInv(lim);
    LimIs(lim);
    var init := evs[..n];
    assert evs == init + [evs[n]] && evs[..n + 1] == evs;
    AfterSnoc(Start(lim), init, evs[n]);
    BeforeIs(lim, evs, n);
    BeforeIs(lim, evs, n + 1);
    RunKeeps(Start(lim), init);
    LimAfter(Start(lim), init);
  }

  lemma BeforeIs(lim: Limits, evs: seq<Event>, k: nat)
    requires k <= |evs|
    ensures Before(lim, evs, k) == After(Start(lim), evs[..k])
  {
  }

  lemma LimIs(lim: Limits)
    ensures Start(lim).flow.lim == lim
  {
  }

  /** That exception is real: with a window of one, a stream that retires before it is accepted
      leaves two waiting. */
  lemma QueueOutgrows()
    ensures var lim := Limits(1, 1, 1);
            var evs := [Channel(0), StreamRetired(0), Channel(1)];
            PossibleRun(Start(lim), evs) && After(Start(lim), evs).q.staged == [0, 1]
  {
    var lim := Limits(1, 1, 1);
    FirstGone(lim);
    var g2 := Handle(Handle(Start(lim), Channel(0)), StreamRetired(0));
    SecondWaits(g2);
    hide Handle, Possible;
    ThreeSteps(Start(lim), Channel(0), StreamRetired(0), Channel(1));
  }

  lemma FirstGone(lim: Limits)
    requires lim.maxStreams == 1
    ensures var g1 := Handle(Start(lim), Channel(0));
            var g2 := Handle(g1, StreamRetired(0));
            && Possible(Start(lim), Channel(0)) && Possible(g1, StreamRetired(0))
            && g2.q.staged == [0] && g2.q.observed == [0] && !g2.hs.established
            && g2.flow.g.peerOpened == 1 && g2.flow.g.advertisedMaxStreams == 2
  {
    hide Fatal, OnControl;
  }

  lemma SecondWaits(g: Gate)
    requires g.q.staged == [0] && g.q.observed == [0] && !g.hs.established
    requires g.flow.g.peerOpened < g.flow.g.advertisedMaxStreams
    ensures Possible(g, Channel(1)) && Handle(g, Channel(1)).q.staged == [0, 1]
  {
    hide CreditEngine.Step;
  }

  lemma ThreeSteps(g: Gate, a: Event, b: Event, c: Event)
    requires Possible(g, a) && Possible(Handle(g, a), b) && Possible(Handle(Handle(g, a), b), c)
    ensures PossibleRun(g, [a, b, c]) && After(g, [a, b, c]) == Handle(Handle(Handle(g, a), b), c)
  {
    hide Handle, Possible;
    var g1, g2 := Handle(g, a), Handle(Handle(g, a), b);
    assert [a, b, c][1..] == [b, c] && [b, c][1..] == [c] && [c][1..] == [];
    assert PossibleRun(g2, [c]) && After(g2, [c]) == Handle(g2, c);
    assert PossibleRun(g1, [b, c]) && After(g1, [b, c]) == Handle(g2, c);
  }

  /** A promise is settled once: no step changes how an accept ended. */
  lemma OutcomesAreFinal(g: Gate, ev: Event, w: nat)
    requires GateInv(g) && Possible(g, ev) && w in g.q.outcomes
    ensures w in Handle(g, ev).q.outcomes && Handle(g, ev).q.outcomes[w] == g.q.outcomes[w]
  {
    hide CreditEngine.Inv, CreditEngine.Step, SlotsOk, DecodeControl, EnqueueAll, RefuseWaiters;
    RefuseIsFinal(g.q, w);
    if !g.hs.established && !g.hs.closeFired { SurfaceIsFinal(g.q, w); }
    hide OrderOk, Surface;
  }

  lemma RefuseIsFinal(q: Queues, w: nat)
    requires w in q.outcomes && WaitersOk(q, false)
    ensures w in RefuseWaiters(q).outcomes && RefuseWaiters(q).outcomes[w] == q.outcomes[w]
  {
    RefuseAllRefuses(q.outcomes, q.waiters);
  }

  lemma SurfaceIsFinal(q: Queues, w: nat)
    requires w in q.outcomes && OrderOk(q, false, false) && WaitersOk(q, false)
    ensures w in Surface(q).outcomes && Surface(q).outcomes[w] == q.outcomes[w]
  {
    EnqueueAllSurfaces(q.(staged := []), q.staged);
    hide EnqueueAll;
  }

  /** The step that tears down refuses every accept that was waiting and destroys every stream. */
  lemma TeardownSettlesAll(g: Gate, ev: Event)
    requires GateInv(g) && Possible(g, ev) && !g.hs.closeFired && Handle(g, ev).hs.closeFired
    ensures forall w :: w in g.q.waiters ==> w in Handle(g, ev).q.outcomes && Handle(g, ev).q.outcomes[w] == Refused
    ensures Handle(g, ev).streams.live == {} && g.streams.live <= Handle(g, ev).streams.destroyed
    ensures Handle(g, ev).q.staged == []
  {
    RefuseAllRefuses(g.q.outcomes, g.q.waiters);
    ClosesByTeardown(g, ev);
    hide GateInv, Handle, RefuseAll;
  }

  /** The queues and streams a closing step leaves are those of the teardown. */
  lemma ClosesByTeardown(g: Gate, ev: Event)
    requires !g.hs.closeFired && Handle(g, ev).hs.closeFired
    ensures Handle(g, ev).q == RefuseWaiters(g.q)
    ensures Handle(g, ev).streams == g.streams.(destroyed := g.streams.destroyed + g.streams.live, live := {})
  {
    hide CreditEngine.Step, DecodeControl, EnqueueAll, RefuseWaiters;
  }

  /** Nothing stops a channel that arrives after teardown: it is registered and queued exactly
      when a slot is free. */
  lemma LateChannel(g: Gate, id: nat)
    requires GateInv(g) && g.hs.closeFired && Possible(g, Channel(id))
    ensures id in Handle(g, Channel(id)).streams.live <==> g.flow.g.peerOpened < g.flow.g.advertisedMaxStreams
    ensures g.flow.g.peerOpened < g.flow.g.advertisedMaxStreams ==>
      if g.hs.established then id in Handle(g, Channel(id)).q.incoming else id in Handle(g, Channel(id)).q.staged
  {
    hide CreditEngine.Inv, CreditEngine.Step;
    assert id !in g.q.observed;
  }

  /** Once closed, nothing is destroyed any more. */
  lemma ClosedDestroysNothing(g: Gate, ev: Event)
    requires g.hs.closeFired
    ensures Handle(g, ev).hs.closeFired && Handle(g, ev).streams.destroyed == g.streams.destroyed
    ensures forall id :: id in g.streams.live ==> id in Handle(g, ev).streams.live || id in Handle(g, ev).streams.retired
    ensures g.streams.retired <= Handle(g, ev).streams.retired
  {
    hide CreditEngine.Step, DecodeControl, EnqueueAll, RefuseAll;
  }

  /** So through every later run such a stream is not destroyed; it stays registered until it
      retires by itself. */
  lemma {:induction false} LateChannelStays(g: Gate, id: nat, evs: seq<Event>)
    requires g.hs.closeFired && id !in g.streams.destroyed && (id in g.streams.live || id in g.streams.retired)
    ensures var h := After(g, evs);
            h.hs.closeFired && id !in h.streams.destroyed && (id in h.streams.live || id in h.streams.retired)
    decreases |evs|
  {
    hide Handle;
    if evs != [] {
      ClosedDestroysNothing(g, evs[0]);
      LateChannelStays(Handle(g, evs[0]), id, evs[1..]);
    }
  }

  /** After any run that ends in a closed connection with a slot free, a channel that arrives is
      never destroyed, however the run goes on. */
  lemma NeverDestroyed(lim: Limits, evs: seq<Event>, id: nat, more: seq<Event>)
    requires LimitsOk(lim) && PossibleRun(Start(lim), evs)
    requires var g := After(Start(lim), evs);
             g.hs.closeFired && Possible(g, Channel(id)) && g.flow.g.peerOpened < g.flow.g.advertisedMaxStreams
    ensures var h := After(Handle(After(Start(lim), evs), Channel(id)), more);
            id !in h.streams.destroyed && (id in h.streams.live || id in h.streams.retired)
  {
    StartInv(lim);
    RunKeeps(Start(lim), evs);
    var g := After(Start(lim), evs);
    NewIsNotDestroyed(g, id);
    LateChannel(g, id);
    ClosedDestroysNothing(g, Channel(id));
    hide After, PossibleRun, Handle, GateInv;
    LateChannelStays(Handle(g, Channel(id)), id, more);
  }

  lemma NewIsNotDestroyed(g: Gate, id: nat)
    requires GateInv(g) && Possible(g, Channel(id))
    ensures id !in g.streams.destroyed
  {
    hide CreditEngine.Inv;
  }

  /** There is such a run: the transport goes before anything else has come. */
  lemma LateChannelHappens()
    ensures var lim := Limits(1, 1, 1);
            var g := After(Start(lim), [TransportGone]);
            && PossibleRun(Start(lim), [TransportGone]) && g.hs.closeFired && Possible(g, Channel(0))
            && g.flow.g.peerOpened < g.flow.g.advertisedMaxStreams
  {
    var g := Handle(Start(Limits(1, 1, 1)), TransportGone);
    assert [TransportGone][1..] == [];
    assert After(g, []) == g && PossibleRun(g, []);
  }

  // ---- the connection object ----

  class ConnCore {
    const flow: ConnFlow

    var state: Phase
    var tearingDown: bool
    var controlOpen: bool
    var helloSent: bool
    var peerHello: Option<Limits>
    var establishedDone: bool
    var closeFired: bool
    var sent: seq<Control>
    var staged: seq<nat>
    var incoming: seq<nat>
    var acceptWaiters: seq<nat>
    var settled: map<nat, Outcome>
    var streams: set<nat>
    var destroyed: set<nat>
    ghost var teardowns: nat
    ghost var observed: seq<nat>
    ghost var handed: seq<nat>
    ghost var servedTo: seq<nat>
    ghost var retired: set<nat>

    ghost function Hs(): Handshake
      reads this`state, this`tearingDown, this`controlOpen, this`helloSent, this`peerHello, this`establishedDone
      reads this`closeFired, this`sent, this`teardowns
      ensures Hs().established == establishedDone && Hs().closeFired == closeFired && Hs().helloSent == helloSent
    {
      Handshake(state, tearingDown, controlOpen, helloSent, peerHello, establishedDone, closeFired, sent, teardowns)
    }

    ghost function Q(): Queues
      reads this`staged, this`incoming, this`acceptWaiters, this`settled, this`observed, this`handed, this`servedTo
    {
      Queues(staged, incoming, acceptWaiters, settled, observed, handed, servedTo)
    }

    ghost function Value(): Gate
      reads this, flow
    {
      Gate(flow.Value(), Hs(), Q(), Streams(streams, destroyed, retired))
    }

    ghost predicate Valid()
      reads this, flow
    {
      GateInv(Value())
    }

    constructor (lim: Limits)
      requires LimitsOk(lim)
      ensures Valid() && fresh(flow) && Value() == Start(lim)
    {
      flow := new ConnFlow(lim);
      state, tearingDown, controlOpen := Connecting, false, false;
      helloSent, peerHello, establishedDone, closeFired := false, None, false, false;
      sent, staged, incoming, acceptWaiters, settled := [], [], [], [], map[];
      streams, destroyed := {}, {};
      teardowns, observed, handed, servedTo, retired := 0, [], [], [], {};
      new;
      StartInv(lim);
    }

    // ---- queues ----

    method EnqueueIncoming(s: nat)
      modifies this`incoming, this`acceptWaiters, this`settled, this`handed, this`servedTo
      ensures Q() == Enqueue(old(Q()), s)
    {
      if acceptWaiters != [] {
        settled := settled[acceptWaiters[0] := Got(s)];
        handed, servedTo := handed + [s], servedTo + [acceptWaiters[0]];
        acceptWaiters := acceptWaiters[1..];
      } else {
        incoming := incoming + [s];
      }
    }

    /** The tail of establishing: surface what was staged. */
    method SurfaceStaged()
      modifies this`staged, this`incoming, this`acceptWaiters, this`settled, this`handed, this`servedTo
      ensures Q() == Surface(old(Q()))
    {
      var list := staged;
      staged := [];
      ghost var q := Q();
      var i := 0;
      while i < |list|
        invariant 0 <= i <= |list|
        invariant EnqueueAll(q, list) == EnqueueAll(Q(), list[i..])
      {
        assert list[i..][1..] == list[i + 1..];
        EnqueueIncoming(list[i]);
        i := i + 1;
      }
    }

    /** The longest-waiting accepts are refused first. */
    method RefuseWaiting()
      modifies this`staged, this`acceptWaiters, this`settled
      ensures Q() == RefuseWaiters(old(Q()))
    {
      var i := 0;
      while i < |acceptWaiters|
        invariant 0 <= i <= |acceptWaiters|
        invariant RefuseAll(old(settled), acceptWaiters) == RefuseAll(settled, acceptWaiters[i..])
        invariant acceptWaiters == old(acceptWaiters)
      {
        assert acceptWaiters[i..][1..] == acceptWaiters[i + 1..];
        settled := settled[acceptWaiters[i] := Refused];
        i := i + 1;
      }
      staged := [];
      acceptWaiters := [];
    }

    method AcceptStream(w: nat)
      requires Valid() && Possible(Value(), Event.Accept(w))
      modifies this`incoming, this`acceptWaiters, this`settled, this`handed, this`servedTo
      ensures Valid() && Value() == Handle(old(Value()), Event.Accept(w))
    {
      GateKeeps(Value(), Event.Accept(w));
      hide GateInv, ConnFlow.Value, AcceptOne;
      TakeOrWait(w);
    }

    /** The oldest stream, or a refusal on a closed connection, or a place in the line. */
    method TakeOrWait(w: nat)
      modifies this`incoming, this`acceptWaiters, this`settled, this`handed, this`servedTo
      ensures Q() == AcceptOne(old(Q()), w, state == Closed)
    {
      if incoming != [] {
        settled := settled[w := Got(incoming[0])];
        handed, servedTo := handed + [incoming[0]], servedTo + [w];
        incoming := incoming[1..];
      } else if state == Closed {
        settled := settled[w := Refused];
      } else {
        acceptWaiters := acceptWaiters + [w];
      }
    }

    /** An accept given up while it waits is taken out of the line. */
    method AbortAccept(w: nat)
      requires Valid()
      modifies this`acceptWaiters, this`settled
      ensures Valid() && Value() == Handle(old(Value()), Event.Abort(w))
    {
      GateKeeps(Value(), Event.Abort(w));
      WaitersDistinct();
      hide GateInv, Valid, ConnFlow.Value, Hs, Distinct;
      ghost var q := Q();
      var i := 0;
      while i < |acceptWaiters| && acceptWaiters[i] != w
        invariant 0 <= i <= |acceptWaiters| && w !in acceptWaiters[..i]
      {
        i := i + 1;
      }
      if i < |acceptWaiters| {
        WithoutRemoves(acceptWaiters, i);
        acceptWaiters := acceptWaiters[..i] + acceptWaiters[i + 1..];
        settled := settled[w := Aborted];
      } else {
        assert acceptWaiters[..i] == acceptWaiters;
      }
    }

    lemma WaitersDistinct()
      requires Valid()
      ensures Distinct(acceptWaiters)
    {
    }

    // ---- establishing ----

    method TrySendControl(m: Control)
      modifies this`sent
      ensures Hs() == Send(old(Hs()), m)
    {
      if controlOpen {
        sent := sent + [m];
      }
    }

    method MaybeEstablish()
      modifies this`establishedDone, this`state, this`staged, this`incoming, this`acceptWaiters, this`settled, this`handed, this`servedTo
      ensures Value() == CheckEstablished(old(Value()))
    {
      hide ConnFlow.Value, Surface;
      if establishedDone || closeFired || !helloSent || peerHello.None? {
        return;
      }
      MarkOpen();
      hide Hs;
      SurfaceStaged();
    }

    method MarkOpen()
      modifies this`establishedDone, this`state
      ensures Hs() == old(Hs()).(established := true, phase := Open)
    {
      establishedDone := true;
      state := Open;
    }

    method OnControlOpen()
      requires Valid()
      modifies this
      ensures Valid() && Value() == Handle(old(Value()), ControlOpens)
    {
      GateKeeps(Value(), ControlOpens);
      hide GateInv, ConnFlow.Value, CheckEstablished;
      controlOpen := true;
      if helloSent || closeFired {
        return;
      }
      SayHello();
      hide Hs, Q;
      MaybeEstablish();
    }

    method SayHello()
      modifies this`helloSent, this`sent
      ensures Hs() == Send(old(Hs()).(helloSent := true), Hello(WIRE_VERSION, flow.Value().lim))
    {
      LimIsLim();
      helloSent := true;
      TrySendControl(Hello(WIRE_VERSION, flow.lim));
    }

    lemma LimIsLim()
      ensures flow.Value().lim == flow.lim
    {
    }

    // ---- teardown ----

    method TearDown()
      modifies this, flow
      ensures Value() == Teardown(old(Value()))
    {
      hide ConnFlow.Value, CreditEngine.Step, RefuseWaiters, Shut, Hs, Q;
      if closeFired {
        return;
      }
      MarkClosed();
      flow.FailAll();
      RefuseWaiting();
      destroyed, streams := destroyed + streams, {};
    }

    method MarkClosed()
      modifies this`closeFired, this`tearingDown, this`state, this`teardowns
      ensures Hs() == Shut(old(Hs()))
    {
      closeFired := true;
      tearingDown := true;
      state := Closed;
      teardowns := teardowns + 1;
    }

    method FailWith(code: nat)
      modifies this, flow
      ensures Value() == Fatal(old(Value()), code)
    {
      hide ConnFlow.Value, Teardown;
      if closeFired {
        return;
      }
      tearingDown := true;
      TrySendControl(Control.Close(code));
      TearDown();
    }

    method CloseConnection(code: nat)
      requires Valid()
      modifies this, flow
      ensures Valid() && Value() == Handle(old(Value()), CloseCall(code))
    {
      GateKeeps(Value(), CloseCall(code));
      hide GateInv, Fatal;
      FailWith(code);
    }

    method OnReservedLost()
      requires Valid()
      modifies this, flow
      ensures Valid() && Value() == Handle(old(Value()), ReservedLost)
    {
      GateKeeps(Value(), ReservedLost);
      hide GateInv, Fatal;
      if !tearingDown && !closeFired {
        FailWith(PROTOCOL_ERROR);
      }
    }

    method OnTransportGone()
      requires Valid()
      modifies this, flow
      ensures Valid() && Value() == Handle(old(Value()), TransportGone)
    {
      GateKeeps(Value(), TransportGone);
      hide GateInv, Teardown;
      TearDown();
    }

    // ---- messages and channels ----

    method OnPeerHello(v: byte, l: Limits)
      requires CreditEngine.Allowed(flow.Value(), PeerHello(l)) || peerHello.Some?
      modifies this, flow
      ensures Value() == OnHello(old(Value()), v, l)
    {
      hide ConnFlow.Value, CreditEngine.Step, Fatal, Teardown, CheckEstablished;
      if peerHello.Some? {
        FailWith(PROTOCOL_ERROR);
      } else if v != WIRE_VERSION {
        TrySendControl(Control.Close(UNSUPPORTED));
        TearDown();
      } else {
        peerHello := Some(l);
        flow.OnPeerHello(l);
        MaybeEstablish();
      }
    }

    lemma HelloAllowed(l: Limits)
      requires Valid() && LimitsOk(l) && peerHello.None?
      ensures CreditEngine.Allowed(flow.Value(), PeerHello(l))
    {
      hide CreditEngine.Inv;
    }

    lemma LimitAllowed(v: nat)
      requires Valid() && v <= MAX_OFFSET && peerHello.Some?
      ensures CreditEngine.Allowed(flow.Value(), PeerMaxData(v)) && CreditEngine.Allowed(flow.Value(), PeerMaxStreams(v))
    {
      hide CreditEngine.Inv;
    }

    method OnControlMessage(data: seq<byte>)
      requires Valid()
      modifies this, flow
      ensures Valid() && Value() == Handle(old(Value()), ControlMessage(data))
    {
      GateKeeps(Value(), ControlMessage(data));
      hide Valid, GateInv, ConnFlow.Value, CreditEngine.Step, CreditEngine.Allowed, DecodeControl, Fatal, Teardown, OnHello;
      var m := DecodeControl(data);
      if m.Err? {
        FailWith(PROTOCOL_ERROR);
        return;
      }
      ControlCanonical(data);
      match m.value
      case Hello(v, l) =>
        if peerHello.None? { HelloAllowed(l); }
        OnPeerHello(v, l);
      case Close(_) =>
        TearDown();
      case MaxData(v) =>
        if peerHello.None? {
          FailWith(PROTOCOL_ERROR);
        } else {
          LimitAllowed(v);
          flow.OnPeerMaxData(v);
        }
      case MaxStreams(v) =>
        if peerHello.None? {
          FailWith(PROTOCOL_ERROR);
        } else {
          LimitAllowed(v);
          flow.OnPeerMaxStreams(v);
        }
    }

    method HandleIncomingChannel(id: nat)
      requires Valid() && Possible(Value(), Channel(id))
      modifies this, flow
      ensures Valid() && Value() == Handle(old(Value()), Channel(id))
    {
      GateKeeps(Value(), Channel(id));
      hide GateInv, OnChannel;
      Arrive(id);
    }

    method CountStream() returns (ok: bool)
      modifies flow
      ensures ok == (old(flow.Value().g.peerOpened) < old(flow.Value().g.advertisedMaxStreams))
      ensures flow.Value() == if ok then CreditEngine.Step(old(flow.Value()), PeerOpened).0 else old(flow.Value())
    {
      OpenedReply(flow.Value());
      hide ConnFlow.Value, CreditEngine.Step;
      ok := flow.PeerStreamWasOpened();
    }

    method Arrive(id: nat)
      modifies this, flow
      ensures Value() == OnChannel(old(Value()), id)
    {
      hide ConnFlow.Value, CreditEngine.Step, Fatal, Observe, Hs, Q;
      var ok := CountStream();
      if ok {
        Surfacing(id);
        streams := streams + {id};
      } else {
        FailWith(PROTOCOL_ERROR);
      }
    }

    /** Staged until mutual HELLO. */
    method Surfacing(id: nat)
      modifies this`staged, this`incoming, this`acceptWaiters, this`settled, this`observed, this`handed, this`servedTo
      ensures Q() == Observe(old(Q()), id, establishedDone)
    {
      observed := observed + [id];
      if establishedDone {
        EnqueueIncoming(id);
      } else {
        staged := staged + [id];
      }
    }

    method OnStreamRetired(id: nat)
      requires Valid() && Possible(Value(), StreamRetired(id))
      modifies this, flow
      ensures Valid() && Value() == Handle(old(Value()), StreamRetired(id))
    {
      GateKeeps(Value(), StreamRetired(id));
      RetireAllowed(id);
      hide GateInv, ConnFlow.Value, CreditEngine.Step, CreditEngine.Allowed, Hs, Q, OnRetired;
      ReturnSlot(id);
    }

    method ReturnSlot(id: nat)
      requires CreditEngine.Allowed(flow.Value(), PeerRetired)
      modifies this`streams, this`retired, flow
      ensures Value() == OnRetired(old(Value()), id)
    {
      hide ConnFlow.Value, CreditEngine.Step, CreditEngine.Allowed, Hs, Q;
      streams, retired := streams - {id}, retired + {id};
      flow.PeerStreamHasRetired();
    }

    lemma RetireAllowed(id: nat)
      requires Valid() && Possible(Value(), StreamRetired(id))
      ensures CreditEngine.Allowed(flow.Value(), PeerRetired)
    {
      hide CreditEngine.Inv;
      FewerRetired(observed, retired, id);
    }
  }
}
