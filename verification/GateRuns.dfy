/** Whole runs of the gate, told from the events alone: which accept gets which stream, what is said
    on the control channel, and when the connection is over. */
module GateRuns {
  import opened Basics
  import opened Wire
  import opened Gate
  import CreditEngine
  import Endpoints
  import Flow

  // ---- accepts and streams ----

  /** The accepts of a run, as they came. */
  function Asked(evs: seq<Event>): seq<nat> {
    if evs == [] then []
    else Asked(evs[..|evs| - 1]) + if evs[|evs| - 1].Accept? then [evs[|evs| - 1].w] else []
  }

  /** The accepts given up after they were made. */
  function GivenUp(evs: seq<Event>): set<nat> {
    if evs == [] then {}
    else
      var init, ev := evs[..|evs| - 1], evs[|evs| - 1];
      GivenUp(init) + if ev.Abort? && ev.w in Asked(init) then {ev.w} else {}
  }

  function Pos(s: seq<nat>, w: nat): nat
    ensures Pos(s, w) <= |s| && (w in s ==> Pos(s, w) < |s|)
  {
    if s == [] || s[0] == w then 0 else 1 + Pos(s[1..], w)
  }

  lemma {:induction false} PosAppend(s: seq<nat>, x: nat, w: nat)
    ensures w in s ==> Pos(s + [x], w) == Pos(s, w)
    ensures w !in s && w == x ==> Pos(s + [x], w) == |s|
  {
    if s != [] {
      assert (s + [x])[1..] == s[1..] + [x];
      PosAppend(s[1..], x, w);
    }
  }

  /** The accepts `xs` came in this order. */
  ghost predicate InOrder(xs: seq<nat>, asked: seq<nat>) {
    && (forall i :: 0 <= i < |xs| ==> xs[i] in asked)
    && (forall i, j :: 0 <= i < j < |xs| ==> Pos(asked, xs[i]) < Pos(asked, xs[j]))
  }

  lemma OrderKept(xs: seq<nat>, asked: seq<nat>, w: nat)
    requires InOrder(xs, asked) && w !in asked
    ensures InOrder(xs, asked + [w]) && InOrder(xs + [w], asked + [w])
  {
    forall x | x in asked ensures Pos(asked + [w], x) == Pos(asked, x) { PosAppend(asked, w, x); }
    PosAppend(asked, w, w);
  }

  lemma OrderDrop(xs: seq<nat>, asked: seq<nat>, i: nat)
    requires InOrder(xs, asked) && i < |xs|
    ensures InOrder(xs[..i] + xs[i + 1..], asked)
  {
    var ys := xs[..i] + xs[i + 1..];
    assert forall j :: 0 <= j < |ys| ==> ys[j] == if j < i then xs[j] else xs[j + 1];
  }

  lemma OrderTake(xs: seq<nat>, asked: seq<nat>, n: nat)
    requires InOrder(xs, asked) && n <= |xs|
    ensures InOrder(xs[..n], asked)
  {
  }

  /** Each stream handed out went to one accept, and every accept that got a stream is one of these;
      they were served in the order they came, and those still waiting came later. */
  ghost predicate StreamsGiven(q: Queues, asked: seq<nat>) {
    && |q.servedTo| == |q.handed| && Distinct(q.servedTo)
    && (forall i :: 0 <= i < |q.handed| ==> q.servedTo[i] in q.outcomes && q.outcomes[q.servedTo[i]] == Got(q.handed[i]))
    && (forall w :: w in q.outcomes && q.outcomes[w].Got? ==> w in q.servedTo)
    && InOrder(q.servedTo + q.waiters, asked)
  }

  /** No accept is forgotten or made up, none fails but by the closing or by being given up, and one
      given up waits no more. */
  ghost predicate AcceptsKept(q: Queues, asked: seq<nat>, aborted: set<nat>, closed: bool) {
    && Distinct(asked) && (forall w :: w in asked <==> w in q.waiters || w in q.outcomes)
    && (forall w :: w in q.outcomes && q.outcomes[w] == Refused ==> closed)
    && (forall w :: w in q.outcomes && q.outcomes[w] == Aborted ==> w in aborted)
    && (forall w :: w in q.waiters ==> w !in aborted)
    && (forall w :: w in aborted ==> w in asked)
  }

  ghost predicate Served(q: Queues, asked: seq<nat>, aborted: set<nat>, closed: bool) {
    StreamsGiven(q, asked) && AcceptsKept(q, asked, aborted, closed)
  }

  lemma DistinctPush(xs: seq<nat>, w: nat)
    requires Distinct(xs) && w !in xs
    ensures Distinct(xs + [w])
  {
  }

  /** Streams go to the longest-waiting accepts. */
  lemma SurfacedServes(q: Queues, r: Queues, streams: seq<nat>, k: nat, asked: seq<nat>, aborted: set<nat>, closed: bool)
    requires Surfaced(q, r, streams, k) && WaitersOk(q, closed) && Served(q, asked, aborted, closed)
    ensures Served(r, asked, aborted, closed)
  {
    SurfacedGives(q, r, streams, k, asked, closed);
    SurfacedKeeps(q, r, streams, k, asked, aborted, closed);
  }

  lemma SurfacedGives(q: Queues, r: Queues, streams: seq<nat>, k: nat, asked: seq<nat>, closed: bool)
    requires Surfaced(q, r, streams, k) && WaitersOk(q, closed) && StreamsGiven(q, asked)
    ensures StreamsGiven(r, asked)
  {
    var n := |q.servedTo|;
    assert r.servedTo + r.waiters == q.servedTo + q.waiters by {
      assert q.waiters == q.waiters[..k] + q.waiters[k..];
    }
    forall i | 0 <= i < |r.handed| ensures r.servedTo[i] in r.outcomes && r.outcomes[r.servedTo[i]] == Got(r.handed[i]) {
      if i < n {
        assert r.servedTo[i] == q.servedTo[i] && r.handed[i] == q.handed[i];
        assert q.servedTo[i] !in q.waiters[..k];
      } else {
        assert r.servedTo[i] == q.waiters[i - n] && r.handed[i] == streams[i - n];
      }
    }
    forall w | w in r.outcomes && r.outcomes[w].Got? ensures w in r.servedTo {
      if w !in q.waiters[..k] { assert w in q.servedTo; }
    }
    assert Distinct(r.servedTo) by {
      assert forall i :: 0 <= i < n ==> q.servedTo[i] !in q.waiters;
    }
  }

  lemma SurfacedKeeps(q: Queues, r: Queues, streams: seq<nat>, k: nat, asked: seq<nat>, aborted: set<nat>, closed: bool)
    requires Surfaced(q, r, streams, k) && AcceptsKept(q, asked, aborted, closed)
    ensures AcceptsKept(r, asked, aborted, closed)
  {
    assert q.waiters == q.waiters[..k] + q.waiters[k..];
  }

  lemma RefuseServes(q: Queues, asked: seq<nat>, aborted: set<nat>)
    requires WaitersOk(q, false) && Served(q, asked, aborted, false)
    ensures Served(RefuseWaiters(q), asked, aborted, true)
  {
    RefuseAllRefuses(q.outcomes, q.waiters);
    hide RefuseAll;
    OrderTake(q.servedTo + q.waiters, asked, |q.servedTo|);
    var r := RefuseWaiters(q);
    assert r.servedTo + r.waiters == (q.servedTo + q.waiters)[..|q.servedTo|];
    forall i | 0 <= i < |q.servedTo| ensures q.servedTo[i] !in q.waiters { assert q.servedTo[i] in q.outcomes; }
  }

  lemma ObserveServes(q: Queues, id: nat, established: bool, asked: seq<nat>, aborted: set<nat>, closed: bool)
    requires WaitersOk(q, closed) && Served(q, asked, aborted, closed)
    ensures Served(Observe(q, id, established), asked, aborted, closed)
  {
    var r := q.(observed := q.observed + [id]);
    if established {
      EnqueueIsOne(r, id);
      SurfacedServes(r, Enqueue(r, id), [id], Min(|r.waiters|, 1), asked, aborted, closed);
    }
  }

  lemma EnqueueIsOne(q: Queues, s: nat)
    ensures Surfaced(q, Enqueue(q, s), [s], Min(|q.waiters|, 1))
  {
    assert [s][..0] == [] && [s][0..] == [s] && [s][..1] == [s] && [s][1..] == [];
    if q.waiters == [] {
      assert q.waiters[..0] == [] && q.waiters[0..] == q.waiters && q.servedTo + [] == q.servedTo && q.handed + [] == q.handed;
    } else {
      assert q.waiters[..1] == [q.waiters[0]] && q.incoming + [] == q.incoming;
    }
  }

  lemma AcceptServes(q: Queues, w: nat, asked: seq<nat>, aborted: set<nat>, closed: bool)
    requires (q.incoming == [] || q.waiters == []) && WaitersOk(q, closed) && Served(q, asked, aborted, closed)
    requires w !in q.waiters && w !in q.outcomes
    ensures Served(AcceptOne(q, w, closed), asked + [w], aborted, closed)
  {
    var r := AcceptOne(q, w, closed);
    OrderKept(q.servedTo + q.waiters, asked, w);
    DistinctPush(asked, w);
    if q.incoming != [] {
      assert q.servedTo + q.waiters + [w] == r.servedTo + r.waiters;
      forall i | 0 <= i < |q.servedTo| ensures q.servedTo[i] != w { assert q.servedTo[i] in q.outcomes; }
      DistinctPush(q.servedTo, w);
    } else if !closed {
      assert q.servedTo + q.waiters + [w] == r.servedTo + r.waiters;
    }
  }

  lemma AbortServes(q: Queues, w: nat, asked: seq<nat>, aborted: set<nat>, closed: bool)
    requires WaitersOk(q, closed) && Served(q, asked, aborted, closed)
    ensures Served(AbortOne(q, w), asked, aborted + (if w in asked then {w} else {}), closed)
  {
    if w in q.waiters {
      var i: nat :| i < |q.waiters| && q.waiters[i] == w;
      WithoutRemoves(q.waiters, i);
      hide Without;
      var r := q.(waiters := q.waiters[..i] + q.waiters[i + 1..], outcomes := q.outcomes[w := Aborted]);
      assert AbortOne(q, w) == r;
      hide AbortOne;
      AbortGives(q, r, i, asked);
      AbortKeepsAll(q, r, i, asked, aborted, closed);
    }
  }

  lemma AbortGives(q: Queues, r: Queues, i: nat, asked: seq<nat>)
    requires StreamsGiven(q, asked) && (forall w :: w in q.waiters ==> w !in q.outcomes)
    requires i < |q.waiters|
    requires r == q.(waiters := q.waiters[..i] + q.waiters[i + 1..], outcomes := q.outcomes[q.waiters[i] := Aborted])
    ensures StreamsGiven(r, asked)
  {
    var n := |q.servedTo|;
    OrderDrop(q.servedTo + q.waiters, asked, n + i);
    assert (q.servedTo + q.waiters)[..n + i] + (q.servedTo + q.waiters)[n + i + 1..] == r.servedTo + r.waiters;
    hide InOrder;
    forall j | 0 <= j < n ensures q.servedTo[j] != q.waiters[i] { assert q.servedTo[j] in q.outcomes; }
  }

  lemma AbortKeepsAll(q: Queues, r: Queues, i: nat, asked: seq<nat>, aborted: set<nat>, closed: bool)
    requires AcceptsKept(q, asked, aborted, closed) && Distinct(q.waiters) && i < |q.waiters|
    requires r == q.(waiters := q.waiters[..i] + q.waiters[i + 1..], outcomes := q.outcomes[q.waiters[i] := Aborted])
    ensures AcceptsKept(r, asked, aborted + {q.waiters[i]}, closed) && q.waiters[i] in asked
  {
    var w := q.waiters[i];
    forall x | x in q.waiters && x != w ensures x in r.waiters { RestStays(q.waiters, i, x); }
    assert forall j :: 0 <= j < |r.waiters| ==> r.waiters[j] == if j < i then q.waiters[j] else q.waiters[j + 1];
  }

  lemma RestStays(ws: seq<nat>, i: nat, x: nat)
    requires i < |ws| && x in ws && x != ws[i]
    ensures x in ws[..i] + ws[i + 1..]
  {
    var j :| 0 <= j < |ws| && ws[j] == x;
    var rest := ws[..i] + ws[i + 1..];
    assert rest[if j < i then j else j - 1] == x;
  }

  /** What an event does to the queues. */
  lemma QueuesAfter(g: Gate, ev: Event)
    requires GateInv(g) && Possible(g, ev)
    ensures g.hs.closeFired ==> Handle(g, ev).hs.closeFired
    ensures Handle(g, ev).q ==
            match ev
            case Accept(w) => AcceptOne(g.q, w, g.hs.closeFired)
            case Abort(w) => AbortOne(g.q, w)
            case _ =>
              if !g.hs.closeFired && Handle(g, ev).hs.closeFired then RefuseWaiters(g.q)
              else if ev.Channel? && g.flow.g.peerOpened < g.flow.g.advertisedMaxStreams then Observe(g.q, ev.id, g.hs.established)
              else if !g.hs.established && Handle(g, ev).hs.established then Surface(g.q)
              else g.q
  {
    hide CreditEngine.Inv, CreditEngine.Step, DecodeControl, OrderOk, WaitersOk, SlotsOk, EnqueueAll, RefuseWaiters, Surface, Observe;
  }

  lemma StepServes(g: Gate, ev: Event, asked: seq<nat>, aborted: set<nat>)
    requires GateInv(g) && Possible(g, ev) && Served(g.q, asked, aborted, g.hs.closeFired)
    ensures Served(Handle(g, ev).q, if ev.Accept? then asked + [ev.w] else asked,
                   aborted + (if ev.Abort? && ev.w in asked then {ev.w} else {}), Handle(g, ev).hs.closeFired)
  {
    QueuesAfter(g, ev);
    InvParts(g);
    assert ev.Accept? || ev.Abort? ==> Handle(g, ev).hs == g.hs;
    assert aborted + {} == aborted;
    hide Handle, GateInv, OrderOk, WaitersOk, Served, RefuseWaiters, Surface, Observe, AcceptOne, AbortOne;
    if ev.Accept? {
      AcceptServes(g.q, ev.w, asked, aborted, g.hs.closeFired);
    } else if ev.Abort? {
      AbortServes(g.q, ev.w, asked, aborted, g.hs.closeFired);
    } else if !g.hs.closeFired && Handle(g, ev).hs.closeFired {
      RefuseServes(g.q, asked, aborted);
    } else if ev.Channel? && g.flow.g.peerOpened < g.flow.g.advertisedMaxStreams {
      ObserveServes(g.q, ev.id, g.hs.established, asked, aborted, g.hs.closeFired);
    } else if !g.hs.established && Handle(g, ev).hs.established {
      SurfaceServes(g.q, asked, aborted, g.hs.closeFired);
    }
  }

  lemma InvParts(g: Gate)
    requires GateInv(g)
    ensures WaitersOk(g.q, g.hs.closeFired) && (g.q.incoming == [] || g.q.waiters == [])
    ensures OrderOk(g.q, g.hs.established, g.hs.closeFired)
    ensures g.hs.phase == Closed <==> g.hs.closeFired
  {
    hide CreditEngine.Inv, WaitersOk, SlotsOk;
  }

  lemma SurfaceServes(q: Queues, asked: seq<nat>, aborted: set<nat>, closed: bool)
    requires (q.incoming == [] || q.waiters == []) && WaitersOk(q, closed) && Served(q, asked, aborted, closed)
    ensures Served(Surface(q), asked, aborted, closed)
  {
    var m := q.(staged := []);
    var k: nat := Min(|m.waiters|, |q.staged|);
    EnqueueAllSurfaces(m, q.staged);
    hide EnqueueAll;
    SurfacedServes(m, EnqueueAll(m, q.staged), q.staged, k, asked, aborted, closed);
  }

  lemma {:induction false} RunServes(lim: Limits, evs: seq<Event>)
    requires LimitsOk(lim) && PossibleRun(Start(lim), evs)
    ensures var g := After(Start(lim), evs); Served(g.q, Asked(evs), GivenUp(evs), g.hs.closeFired)
    decreases |evs|
  {
    if evs == [] {
      assert Start(lim).q.servedTo + Start(lim).q.waiters == [];
    } else {
      var init, ev := evs[..|evs| - 1], evs[|evs| - 1];
      assert evs == init + [ev];
      AfterSnoc(Start(lim), init, ev);
      RunServes(lim, init);
      StartInv(lim);
      RunKeeps(Start(lim), init);
      hide Served, Handle, Possible, GateInv, After, PossibleRun;
      StepServes(After(Start(lim), init), ev, Asked(init), GivenUp(init));
      assert Asked(init) + [] == Asked(init);
    }
  }

  /** In every run the streams that came are handed out in order, each to one accept that was told of
      it; the accepts that get one get them in the order they came; and every accept waits, got a
      stream, was given up, or was refused by the closing. */
  lemma AcceptsGetStreams(lim: Limits, evs: seq<Event>)
    requires LimitsOk(lim) && PossibleRun(Start(lim), evs)
    ensures var g := After(Start(lim), evs);
            && g.q.handed <= g.q.observed && Distinct(g.q.observed)
            && StreamsGiven(g.q, Asked(evs)) && AcceptsKept(g.q, Asked(evs), GivenUp(evs), g.hs.closeFired)
  {
    AcceptedInOrder(lim, evs);
    RunServes(lim, evs);
    hide After, PossibleRun, StreamsGiven, AcceptsKept;
  }

  /** An accept is answered at once with the first stream not handed out yet, if mutual HELLO has made
      one available; else it is refused on a closed connection; else it waits. */
  lemma AcceptIsAnswered(g: Gate, w: nat)
    requires GateInv(g) && Possible(g, Accept(w))
    ensures var q := Handle(g, Accept(w)).q;
            if g.hs.established && |g.q.handed| < |g.q.observed|
            then q.outcomes == g.q.outcomes[w := Got(g.q.observed[|g.q.handed|])] && q.waiters == g.q.waiters
            else if g.hs.closeFired then q.outcomes == g.q.outcomes[w := Refused] && q.waiters == g.q.waiters
            else q.outcomes == g.q.outcomes && q.waiters == g.q.waiters + [w]
  {
    InvParts(g);
    hide GateInv, WaitersOk;
  }
}
