/** Runs of one stream end: some that show what the code does, and what holds ever after. */
module StreamRuns {
  import opened Basics
  import opened Wire
  import opened Trace
  import opened Flow
  import opened Streams
  import opened StreamInv
  import opened StreamFacts
  import Retirement

  /** A stream nobody has accepted can retire: STOP_SENDING is answered for it, an immediate FIN
      leaves nothing to read, and no step of an application is needed. */
  lemma RetiresUnaccepted(lim: Limits, g: Ledger) returns (acts: seq<Act>, h: Ledger, t: Stream)
    ensures Leads(lim, g, NewStream(lim, true), acts, h, t) && NoneByApp(acts) && t.life.phase == Reported
  {
    var s0 := StoppingNew(NewStream(lim, true));
    NewAnswers(lim, g);
    acts, h, t := AnsweredRetires(lim, g);
    hide Do, Enabled, Leads, AnsweredNew, StoppingNew, NewStream;
    Leading(lim, g, s0, AStopDone, acts, h, t);
    acts := [AStopDone] + acts;
    Leading(lim, g, NewStream(lim, true), ARecv(StopSending(2)), acts, h, t);
    acts := [ARecv(StopSending(2))] + acts;
  }

  lemma AnsweredRetires(lim: Limits, g: Ledger) returns (acts: seq<Act>, h: Ledger, t: Stream)
    ensures Leads(lim, g, AnsweredNew(NewStream(lim, true)), acts, h, t) && NoneByApp(acts) && t.life.phase == Reported
  {
    var s1 := AnsweredNew(NewStream(lim, true));
    var s2 := s1.(tx := s1.tx.(lifeQ := [], writer := Noting, log := [Reset(2)]));
    var s3 := s1.(tx := s1.tx.(lifeQ := [], sent := true, log := [Reset(2)]));
    var s4 := s3.(rx := s3.rx.(fin := true, log := [StopSending(2), Fin]));
    NewFinishes(lim, g);
    hide Do, Enabled, Leads, AnsweredNew, NewStream;
    acts, h, t := FinishedRetires(lim, g, s4);
    Leading(lim, g, s3, ARecv(Fin), acts, h, t);
    acts := [ARecv(Fin)] + acts;
    Leading(lim, g, s2, ANote, acts, h, t);
    acts := [ANote] + acts;
    Leading(lim, g, s1, ASendLife, acts, h, t);
    acts := [ASendLife] + acts;
  }

  predicate NoneByApp(acts: seq<Act>) { forall a :: a in acts ==> !ByApp(a) }

  /** A new stream that has answered a STOP_SENDING. */
  function AnsweredNew(s: Stream): Stream {
    s.(credit := FailSend(s.credit), rx := s.rx.(log := [StopSending(2)]),
       tx := s.tx.(stop := Some(2), terminal := ByReset, drop := true, lifeQ := [Reset(2)])).Due()
  }

  /** ... and one that has only chosen to. */
  function StoppingNew(s: Stream): Stream {
    s.(rx := s.rx.(handler := Stopping, log := [StopSending(2)]),
       tx := s.tx.(stop := Some(2), terminal := ByReset, drop := true, resetDue := Some(2)))
  }

  lemma NewAnswers(lim: Limits, g: Ledger)
    ensures var s := NewStream(lim, true);
            var s0 := StoppingNew(s);
            && Enabled(s, ARecv(StopSending(2))) && Do(lim, g, s, ARecv(StopSending(2))) == Next(g, s0, [])
            && Enabled(s0, AStopDone) && Do(lim, g, s0, AStopDone) == Next(g, AnsweredNew(s), [])
  {
    hide FailSend;
  }

  lemma NewFinishes(lim: Limits, g: Ledger)
    ensures var s1 := AnsweredNew(NewStream(lim, true));
            var s2 := s1.(tx := s1.tx.(lifeQ := [], writer := Noting, log := [Reset(2)]));
            var s3 := s1.(tx := s1.tx.(lifeQ := [], sent := true, log := [Reset(2)]));
            var s4 := s3.(rx := s3.rx.(fin := true, log := [StopSending(2), Fin]));
            && Enabled(s1, ASendLife) && Do(lim, g, s1, ASendLife) == Next(g, s2, [])
            && Enabled(s2, ANote) && Do(lim, g, s2, ANote) == Next(g, s3, [])
            && Enabled(s3, ARecv(Fin)) && Do(lim, g, s3, ARecv(Fin)) == Next(g, s4, [])
            && s4.WireComplete() && s4.Drained() && s4.rx.handler == Idle && s4.life == Life(false, true, false, false, Live)
  {
    hide FailSend;
  }

  /** `acts` lead from `s` to `t`, none of them a violation. */
  ghost predicate Leads(lim: Limits, g: Ledger, s: Stream, acts: seq<Act>, h: Ledger, t: Stream)
    decreases |acts|
  {
    if acts == [] then g == h && s == t
    else
      && Enabled(s, acts[0]) && InputOk(acts[0])
      && var o := Do(lim, g, s, acts[0]);
      && o.Next? && Leads(lim, o.g, o.s, acts[1..], h, t)
  }

  lemma Leading(lim: Limits, g: Ledger, s: Stream, a: Act, acts: seq<Act>, h: Ledger, t: Stream)
    requires Enabled(s, a) && InputOk(a)
    requires var o := Do(lim, g, s, a); o.Next? && Leads(lim, o.g, o.s, acts, h, t)
    ensures Leads(lim, g, s, [a] + acts, h, t)
  {
    hide Do, Enabled;
    assert ([a] + acts)[1..] == acts;
  }

  /** A stream complete on the wire and drained climbs the ladder by itself. */
  lemma FinishedRetires(lim: Limits, g: Ledger, s: Stream) returns (acts: seq<Act>, h: Ledger, t: Stream)
    requires s.WireComplete() && s.Drained() && s.rx.handler == Idle && s.life == Life(false, true, false, false, Live)
    ensures Leads(lim, g, s, acts, h, t) && NoneByApp(acts) && t.life.phase == Reported
  {
    FinishedCloses(lim, g, s);
    var s1 := s.(life := Life(false, false, true, false, Live));
    var s2 := s.(life := Life(false, false, false, true, Live));
    var s3 := s.(credit := FailSend(s.credit), life := Life(true, true, false, true, Live));
    acts, h, t := ClosedRetires(lim, g, s3);
    hide Do, Enabled, Leads, NoneByApp, FailSend;
    Leading(lim, g, s2, AClosed, acts, h, t);
    OneMoreByNone(AClosed, acts);
    acts := [AClosed] + acts;
    Leading(lim, g, s1, ACloseChannel, acts, h, t);
    OneMoreByNone(ACloseChannel, acts);
    acts := [ACloseChannel] + acts;
    Leading(lim, g, s, AMaybeRetire, acts, h, t);
    OneMoreByNone(AMaybeRetire, acts);
    acts := [AMaybeRetire] + acts;
  }

  lemma OneMoreByNone(a: Act, acts: seq<Act>)
    requires !ByApp(a) && NoneByApp(acts)
    ensures NoneByApp([a] + acts)
  {
  }

  lemma FinishedCloses(lim: Limits, g: Ledger, s: Stream)
    requires s.WireComplete() && s.Drained() && s.rx.handler == Idle && s.life == Life(false, true, false, false, Live)
    ensures var s1 := s.(life := Life(false, false, true, false, Live));
            var s2 := s.(life := Life(false, false, false, true, Live));
            var s3 := s.(credit := FailSend(s.credit), life := Life(true, true, false, true, Live));
            && Enabled(s, AMaybeRetire) && Do(lim, g, s, AMaybeRetire) == Next(g, s1, [])
            && Enabled(s1, ACloseChannel) && Do(lim, g, s1, ACloseChannel) == Next(g, s2, [])
            && Enabled(s2, AClosed) && Do(lim, g, s2, AClosed) == Next(g, s3, [])
  {
    hide FailSend;
  }

  lemma ClosedRetires(lim: Limits, g: Ledger, s: Stream) returns (acts: seq<Act>, h: Ledger, t: Stream)
    requires s.WireComplete() && s.Drained() && s.life == Life(true, true, false, true, Live)
    ensures Leads(lim, g, s, acts, h, t) && NoneByApp(acts) && t.life.phase == Reported
  {
    ClosedReports(lim, g, s);
    var s1 := s.(life := s.life.(due := false, phase := Fired));
    var s2 := s1.(credit := None, life := s1.life.(phase := Dropped));
    var d := DropStream(g, s.credit);
    var o := Do(lim, d, s2, AReport);
    h, t := o.g, o.s;
    assert Leads(lim, o.g, t, [], h, t);
    hide Do, Enabled, Leads, DropStream;
    Leading(lim, d, s2, AReport, [], h, t);
    Leading(lim, g, s1, ADropCredit, [AReport] + [], h, t);
    Leading(lim, g, s, AMaybeRetire, [ADropCredit] + ([AReport] + []), h, t);
    acts := [AMaybeRetire] + ([ADropCredit] + ([AReport] + []));
  }

  lemma ClosedReports(lim: Limits, g: Ledger, s: Stream)
    requires s.WireComplete() && s.Drained() && s.life == Life(true, true, false, true, Live)
    ensures var s1 := s.(life := s.life.(due := false, phase := Fired));
            var s2 := s1.(credit := None, life := s1.life.(phase := Dropped));
            var h := DropStream(g, s.credit);
            && Enabled(s, AMaybeRetire) && Do(lim, g, s, AMaybeRetire) == Next(g, s1, [])
            && Enabled(s1, ADropCredit) && Do(lim, g, s1, ADropCredit) == Next(h, s2, [])
            && Enabled(s2, AReport) && Do(lim, h, s2, AReport).Next? && Do(lim, h, s2, AReport).s.life.phase == Reported
  {
    hide DropStream, PeerStreamRetired;
  }

  lemma {:induction false} LeadsOn(lim: Limits, g: Ledger, s: Stream, a: seq<Act>, m: Ledger, r: Stream, b: seq<Act>, h: Ledger, t: Stream)
    requires Leads(lim, g, s, a, m, r) && Leads(lim, m, r, b, h, t)
    ensures Leads(lim, g, s, a + b, h, t)
    decreases |a|
  {
    hide Do, Enabled, InputOk;
    if a == [] {
      assert a + b == b;
    } else {
      var o := Do(lim, g, s, a[0]);
      var tail := a[1..];
      assert a + b == [a[0]] + (tail + b);
      hide Leads;
      LeadsOn(lim, o.g, o.s, tail, m, r, b, h, t);
      Leading(lim, g, s, a[0], tail + b, h, t);
    }
  }

  // ---- a STOP_SENDING that is never answered ----

  predicate NoReset(q: seq<Frame>) { forall f :: f in q ==> !f.Reset? }

  /** The peer has asked us to stop, and no RESET has been sent, queued or chosen. */
  predicate Unanswered(s: Stream) {
    && s.tx.stop.Some? && s.tx.terminal != ByReset && !s.tx.drop && s.tx.resetDue.None?
    && NoReset(s.tx.log) && NoReset(s.tx.lifeQ)
    && (forall it :: it in s.tx.dataQ ==> !it.frame.Reset?)
    && (s.tx.writer.Holding? ==> !s.tx.writer.item.frame.Reset?)
  }

  /** A step, and the connection's ledger when it is taken: other streams move it too. */
  datatype At = At(g: Ledger, a: Act)

  ghost predicate Goes(lim: Limits, s: Stream, steps: seq<At>, t: Stream)
    decreases |steps|
  {
    if steps == [] then s == t
    else
      && Enabled(s, steps[0].a)
      && var o := Do(lim, steps[0].g, s, steps[0].a);
      && o.Next? && Goes(lim, o.s, steps[1..], t)
  }

  /** STOP_SENDING is answered with RESET, and unsent DATA dropped, exactly when no local terminal has
      been chosen yet when it comes, whatever happens between the two halves of its handler. */
  lemma {:induction false} StopAnsweredExactly(lim: Limits, peerInit: int, s: Stream, g: Ledger, code: nat, steps: seq<At>, t: Stream)
    requires StreamInv.Inv(lim, peerInit, s) && Enabled(s, ARecv(StopSending(code))) && s.tx.stop.None?
    requires Goes(lim, RecvStop(g, s, code).s, steps, t)
    requires forall i :: 0 <= i < |steps| ==> !steps[i].a.AStopDone?
    ensures Enabled(t, AStopDone)
    ensures var u := RecvStop(g, s, code).s; u.tx.drop && u.tx.terminal == ByReset <==> s.tx.terminal != ByFin
    ensures forall h: Ledger :: StopDone(h, t).s.tx.lifeQ == t.tx.lifeQ + if s.tx.terminal == NotEnded then [Reset(code)] else []
  {
    NothingDueYet(lim, peerInit, s);
    StopUnderWay(lim, RecvStop(g, s, code).s, steps, t);
    hide Goes, StreamInv.Inv;
    assert t.tx.lifeQ + [] == t.tx.lifeQ;
  }

  lemma NothingDueYet(lim: Limits, peerInit: int, s: Stream)
    requires StreamInv.Inv(lim, peerInit, s) && s.rx.handler == Idle
    ensures s.tx.resetDue.None? && s.tx.drop == (s.tx.terminal == ByReset)
  {
    hide RxInv, CreditInv, QueuedBytes, Trace.Bytes;
  }

  lemma {:induction false} StopUnderWay(lim: Limits, s: Stream, steps: seq<At>, t: Stream)
    requires s.rx.handler.Stopping? && Goes(lim, s, steps, t)
    requires forall i :: 0 <= i < |steps| ==> !steps[i].a.AStopDone?
    ensures t.rx.handler.Stopping? && t.tx.resetDue == s.tx.resetDue
    decreases |steps|
  {
    if steps != [] {
      StopStaysUnderWay(lim, steps[0].g, s, steps[0].a);
      hide Do, Enabled;
      assert forall i :: 0 <= i < |steps[1..]| ==> steps[1..][i] == steps[i + 1];
      StopUnderWay(lim, Do(lim, steps[0].g, s, steps[0].a).s, steps[1..], t);
    }
  }

  lemma StaysUnanswered(lim: Limits, g: Ledger, s: Stream, a: Act)
    requires Unanswered(s) && Enabled(s, a) && !a.AResetWrite? && Do(lim, g, s, a).Next?
    ensures Unanswered(Do(lim, g, s, a).s)
  {
    hide OnConsumed, PollReserve, DataReceived, Release, Commit, FailSend, RaiseStreamMax, MarkCancelled, DropStream, Flatten;
    if a.ARecv? { hide Do; ReceivedUnanswered(g, s, a.f); RecvIs(lim, g, s, a.f); }
    else if ByApp(a) { hide RecvFrame, Do; CalledUnanswered(lim, g, s, a); }
    else { hide RecvFrame; }
  }

  lemma CalledUnanswered(lim: Limits, g: Ledger, s: Stream, a: Act)
    requires Unanswered(s) && Enabled(s, a) && ByApp(a) && !a.AResetWrite? && Do(lim, g, s, a).Next?
    ensures Unanswered(Do(lim, g, s, a).s)
  {
    hide OnConsumed, PollReserve, DataReceived, Release, Commit, FailSend, MarkCancelled, DropStream, Flatten, RecvFrame;
    if a.AConsume? || a.ACancelMark? || a.AWriteQueue? { hide NoReset; CallEnds(lim, g, s, a); }
  }

  lemma CallEnds(lim: Limits, g: Ledger, s: Stream, a: Act)
    requires Unanswered(s) && Enabled(s, a) && (a.AConsume? || a.ACancelMark? || a.AWriteQueue?)
    ensures Do(lim, g, s, a).Next? ==> Unanswered(Do(lim, g, s, a).s)
  {
    hide OnConsumed, Release, MarkCancelled, RecvFrame, PollReserve;
  }

  lemma RecvIs(lim: Limits, g: Ledger, s: Stream, f: Frame)
    requires Enabled(s, ARecv(f))
    ensures Do(lim, g, s, ARecv(f)) == RecvFrame(g, s, f)
  {
  }

  lemma ReceivedUnanswered(g: Ledger, s: Stream, f: Frame)
    requires Unanswered(s) && RecvFrame(g, s, f).Next?
    ensures Unanswered(RecvFrame(g, s, f).s)
  {
    hide DataReceived, FailSend, RaiseStreamMax, Flatten;
  }

  /** Once unanswered it stays so through every later run, whatever the peer repeats, unless the
      application itself resets the stream. */
  lemma {:induction false} StopNeverAnswered(lim: Limits, s: Stream, steps: seq<At>, t: Stream)
    requires Unanswered(s) && Goes(lim, s, steps, t)
    requires forall i :: 0 <= i < |steps| ==> !steps[i].a.AResetWrite?
    ensures Unanswered(t)
    decreases |steps|
  {
    if steps != [] {
      StaysUnanswered(lim, steps[0].g, s, steps[0].a);
      hide Do, Enabled, Unanswered;
      assert forall i :: 0 <= i < |steps[1..]| ==> steps[1..][i] == steps[i + 1];
      StopNeverAnswered(lim, Do(lim, steps[0].g, s, steps[0].a).s, steps[1..], t);
    }
  }

  /** A FIN chosen but not yet sent is one way there: the wire rules ask for an answer. */
  lemma StopAfterQueuedFin(lim: Limits, g: Ledger) returns (acts: seq<Act>, t: Stream)
    ensures Leads(lim, g, NewStream(lim, false), acts, g, t)
    ensures Unanswered(t) && !t.tx.sent && t.tx.log == [] && t.tx.stop == Some(2) && t.rx.handler == Idle
  {
    var s := NewStream(lim, false);
    var s1 := s.(credit := FailSend(s.credit), tx := s.tx.(terminal := ByFin), app := Finishing);
    var s2 := s1.(tx := s1.tx.(dataQ := [Item(Fin, 0)]), app := Quiet, life := s1.life.(due := true));
    var s3 := s2.(rx := s2.rx.(handler := Stopping, log := [StopSending(2)]), tx := s2.tx.(stop := Some(2)));
    t := s3.(rx := s3.rx.(handler := Idle));
    QueuedFinSteps(lim, g);
    assert Leads(lim, g, t, [], g, t);
    hide Do, Enabled, Leads, NewStream, FailSend;
    Leading(lim, g, s3, AStopDone, [], g, t);
    acts := [AStopDone] + [];
    Leading(lim, g, s2, ARecv(StopSending(2)), acts, g, t);
    acts := [ARecv(StopSending(2))] + acts;
    Leading(lim, g, s1, AQueueFin, acts, g, t);
    acts := [AQueueFin] + acts;
    Leading(lim, g, s, ACloseWrite, acts, g, t);
    acts := [ACloseWrite] + acts;
    FreshIsReset(lim);
  }

  lemma FreshIsReset(lim: Limits)
    ensures NewStream(lim, false).tx == Tx(None, NotEnded, None, false, false, 0, [], [], Ready, [], [])
  {
  }

  lemma QueuedFinSteps(lim: Limits, g: Ledger)
    ensures var s := NewStream(lim, false);
            var s1 := s.(credit := FailSend(s.credit), tx := s.tx.(terminal := ByFin), app := Finishing);
            var s2 := s1.(tx := s1.tx.(dataQ := [Item(Fin, 0)]), app := Quiet, life := s1.life.(due := true));
            var s3 := s2.(rx := s2.rx.(handler := Stopping, log := [StopSending(2)]), tx := s2.tx.(stop := Some(2)));
            var s4 := s3.(rx := s3.rx.(handler := Idle));
            && Enabled(s, ACloseWrite) && Do(lim, g, s, ACloseWrite) == Next(g, s1, [])
            && Enabled(s1, AQueueFin) && Do(lim, g, s1, AQueueFin) == Next(g, s2, [])
            && Enabled(s2, ARecv(StopSending(2))) && Do(lim, g, s2, ARecv(StopSending(2))) == Next(g, s3, [])
            && Enabled(s3, AStopDone) && Do(lim, g, s3, AStopDone) == Next(g, s4, [])
  {
  }

  // ---- filling the queue ----

  function Ones(n: nat): seq<Item> { if n == 0 then [] else Ones(n - 1) + [Item(Data([0]), 1)] }

  function Zeros(n: nat): seq<byte> { if n == 0 then [] else Zeros(n - 1) + [0] }

  /** A new stream after `n` writes of one byte that the writer has not come to. */
  function Filled(lim: Limits, n: nat): Stream {
    var s := NewStream(lim, false);
    s.(credit := Some(NewCredit(lim).(send := SendCredit(0, n, 0, false))), tx := s.tx.(dataQ := Ones(n), accepted := Zeros(n)))
  }

  /** The ledger can still grant `n` bytes to a new stream. */
  predicate CanGrant(g: Ledger, n: nat) {
    !g.failed && g.peerInit >= n && g.peerMaxData - g.sent - g.reserved >= n
  }

  lemma OnesLength(n: nat)
    ensures |Ones(n)| == n && forall it :: it in Ones(n) ==> it.frame.Data?
  {
  }

  /** One write: check, reserve, queue. */
  lemma WriteSteps(lim: Limits, g: Ledger, n: nat)
    requires n < QUEUE_CAPACITY && g.peerInit >= n + 1 && !g.failed && g.peerMaxData - g.sent - g.reserved >= 1
    ensures var s := Filled(lim, n);
            var s1 := s.(app := Checked([0]));
            var s2 := s.(credit := Filled(lim, n + 1).credit, tx := s.tx.(grant := 1), app := Admitted([0]));
            var h := g.(reserved := g.reserved + 1);
            && Enabled(s, AWriteCheck([0])) && Do(lim, g, s, AWriteCheck([0])) == Next(g, s1, [])
            && Enabled(s1, AWriteReserve) && Do(lim, g, s1, AWriteReserve) == Next(h, s2, [])
            && Enabled(s2, AWriteQueue) && Do(lim, h, s2, AWriteQueue) == Next(h, Filled(lim, n + 1), [])
  {
    QueueStep(lim, g.(reserved := g.reserved + 1), n);
    hide Ones, Zeros, WriteQueue;
  }

  lemma QueueStep(lim: Limits, h: Ledger, n: nat)
    requires n < QUEUE_CAPACITY
    ensures var s := Filled(lim, n);
            var s2 := s.(credit := Filled(lim, n + 1).credit, tx := s.tx.(grant := 1), app := Admitted([0]));
            Enabled(s2, AWriteQueue) && Do(lim, h, s2, AWriteQueue) == Next(h, Filled(lim, n + 1), [])
  {
    OnesLength(n);
    assert Ones(n + 1) == Ones(n) + [Item(Data([0]), 1)] && Zeros(n + 1) == Zeros(n) + [0];
    assert [0][..1] == [0];
    hide Ones, Zeros;
  }

  lemma WriteLeads(lim: Limits, g: Ledger, n: nat) returns (acts: seq<Act>)
    requires n < QUEUE_CAPACITY && g.peerInit >= n + 1 && !g.failed && g.peerMaxData - g.sent - g.reserved >= 1
    ensures Leads(lim, g, Filled(lim, n), acts, g.(reserved := g.reserved + 1), Filled(lim, n + 1))
  {
    var s, t, h := Filled(lim, n), Filled(lim, n + 1), g.(reserved := g.reserved + 1);
    var s1 := s.(app := Checked([0]));
    var s2 := s.(credit := t.credit, tx := s.tx.(grant := 1), app := Admitted([0]));
    WriteSteps(lim, g, n);
    assert Leads(lim, h, t, [], h, t);
    hide Do, Enabled, Leads, Filled;
    Leading(lim, h, s2, AWriteQueue, [], h, t);
    Leading(lim, g, s1, AWriteReserve, [AWriteQueue] + [], h, t);
    Leading(lim, g, s, AWriteCheck([0]), [AWriteReserve] + ([AWriteQueue] + []), h, t);
    acts := [AWriteCheck([0])] + ([AWriteReserve] + ([AWriteQueue] + []));
  }

  lemma {:induction false} Fills(lim: Limits, g: Ledger, n: nat) returns (acts: seq<Act>)
    requires n <= QUEUE_CAPACITY && CanGrant(g, n)
    ensures Leads(lim, g, NewStream(lim, false), acts, g.(reserved := g.reserved + n), Filled(lim, n))
  {
    hide Do, Enabled;
    if n == 0 {
      acts := [];
      assert Filled(lim, 0) == NewStream(lim, false);
    } else {
      hide Leads, Filled, NewStream;
      acts := Fills(lim, g, n - 1);
      var m, h := g.(reserved := g.reserved + (n - 1)), g.(reserved := g.reserved + n);
      var more := WriteLeads(lim, m, n - 1);
      LeadsOn(lim, g, NewStream(lim, false), acts, m, Filled(lim, n - 1), more, h, Filled(lim, n));
      acts := acts + more;
    }
  }

  /** The other way: the shutdown that a STOP_SENDING finds under way is taken back when it finds no
      room, and with it the reason for not answering. */
  lemma StopDuringShutdown(lim: Limits, g: Ledger, code: nat) returns (acts: seq<Act>, h: Ledger, t: Stream)
    requires CanGrant(g, QUEUE_CAPACITY) && code < U32_LIMIT
    ensures Leads(lim, g, NewStream(lim, false), acts, h, t)
    ensures Unanswered(t) && t.tx.terminal == NotEnded && t.tx.stop == Some(code) && t.rx.handler == Idle
  {
    acts := Fills(lim, g, QUEUE_CAPACITY);
    h := g.(reserved := g.reserved + QUEUE_CAPACITY);
    var s := Filled(lim, QUEUE_CAPACITY);
    var s1 := s.(tx := s.tx.(terminal := ByFin), app := ShuttingDown);
    var s2 := s1.(rx := s1.rx.(handler := Stopping, log := [StopSending(code)]), tx := s1.tx.(stop := Some(code)));
    var s3 := s2.(credit := FailSend(s2.credit), rx := s2.rx.(handler := Idle));
    t := s3.(tx := s3.tx.(terminal := NotEnded), app := Quiet);
    OnesLength(QUEUE_CAPACITY);
    ShutdownSteps(lim, h, s, code);
    assert Unanswered(t);
    assert Leads(lim, h, t, [], h, t);
    hide Do, Enabled, Leads, Filled, Unanswered, FailSend;
    Leading(lim, h, s3, AShutdownPoll, [], h, t);
    var more := [AShutdownPoll] + [];
    Leading(lim, h, s2, AStopDone, more, h, t);
    more := [AStopDone] + more;
    Leading(lim, h, s1, ARecv(StopSending(code)), more, h, t);
    more := [ARecv(StopSending(code))] + more;
    Leading(lim, h, s, AShutdown, more, h, t);
    more := [AShutdown] + more;
    LeadsOn(lim, g, NewStream(lim, false), acts, h, s, more, h, t);
    acts := acts + more;
  }

  lemma ShutdownSteps(lim: Limits, h: Ledger, s: Stream, code: nat)
    requires s.app == Quiet && s.tx.terminal == NotEnded && s.tx.stop.None? && s.tx.writer == Ready && !QueueOpen(s)
    requires s.rx.handler == Idle && s.rx.log == [] && s.tx.resetDue.None? && !s.life.closed
    ensures var s1 := s.(tx := s.tx.(terminal := ByFin), app := ShuttingDown);
            var s2 := s1.(rx := s1.rx.(handler := Stopping, log := [StopSending(code)]), tx := s1.tx.(stop := Some(code)));
            var s3 := s2.(credit := FailSend(s2.credit), rx := s2.rx.(handler := Idle));
            var s4 := s3.(tx := s3.tx.(terminal := NotEnded), app := Quiet);
            && Enabled(s, AShutdown) && Do(lim, h, s, AShutdown) == Next(h, s1, [])
            && Enabled(s1, ARecv(StopSending(code))) && Do(lim, h, s1, ARecv(StopSending(code))) == Next(h, s2, [])
            && Enabled(s2, AStopDone) && Do(lim, h, s2, AStopDone) == Next(h, s3, [])
            && Enabled(s3, AShutdownPoll) && Do(lim, h, s3, AShutdownPoll) == Next(h, s4, [])
  {
    hide FailSend;
  }

  // ---- credit after a cancel ----

  /** The advertisement in the gap of cancel_read happens: a byte counted, the cancel's first lock,
      the byte discarded. */
  lemma CreditAfterCancelHappens(g: Ledger)
    requires g.received < g.localMaxData
    ensures var lim := Limits(2, 100, 1);
            var s := NewStream(lim, true);
            && Enabled(s, ARecv(Data([7]))) && Do(lim, g, s, ARecv(Data([7]))).Next?
            && var o1 := Do(lim, g, s, ARecv(Data([7])));
            && Enabled(o1.s, ACancelRead(1)) && Do(lim, o1.g, o1.s, ACancelRead(1)).Next?
            && var o2 := Do(lim, o1.g, o1.s, ACancelRead(1));
            && Enabled(o2.s, ABuffer) && Do(lim, o2.g, o2.s, ABuffer).Next?
            && var o3 := Do(lim, o2.g, o2.s, ABuffer);
            && Enabled(o3.s, ADiscard) && Do(lim, o3.g, o3.s, ADiscard).Next?
            && Do(lim, o3.g, o3.s, ADiscard).s.tx.lifeQ == [MaxStreamData(3)]
            && Do(lim, o3.g, o3.s, ADiscard).s.rx.cancel
  {
  }

  // ---- a RESET that is never sent ----

  /** A new stream closed by its application while the STOP_SENDING handler was between its halves,
      and then dropped. */
  function ClosedInGap(lim: Limits): Stream {
    var s := StoppingNew(NewStream(lim, false));
    s.(credit := MarkCancelled(s.credit), rx := s.rx.(cancel := true), tx := s.tx.(log := [StopSending(2)]), app := Gone).Due()
  }

  lemma GapSteps(lim: Limits, g: Ledger)
    ensures var s := NewStream(lim, false);
            var s1 := StoppingNew(s);
            var s2 := s1.(rx := s1.rx.(cancel := true), app := Cancelling(0, Some(2)));
            && Enabled(s, ARecv(StopSending(2))) && Do(lim, g, s, ARecv(StopSending(2))) == Next(g, s1, [])
            && Enabled(s1, ACancelRead(2)) && Do(lim, g, s1, ACancelRead(2)) == Next(g, s2, [])
            && Enabled(s2, ACancelMark) && Do(lim, g, s2, ACancelMark) == Next(g, CancelledInGap(lim), [])
  {
    hide MarkCancelled;
  }

  lemma DroppedSteps(lim: Limits, g: Ledger)
    ensures var t := ClosedInGap(lim);
            var s4 := t.(app := Quiet);
            && Enabled(CancelledInGap(lim), ASendLife) && Do(lim, g, CancelledInGap(lim), ASendLife) == Next(g, s4, [])
            && Enabled(s4, ADropHandle) && Do(lim, g, s4, ADropHandle) == Next(g, t, [])
  {
    hide FailSend, MarkCancelled;
  }

  lemma EndedSteps(lim: Limits, g: Ledger)
    ensures var t := ClosedInGap(lim);
            var s6 := t.(tx := t.tx.(writer := Stopped));
            && Enabled(t, AWriterEnd) && Do(lim, g, t, AWriterEnd) == Next(g, s6, [])
            && Enabled(s6, AStopDone) && Do(lim, g, s6, AStopDone) == Next(g, LostReset(lim), [])
  {
    hide FailSend, MarkCancelled;
  }

  /** Before its own STOP_SENDING goes out. */
  function CancelledInGap(lim: Limits): Stream {
    var t := ClosedInGap(lim);
    t.(tx := t.tx.(lifeQ := [StopSending(2)], log := []), app := Quiet)
  }

  /** The RESET is queued, and no writer is left to send it. */
  function LostReset(lim: Limits): Stream {
    var s := ClosedInGap(lim);
    s.(credit := FailSend(s.credit), rx := s.rx.(handler := Idle),
       tx := s.tx.(writer := Stopped, resetDue := None, lifeQ := [Reset(2)])).Due()
  }

  /** The application closes the stream, which is done at once as the STOP_SENDING handler has chosen
      RESET, and drops it; the writer, without senders, ends before the handler queues that RESET. */
  lemma ResetIsLost(lim: Limits, g: Ledger) returns (acts: seq<Act>, t: Stream)
    ensures Leads(lim, g, NewStream(lim, false), acts, g, t)
    ensures Retirement.Closed(t) && GaveUp(t) && t.tx.lifeQ == [Reset(2)] && t.rx.handler == Idle
  {
    t := LostReset(lim);
    acts := EndedRun(lim, g);
    GapSteps(lim, g);
    var s := NewStream(lim, false);
    var s1 := StoppingNew(s);
    var s2 := s1.(rx := s1.rx.(cancel := true), app := Cancelling(0, Some(2)));
    IsLost(lim);
    hide *;
    Leading(lim, g, s2, ACancelMark, acts, g, t);
    acts := [ACancelMark] + acts;
    Leading(lim, g, s1, ACancelRead(2), acts, g, t);
    acts := [ACancelRead(2)] + acts;
    Leading(lim, g, s, ARecv(StopSending(2)), acts, g, t);
    acts := [ARecv(StopSending(2))] + acts;
  }

  lemma IsLost(lim: Limits)
    ensures Retirement.Closed(LostReset(lim)) && GaveUp(LostReset(lim))
    ensures LostReset(lim).tx.lifeQ == [Reset(2)] && LostReset(lim).rx.handler == Idle
    ensures InputOk(ACancelRead(2)) && InputOk(ARecv(StopSending(2))) && InputOk(ACancelMark)
  {
  }

  lemma EndedRun(lim: Limits, g: Ledger) returns (acts: seq<Act>)
    ensures Leads(lim, g, CancelledInGap(lim), acts, g, LostReset(lim))
  {
    DroppedSteps(lim, g);
    EndedSteps(lim, g);
    var t, c := LostReset(lim), ClosedInGap(lim);
    assert Leads(lim, g, t, [], g, t);
    hide Do, Enabled, Leads, ClosedInGap, LostReset, CancelledInGap;
    Leading(lim, g, c.(tx := c.tx.(writer := Stopped)), AStopDone, [], g, t);
    acts := [AStopDone] + [];
    Leading(lim, g, c, AWriterEnd, acts, g, t);
    acts := [AWriterEnd] + acts;
    Leading(lim, g, c.(app := Quiet), ADropHandle, acts, g, t);
    acts := [ADropHandle] + acts;
    Leading(lim, g, CancelledInGap(lim), ASendLife, acts, g, t);
    acts := [ASendLife] + acts;
  }

  /** The same without the peer's doing: the application resets the stream, cancels and drops it, and
      the writer, which found no lifecycle frame, then finds no sender either. */
  lemma QueuedResetIsLost(lim: Limits, g: Ledger) returns (acts: seq<Act>, t: Stream)
    ensures Leads(lim, g, NewStream(lim, false), acts, g, t)
    ensures Retirement.Closed(t) && GaveUp(t) && t.tx.lifeQ == [Reset(3), StopSending(3)]
  {
    AbandonSteps(lim, g);
    var s := NewStream(lim, false);
    var s1 := s.(credit := FailSend(s.credit), tx := s.tx.(terminal := ByReset, drop := true, lifeQ := [Reset(3)])).Due();
    var s2 := s1.(rx := s1.rx.(cancel := true), app := Cancelling(0, Some(3)));
    var s3 := s2.(credit := MarkCancelled(s2.credit), tx := s2.tx.(lifeQ := [Reset(3), StopSending(3)]), app := Quiet);
    LeavingSteps(lim, g, s3);
    t := s3.(app := Gone, tx := s3.tx.(writer := Stopped));
    assert Leads(lim, g, t, [], g, t) && t.tx.log == [] && !t.rx.fin;
    hide Do, Enabled, Leads, NewStream, FailSend, MarkCancelled;
    Leading(lim, g, s3.(app := Gone), AWriterEnd, [], g, t);
    acts := [AWriterEnd] + [];
    Leading(lim, g, s3, ADropHandle, acts, g, t);
    acts := [ADropHandle] + acts;
    Leading(lim, g, s2, ACancelMark, acts, g, t);
    acts := [ACancelMark] + acts;
    Leading(lim, g, s1, ACancelRead(3), acts, g, t);
    acts := [ACancelRead(3)] + acts;
    Leading(lim, g, s, AResetWrite(3), acts, g, t);
    acts := [AResetWrite(3)] + acts;
  }

  lemma AbandonSteps(lim: Limits, g: Ledger)
    ensures var s := NewStream(lim, false);
            var s1 := s.(credit := FailSend(s.credit), tx := s.tx.(terminal := ByReset, drop := true, lifeQ := [Reset(3)])).Due();
            var s2 := s1.(rx := s1.rx.(cancel := true), app := Cancelling(0, Some(3)));
            var s3 := s2.(credit := MarkCancelled(s2.credit), tx := s2.tx.(lifeQ := [Reset(3), StopSending(3)]), app := Quiet);
            && Enabled(s, AResetWrite(3)) && Do(lim, g, s, AResetWrite(3)) == Next(g, s1, [])
            && Enabled(s1, ACancelRead(3)) && Do(lim, g, s1, ACancelRead(3)) == Next(g, s2, [])
            && Enabled(s2, ACancelMark) && Do(lim, g, s2, ACancelMark) == Next(g, s3, [])
  {
    hide MarkCancelled, FailSend;
  }

  lemma LeavingSteps(lim: Limits, g: Ledger, s: Stream)
    requires s.app == Quiet && s.tx.grant == 0 && s.tx.writer == Ready && s.tx.dataQ == []
    ensures var s1 := s.(app := Gone);
            && Enabled(s, ADropHandle) && Do(lim, g, s, ADropHandle) == Next(g, s1, [])
            && Enabled(s1, AWriterEnd) && Do(lim, g, s1, AWriterEnd) == Next(g, s1.(tx := s1.tx.(writer := Stopped)), [])
  {
  }

  /** An end that gave up sends no frame and takes no rung of the ladder in any later run. */
  lemma GaveUpForGood(lim: Limits, peerInit: int, s: Stream, steps: seq<At>, t: Stream)
    requires StreamInv.Inv(lim, peerInit, s) && GaveUp(s) && Goes(lim, s, steps, t)
    ensures GaveUp(t) && t.tx.log == s.tx.log
    ensures t.life.phase == Live && !t.life.closeDue && !t.life.closeSent
  {
    GaveUpIsSilent(lim, peerInit, s);
    SilentAfter(lim, s, steps, t);
    hide StreamInv.Inv, Goes;
  }

  lemma {:induction false} SilentAfter(lim: Limits, s: Stream, steps: seq<At>, t: Stream)
    requires Silent(s) && Goes(lim, s, steps, t)
    ensures Silent(t) && t.tx.log == s.tx.log
    decreases |steps|
  {
    if steps != [] {
      StaysSilent(lim, steps[0].g, s, steps[0].a);
      hide Do, Enabled, Silent;
      SilentAfter(lim, Do(lim, steps[0].g, s, steps[0].a).s, steps[1..], t);
    }
  }

  // ---- lifecycle frames go first ----

  function InHand(w: Writer): nat { if w.Holding? then 1 else 0 }

  lemma WaitsForOne(lim: Limits, g: Ledger, s: Stream, a: Act)
    requires s.tx.lifeQ != [] && Enabled(s, a) && !a.ASendLife? && Do(lim, g, s, a).Next?
    ensures var t := Do(lim, g, s, a).s;
            && s.tx.lifeQ <= t.tx.lifeQ
            && |t.tx.log| + InHand(t.tx.writer) <= |s.tx.log| + InHand(s.tx.writer)
  {
    hide OnConsumed, PollReserve, Release, Commit, FailSend, MarkCancelled, DropStream, PeerStreamRetired, Flatten, RecvFrame;
    if a.ARecv? { FrameQueues(g, s, a.f); }
    else if ByApp(a) { hide Do; CallQueues(lim, g, s, a); }
  }

  lemma FrameQueues(g: Ledger, s: Stream, f: Frame)
    requires RecvFrame(g, s, f).Next?
    ensures var t := RecvFrame(g, s, f).s; t.tx.lifeQ == s.tx.lifeQ && t.tx.log == s.tx.log && t.tx.writer == s.tx.writer
  {
    hide DataReceived, RaiseStreamMax, Flatten;
  }

  lemma CallQueues(lim: Limits, g: Ledger, s: Stream, a: Act)
    requires Enabled(s, a) && ByApp(a) && Do(lim, g, s, a).Next?
    ensures var t := Do(lim, g, s, a).s; s.tx.lifeQ <= t.tx.lifeQ && t.tx.log == s.tx.log && t.tx.writer == s.tx.writer
  {
    hide OnConsumed, PollReserve, Release, FailSend, MarkCancelled, Flatten, RecvFrame;
    if a.ARead? || a.AConsume? || a.ACancelRead? || a.ACancelMark? {
      hide WriteReserve, WriteQueue, QueueFin, ShutdownPoll, CloseWrite, ResetWrite, DropHandle;
    } else {
      hide Consume, CancelMark, CancelRead, Streams.Read;
    }
  }

  /** A lifecycle frame in the queue waits for one frame at most: the one the writer has in hand. */
  lemma {:induction false} LifecycleFirst(lim: Limits, s: Stream, steps: seq<At>, t: Stream)
    requires s.tx.lifeQ != [] && Goes(lim, s, steps, t)
    requires forall i :: 0 <= i < |steps| ==> !steps[i].a.ASendLife?
    ensures s.tx.lifeQ <= t.tx.lifeQ
    ensures |t.tx.log| + InHand(t.tx.writer) <= |s.tx.log| + InHand(s.tx.writer)
    decreases |steps|
  {
    if steps != [] {
      WaitsForOne(lim, steps[0].g, s, steps[0].a);
      hide Do, Enabled;
      assert forall i :: 0 <= i < |steps[1..]| ==> steps[1..][i] == steps[i + 1];
      LifecycleFirst(lim, Do(lim, steps[0].g, s, steps[0].a).s, steps[1..], t);
    }
  }

  // ---- no write after the end ----

  /** The write half is over or has been asked to stop, and no write is past its first look. */
  predicate NoMoreWrites(s: Stream) {
    && (s.tx.stop.Some? || (s.tx.terminal != NotEnded && s.app != ShuttingDown) || s.life.closed)
    && !s.app.Checked? && !s.app.Admitted?
  }

  lemma StaysEnded(lim: Limits, g: Ledger, s: Stream, a: Act)
    requires NoMoreWrites(s) && Enabled(s, a) && Do(lim, g, s, a).Next?
    ensures NoMoreWrites(Do(lim, g, s, a).s) && Do(lim, g, s, a).s.tx.accepted == s.tx.accepted
  {
    hide *;
    if a.ARecv? { RecvIs(lim, g, s, a.f); ReceivedEnded(g, s, a.f); }
    else if ByApp(a) { CallsEnded(lim, g, s, a); }
    else { TasksEnded(lim, g, s, a); }
  }

  lemma CallsEnded(lim: Limits, g: Ledger, s: Stream, a: Act)
    requires NoMoreWrites(s) && Enabled(s, a) && ByApp(a) && Do(lim, g, s, a).Next?
    ensures NoMoreWrites(Do(lim, g, s, a).s) && Do(lim, g, s, a).s.tx.accepted == s.tx.accepted
  {
    hide OnConsumed, Release, FailSend, MarkCancelled, Flatten, RecvFrame, WriteReserve, WriteQueue;
  }

  lemma TasksEnded(lim: Limits, g: Ledger, s: Stream, a: Act)
    requires NoMoreWrites(s) && Enabled(s, a) && !ByApp(a) && !a.ARecv? && Do(lim, g, s, a).Next?
    ensures NoMoreWrites(Do(lim, g, s, a).s) && Do(lim, g, s, a).s.tx.accepted == s.tx.accepted
  {
    hide OnConsumed, Release, Commit, FailSend, DropStream, PeerStreamRetired, RecvFrame;
  }

  lemma ReceivedEnded(g: Ledger, s: Stream, f: Frame)
    requires NoMoreWrites(s) && RecvFrame(g, s, f).Next?
    ensures NoMoreWrites(RecvFrame(g, s, f).s) && RecvFrame(g, s, f).s.tx.accepted == s.tx.accepted
  {
    hide DataReceived, FailSend, RaiseStreamMax, Flatten;
  }

  /** From then on no run accepts another byte from the application. */
  lemma {:induction false} NothingAcceptedAfter(lim: Limits, s: Stream, steps: seq<At>, t: Stream)
    requires NoMoreWrites(s) && Goes(lim, s, steps, t)
    ensures t.tx.accepted == s.tx.accepted && NoMoreWrites(t)
    decreases |steps|
  {
    if steps != [] {
      StaysEnded(lim, steps[0].g, s, steps[0].a);
      hide Do, Enabled, NoMoreWrites;
      NothingAcceptedAfter(lim, Do(lim, steps[0].g, s, steps[0].a).s, steps[1..], t);
    }
  }
}
