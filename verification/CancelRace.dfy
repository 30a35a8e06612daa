/** The blocking form of the DATA handler, and the race it leaves open.

    The handler looks at the stream's flags under the lock, counts the payload in the credit engine,
    and puts the payload where the flags it saw say, in three steps. The other form decides where
    the payload goes when it puts it there (`Streams.Buffer`). */
module CancelRace {
  import opened Basics
  import opened Wire
  import opened Trace
  import opened Flow
  import opened Streams

  /** The DATA frame in the handler's hands, and whether the read had been cancelled at the look. */
  datatype Pending = NoFrame | Looked(payload: seq<byte>, saw: bool) | Counted(payload: seq<byte>, saw: bool)

  datatype End = End(s: Stream, frame: Pending)

  datatype Turn = Look(payload: seq<byte>) | Count | Put | Other(a: Act)

  /** A turn, and the connection's ledger when it is taken. */
  datatype At = At(g: Ledger, turn: Turn)

  function NewEnd(lim: Limits, inbound: bool): End { End(NewStream(lim, inbound), NoFrame) }

  /** Callbacks of one channel run one after the other. */
  predicate MayTurn(e: End, t: Turn) {
    match t
    case Look(p) =>
      e.frame.NoFrame? && e.s.rx.handler == Idle && !e.s.life.closed && !e.s.PeerEnded() && FrameOk(Data(p))
    case Count => e.frame.Looked?
    case Put => e.frame.Counted?
    case Other(a) =>
      && Enabled(e.s, a) && InputOk(a) && !a.ABuffer? && !(a.ARecv? && a.f.Data?)
      && (a.ARecv? || a.AClosed? ==> e.frame.NoFrame?)
  }

  /** None if the peer broke a rule. */
  function Turned(lim: Limits, g: Ledger, e: End, t: Turn): Option<End>
    requires MayTurn(e, t)
  {
    match t
    case Look(p) => Some(e.(frame := Looked(p, e.s.rx.cancel)))
    case Count =>
      (match RecvData(g, e.s, e.frame.payload)
       case Next(_, s, _) => Some(End(s, Counted(e.frame.payload, e.frame.saw)))
       case Violation(_) => None)
    case Put =>
      var r := e.s.rx;
      Some(End(e.s.(rx := if e.frame.saw then r.(handler := Discarding(|e.frame.payload|, false))
                          else r.(inbuf := r.inbuf + [e.frame.payload], handler := Idle)),
               NoFrame))
    case Other(a) =>
      match Do(lim, g, e.s, a)
      case Next(_, s, _) => Some(e.(s := s))
      case Violation(_) => None
  }

  /** Where the turns `ts` take a new stream, whatever ledger each finds; None if they cannot all be
      taken. */
  function After(lim: Limits, inbound: bool, ts: seq<At>): Option<End>
    decreases |ts|
  {
    if ts == [] then Some(NewEnd(lim, inbound))
    else
      match After(lim, inbound, ts[..|ts| - 1])
      case None => None
      case Some(d) => if MayTurn(d, ts[|ts| - 1].turn) then Turned(lim, ts[|ts| - 1].g, d, ts[|ts| - 1].turn) else None
  }

  predicate IsCancel(t: At) { t.turn.Other? && t.turn.a.ACancelRead? }

  predicate IsLook(t: At) { t.turn.Look? }

  /** The application reads no more once it has cancelled, and the peer does not reset. */
  predicate Abandoned(ts: seq<At>) {
    && (forall i :: 0 <= i < |ts| && ts[i].turn.Other? ==> !(ts[i].turn.a.ARecv? && ts[i].turn.a.f.Reset?))
    && (forall i, j :: 0 <= i < j < |ts| && IsCancel(ts[i]) && ts[j].turn.Other? ==> !ts[j].turn.a.ARead?)
  }

  /** The cancel came after the handler's look `i` and before it put the payload, at `k`. */
  predicate Between(ts: seq<At>, i: int, j: int, k: int) {
    && 0 <= i < j < k < |ts| && IsLook(ts[i]) && IsCancel(ts[j]) && ts[k].turn.Put?
    && forall m :: i < m < k ==> !IsLook(ts[m])
  }

  ghost predicate Raced(ts: seq<At>) { exists i, j, k :: Between(ts, i, j, k) }

  // ---- what the turns so far say about the state ----

  ghost predicate CancelledOnce(ts: seq<At>) {
    forall i, j :: 0 <= i < |ts| && 0 <= j < |ts| && IsCancel(ts[i]) && IsCancel(ts[j]) ==> i == j
  }

  ghost predicate HasCancel(ts: seq<At>) { exists j :: 0 <= j < |ts| && IsCancel(ts[j]) }

  /** The frame in hand was looked at in turn `i`. */
  ghost predicate InHand(ts: seq<At>, i: int, saw: bool) {
    && 0 <= i < |ts| && IsLook(ts[i])
    && (forall m :: i < m < |ts| ==> !IsLook(ts[m]))
    && (saw <==> exists j :: 0 <= j < i && IsCancel(ts[j]))
  }

  ghost predicate Says(ts: seq<At>, e: End) {
    && CancelledOnce(ts)
    && (e.s.rx.cancel <==> HasCancel(ts))
    && (!e.frame.NoFrame? ==> !e.s.PeerEnded() && exists i :: InHand(ts, i, e.frame.saw))
    && (e.s.rx.cancel ==> (e.s.rx.inbuf != [] <==> Raced(ts)))
    && LadderWaits(e.s)
  }

  // ---- one more turn ----

  /** Steps that neither buffer, read, cancel nor reset leave the buffer and the flag alone. */
  lemma OtherKeeps(lim: Limits, g: Ledger, s: Stream, a: Act)
    requires Enabled(s, a) && Do(lim, g, s, a).Next?
    requires !a.ARead? && !a.ACancelRead? && !a.ABuffer? && !(a.ARecv? && (a.f.Data? || a.f.Reset?))
    ensures var t := Do(lim, g, s, a).s;
            && t.rx.inbuf == s.rx.inbuf && t.rx.cancel == s.rx.cancel && (s.PeerEnded() ==> t.PeerEnded())
            && (!a.ARecv? ==> t.PeerEnded() == s.PeerEnded())
  {
    hide OnConsumed, PollReserve, Release, Commit, FailSend, MarkCancelled, DropStream, Flatten, RecvFrame;
    if a.ARecv? { ReceiptKeeps(g, s, a.f); }
  }

  lemma ReceiptKeeps(g: Ledger, s: Stream, f: Frame)
    requires RecvFrame(g, s, f).Next? && !f.Data? && !f.Reset?
    ensures var t := RecvFrame(g, s, f).s;
            t.rx.inbuf == s.rx.inbuf && t.rx.cancel == s.rx.cancel && (s.PeerEnded() ==> t.PeerEnded())
  {
    hide RaiseStreamMax;
  }

  /** The ladder goes on only from a stream the peer has ended and the application has drained. */
  lemma LadderNeedsDrained(lim: Limits, g: Ledger, s: Stream, a: Act)
    requires Enabled(s, a) && Do(lim, g, s, a).Next?
    requires LadderWaits(s) && !a.ABuffer? && !(a.ARecv? && a.f.Data?)
    ensures LadderWaits(Do(lim, g, s, a).s)
  {
    hide OnConsumed, PollReserve, DataReceived, Release, Commit, FailSend, RaiseStreamMax, MarkCancelled, DropStream, Flatten;
    if a.ARecv? { RecvNeedsDrained(g, s, a.f); } else { hide RecvFrame; }
  }

  lemma RecvNeedsDrained(g: Ledger, s: Stream, f: Frame)
    requires RecvFrame(g, s, f).Next? && LadderWaits(s) && !f.Data?
    ensures LadderWaits(RecvFrame(g, s, f).s)
  {
    hide DataReceived, FailSend, RaiseStreamMax, Flatten;
  }

  predicate LadderWaits(s: Stream) {
    s.life.closeDue || s.life.closeSent || s.life.phase != Live ==> s.PeerEnded() && s.rx.inbuf == []
  }

  lemma HasCancelAppend(ts: seq<At>, t: At)
    ensures HasCancel(ts + [t]) <==> HasCancel(ts) || IsCancel(t)
  {
    var us := ts + [t];
    if HasCancel(ts) {
      var j :| 0 <= j < |ts| && IsCancel(ts[j]);
      assert us[j] == ts[j];
    }
    if IsCancel(t) { assert us[|ts|] == t; }
    if HasCancel(us) {
      var j :| 0 <= j < |us| && IsCancel(us[j]);
      assert j < |ts| ==> us[j] == ts[j];
    }
  }

  lemma CancelledOnceAppend(ts: seq<At>, t: At)
    requires CancelledOnce(ts) && (IsCancel(t) ==> !HasCancel(ts))
    ensures CancelledOnce(ts + [t])
  {
    var us := ts + [t];
    forall i, j | 0 <= i < |us| && 0 <= j < |us| && IsCancel(us[i]) && IsCancel(us[j]) ensures i == j {
      assert i < |ts| ==> us[i] == ts[i] && HasCancel(ts);
      assert j < |ts| ==> us[j] == ts[j] && HasCancel(ts);
    }
  }

  lemma InHandAppend(ts: seq<At>, t: At, i: int, saw: bool)
    requires InHand(ts, i, saw) && !IsLook(t)
    ensures InHand(ts + [t], i, saw)
  {
    var us := ts + [t];
    assert forall m :: 0 <= m < |ts| ==> us[m] == ts[m];
    if saw {
      var j :| 0 <= j < i && IsCancel(ts[j]);
      assert IsCancel(us[j]);
    }
  }

  /** A race goes on having happened; a new one is completed only by putting the payload. */
  lemma RacedAppend(ts: seq<At>, t: At)
    ensures Raced(ts) ==> Raced(ts + [t])
    ensures Raced(ts + [t]) && !Raced(ts) ==> t.turn.Put? && exists i, j :: Between(ts + [t], i, j, |ts|)
  {
    var us := ts + [t];
    assert forall m :: 0 <= m < |ts| ==> us[m] == ts[m];
    if Raced(ts) {
      var i, j, k :| Between(ts, i, j, k);
      assert Between(us, i, j, k);
    } else if Raced(us) {
      var i, j, k :| Between(us, i, j, k);
      if k < |ts| { assert Between(ts, i, j, k); }
    }
  }

  lemma RaceNeedsCancel(ts: seq<At>)
    requires Raced(ts)
    ensures HasCancel(ts)
  {
    var i, j, k :| Between(ts, i, j, k);
    assert IsCancel(ts[j]);
  }

  /** Putting the payload completes a race exactly if the cancel was not seen and has come. */
  lemma PutRaces(ts: seq<At>, t: At, i: int, saw: bool)
    requires CancelledOnce(ts) && InHand(ts, i, saw) && t.turn.Put?
    ensures HasCancel(ts) && !saw ==> Raced(ts + [t])
    ensures saw && Raced(ts + [t]) ==> Raced(ts)
  {
    var us := ts + [t];
    assert forall m :: 0 <= m < |ts| ==> us[m] == ts[m];
    assert us[|ts|] == t;
    if HasCancel(ts) && !saw {
      var j :| 0 <= j < |ts| && IsCancel(ts[j]);
      assert i < j by { assert !IsLook(ts[j]) && IsLook(ts[i]); }
      assert Between(us, i, j, |ts|);
    }
    RacedAppend(ts, t);
  }

  lemma LookSays(lim: Limits, ts: seq<At>, t: At, d: End)
    requires Says(ts, d) && t.turn.Look? && MayTurn(d, t.turn)
    ensures Says(ts + [t], Turned(lim, t.g, d, t.turn).value)
  {
    HasCancelAppend(ts, t);
    CancelledOnceAppend(ts, t);
    RacedAppend(ts, t);
    var us := ts + [t];
    assert forall m :: 0 <= m < |ts| ==> us[m] == ts[m];
    assert us[|ts|] == t;
    if d.s.rx.cancel {
      var j :| 0 <= j < |ts| && IsCancel(ts[j]);
      assert IsCancel(us[j]);
    }
    hide Raced, CancelledOnce;
    assert InHand(us, |ts|, d.s.rx.cancel);
  }

  lemma CountSays(lim: Limits, ts: seq<At>, t: At, d: End)
    requires Says(ts, d) && t.turn.Count? && MayTurn(d, t.turn) && Turned(lim, t.g, d, t.turn).Some?
    ensures Says(ts + [t], Turned(lim, t.g, d, t.turn).value)
  {
    HasCancelAppend(ts, t);
    CancelledOnceAppend(ts, t);
    RacedAppend(ts, t);
    var i :| InHand(ts, i, d.frame.saw);
    InHandAppend(ts, t, i, d.frame.saw);
    hide Raced, CancelledOnce, HasCancel, InHand, DataReceived;
  }

  lemma PutSays(lim: Limits, ts: seq<At>, t: At, d: End)
    requires Says(ts, d) && t.turn.Put? && MayTurn(d, t.turn)
    ensures Says(ts + [t], Turned(lim, t.g, d, t.turn).value)
  {
    HasCancelAppend(ts, t);
    CancelledOnceAppend(ts, t);
    RacedAppend(ts, t);
    var i :| InHand(ts, i, d.frame.saw);
    PutRaces(ts, t, i, d.frame.saw);
    hide Raced, CancelledOnce, HasCancel, InHand;
  }

  lemma OtherSays(lim: Limits, ts: seq<At>, t: At, d: End)
    requires Says(ts, d) && t.turn.Other? && MayTurn(d, t.turn) && Turned(lim, t.g, d, t.turn).Some?
    requires !(t.turn.a.ARecv? && t.turn.a.f.Reset?) && (t.turn.a.ARead? ==> !d.s.rx.cancel)
    ensures Says(ts + [t], Turned(lim, t.g, d, t.turn).value)
  {
    var a := t.turn.a;
    HasCancelAppend(ts, t);
    if !d.frame.NoFrame? {
      var i :| InHand(ts, i, d.frame.saw);
      InHandAppend(ts, t, i, d.frame.saw);
    }
    RacedAppend(ts, t);
    LadderNeedsDrained(lim, t.g, d.s, a);
    if a.ACancelRead? {
      if Raced(ts) { RaceNeedsCancel(ts); }
    } else if !a.ARead? {
      OtherKeeps(lim, t.g, d.s, a);
    }
    CancelledOnceAppend(ts, t);
    hide Raced, CancelledOnce, HasCancel, InHand, Flatten, OnConsumed, PollReserve, Release, Commit, RecvFrame;
    if a.ARead? || a.ACancelRead? {
    } else {
      hide Do, Enabled;
    }
  }

  lemma TurnSays(lim: Limits, ts: seq<At>, t: At, d: End)
    requires Says(ts, d) && MayTurn(d, t.turn) && Turned(lim, t.g, d, t.turn).Some?
    requires t.turn.Other? ==> !(t.turn.a.ARecv? && t.turn.a.f.Reset?) && (t.turn.a.ARead? ==> !d.s.rx.cancel)
    ensures Says(ts + [t], Turned(lim, t.g, d, t.turn).value)
  {
    hide Says, MayTurn, Turned;
    match t.turn
    case Look(_) => LookSays(lim, ts, t, d);
    case Count => CountSays(lim, ts, t, d);
    case Put => PutSays(lim, ts, t, d);
    case Other(_) => OtherSays(lim, ts, t, d);
  }

  lemma {:induction false} RunSays(lim: Limits, inbound: bool, ts: seq<At>)
    requires After(lim, inbound, ts).Some? && Abandoned(ts)
    ensures Says(ts, After(lim, inbound, ts).value)
    decreases |ts|
  {
    if ts != [] {
      var init, t := ts[..|ts| - 1], ts[|ts| - 1];
      assert ts == init + [t] && forall i :: 0 <= i < |init| ==> init[i] == ts[i];
      RunSays(lim, inbound, init);
      var d := After(lim, inbound, init).value;
      if d.s.rx.cancel {
        var j :| 0 <= j < |init| && IsCancel(init[j]);
        assert IsCancel(ts[j]) && j < |ts| - 1;
      }
      hide Says, MayTurn, Turned;
      TurnSays(lim, init, t, d);
    }
  }

  // ---- the race and what comes of it ----

  /** On a stream its application has abandoned, bytes are left over after a cancel if and only if
      some cancel came between a handler's look and its putting the payload. */
  lemma LeftoverExactly(lim: Limits, inbound: bool, ts: seq<At>)
    requires After(lim, inbound, ts).Some? && Abandoned(ts)
    ensures var s := After(lim, inbound, ts).value.s;
            s.rx.cancel && s.rx.inbuf != [] <==> Raced(ts)
  {
    RunSays(lim, inbound, ts);
    if Raced(ts) { RaceNeedsCancel(ts); }
  }

  /** Then no rung of the ladder is ever taken, however the run goes on: no close, no retirement, no
      slot returned. */
  lemma RacedNeverRetires(lim: Limits, inbound: bool, ts: seq<At>)
    requires After(lim, inbound, ts).Some? && Abandoned(ts) && Raced(ts)
    ensures var s := After(lim, inbound, ts).value.s;
            s.life.phase == Live && !s.life.closeDue && !s.life.closeSent
  {
    RunSays(lim, inbound, ts);
    RaceNeedsCancel(ts);
  }

  // ---- such a run ----

  /** The first `k` turns of `r` lead to `e`. */
  ghost predicate Reaches(lim: Limits, r: seq<At>, k: nat, e: End)
    requires k <= |r|
  {
    After(lim, true, r[..k]).Some? && After(lim, true, r[..k]).value == e
  }

  lemma OneMore(lim: Limits, r: seq<At>, k: nat, d: End, e: End)
    requires k < |r| && Reaches(lim, r, k, d) && Follows(lim, r[k].g, d, r[k].turn, e)
    ensures Reaches(lim, r, k + 1, e)
  {
    hide MayTurn, Turned;
    assert r[..k + 1][..k] == r[..k];
  }

  /** A byte arrives, the read is cancelled between the look and the put. */
  function LeftOver(lim: Limits): Stream {
    var s := NewStream(lim, true);
    var c := NewCredit(lim);
    s.(credit := Some(c.(recv := c.recv.(received := 1, cancelled := true))),
       rx := s.rx.(inbuf := [[7]], cancel := true, log := [Data([7])]),
       tx := s.tx.(lifeQ := [StopSending(2)]), life := s.life.(due := true))
  }

  /** The rest of a close, and the peer's FIN. */
  function LeftOverEnded(lim: Limits): Stream {
    var s := LeftOver(lim);
    s.(credit := FailSend(s.credit), rx := s.rx.(fin := true, log := [Data([7]), Fin]),
       tx := s.tx.(terminal := ByFin, sent := true, lifeQ := [], log := [StopSending(2), Fin]),
       life := s.life.(due := false))
  }

  /** The read is cancelled, and the peer is to be asked to stop. */
  function CancelledNew(lim: Limits): Stream {
    var s := NewStream(lim, true);
    s.(credit := MarkCancelled(s.credit), rx := s.rx.(cancel := true), tx := s.tx.(lifeQ := [StopSending(2)]),
       life := s.life.(due := true))
  }

  lemma CancelTurns(lim: Limits, g: Ledger)
    ensures var s0 := NewStream(lim, true);
            var s1 := s0.(rx := s0.rx.(cancel := true), app := Cancelling(0, Some(2)));
            && Follows(lim, g, NewEnd(lim, true), Look([7]), End(s0, Looked([7], false)))
            && Follows(lim, g, End(s0, Looked([7], false)), Other(ACancelRead(2)), End(s1, Looked([7], false)))
            && Follows(lim, g, End(s1, Looked([7], false)), Other(ACancelMark), End(CancelledNew(lim), Looked([7], false)))
  {
  }

  /** The byte is counted. */
  function CountedNew(lim: Limits): Stream {
    var s := CancelledNew(lim);
    s.(credit := LeftOver(lim).credit, rx := s.rx.(handler := Buffering([7]), log := [Data([7])]))
  }

  lemma PutTurns(lim: Limits, g: Ledger)
    requires lim.maxStreamData >= 1 && g.received + 1 <= g.localMaxData
    ensures && Follows(lim, g, End(CancelledNew(lim), Looked([7], false)), Count, End(CountedNew(lim), Counted([7], false)))
            && Follows(lim, g, End(CountedNew(lim), Counted([7], false)), Put, End(LeftOver(lim), NoFrame))
  {
  }

  predicate Follows(lim: Limits, g: Ledger, d: End, t: Turn, e: End) {
    MayTurn(d, t) && Turned(lim, g, d, t).Some? && Turned(lim, g, d, t).value == e
  }

  /** The FIN of the close is on its way to the transport. */
  function FinHeld(lim: Limits): Stream {
    var s := LeftOver(lim);
    s.(credit := FailSend(s.credit),
       tx := s.tx.(terminal := ByFin, lifeQ := [], log := [StopSending(2)], writer := Holding(Item(Fin, 0))))
  }

  /** FIN is queued behind the STOP_SENDING. */
  function FinQueued(lim: Limits): Stream {
    var s := LeftOver(lim);
    s.(credit := FailSend(s.credit), tx := s.tx.(terminal := ByFin, dataQ := [Item(Fin, 0)]))
  }

  lemma ClosingTurns(lim: Limits, g: Ledger)
    ensures var s0 := LeftOver(lim);
            var s1 := s0.(credit := FailSend(s0.credit), tx := s0.tx.(terminal := ByFin), app := Finishing);
            && Follows(lim, g, End(s0, NoFrame), Other(ACloseWrite), End(s1, NoFrame))
            && Follows(lim, g, End(s1, NoFrame), Other(AQueueFin), End(FinQueued(lim), NoFrame))
  {
    hide FailSend;
  }

  lemma QueueTurns(lim: Limits, g: Ledger)
    ensures var s2 := FinQueued(lim);
            var s3 := s2.(tx := s2.tx.(lifeQ := [], log := [StopSending(2)]));
            && Follows(lim, g, End(s2, NoFrame), Other(ASendLife), End(s3, NoFrame))
            && Follows(lim, g, End(s3, NoFrame), Other(APopData), End(FinHeld(lim), NoFrame))
  {
    hide FailSend;
  }

  /** FIN is on the wire and noted. */
  function FinNoted(lim: Limits): Stream {
    var s := FinHeld(lim);
    s.(tx := s.tx.(log := [StopSending(2), Fin], sent := true, writer := Ready))
  }

  lemma WireTurns(lim: Limits, g: Ledger)
    ensures var s4 := FinHeld(lim);
            var s5 := s4.(tx := s4.tx.(log := [StopSending(2), Fin], writer := Noting));
            && Follows(lim, g, End(s4, NoFrame), Other(ASendHeld), End(s5, NoFrame))
            && Follows(lim, g, End(s5, NoFrame), Other(ANote), End(FinNoted(lim), NoFrame))
  {
  }

  lemma EndingTurns(lim: Limits, g: Ledger)
    ensures var s6 := FinNoted(lim);
            var s7 := s6.(rx := s6.rx.(fin := true, log := [Data([7]), Fin]));
            && Follows(lim, g, End(s6, NoFrame), Other(ARecv(Fin)), End(s7, NoFrame))
            && Follows(lim, g, End(s7, NoFrame), Other(AMaybeRetire), End(LeftOverEnded(lim), NoFrame))
  {
    hide FailSend;
  }

  /** The thirteen turns: byte, cancel in between, close, and the peer's FIN. */
  function RaceRun(g: Ledger): seq<At> {
    [At(g, Look([7])), At(g, Other(ACancelRead(2))), At(g, Other(ACancelMark)), At(g, Count), At(g, Put),
     At(g, Other(ACloseWrite)), At(g, Other(AQueueFin)), At(g, Other(ASendLife)), At(g, Other(APopData)),
     At(g, Other(ASendHeld)), At(g, Other(ANote)), At(g, Other(ARecv(Fin))), At(g, Other(AMaybeRetire))]
  }

  /** Both halves of a stream have ended on the wire, its application has closed it, nothing is owed,
      and a byte is left that nobody will read: by `RacedNeverRetires` it stays so. */
  lemma RaceHappens(lim: Limits, g: Ledger)
    requires lim.maxStreamData >= 1 && g.received + 1 <= g.localMaxData
    ensures Abandoned(RaceRun(g)) && Raced(RaceRun(g))
    ensures After(lim, true, RaceRun(g)).Some?
    ensures var s := After(lim, true, RaceRun(g)).value.s;
            && s.WireComplete() && s.tx.terminal == ByFin && s.rx.cancel && s.app == Quiet && !s.life.due
            && s.rx.inbuf == [[7]] && s.life.phase == Live
  {
    var r := RaceRun(g);
    assert Between(r, 0, 1, 4);
    assert r[..13] == r && Reaches(lim, r, 0, NewEnd(lim, true));
    RaceRuns(lim, g);
    CloseRuns(lim, g);
  }

  lemma RaceRuns(lim: Limits, g: Ledger)
    requires lim.maxStreamData >= 1 && g.received + 1 <= g.localMaxData
    requires Reaches(lim, RaceRun(g), 0, NewEnd(lim, true))
    ensures Reaches(lim, RaceRun(g), 5, End(LeftOver(lim), NoFrame))
  {
    CancelRuns(lim, g);
    PutTurns(lim, g);
    hide Follows, Reaches, LeftOver, CancelledNew, CountedNew;
    var r := RaceRun(g);
    OneMore(lim, r, 3, End(CancelledNew(lim), Looked([7], false)), End(CountedNew(lim), Counted([7], false)));
    OneMore(lim, r, 4, End(CountedNew(lim), Counted([7], false)), End(LeftOver(lim), NoFrame));
  }

  lemma CancelRuns(lim: Limits, g: Ledger)
    requires Reaches(lim, RaceRun(g), 0, NewEnd(lim, true))
    ensures Reaches(lim, RaceRun(g), 3, End(CancelledNew(lim), Looked([7], false)))
  {
    CancelTurns(lim, g);
    hide Follows, Reaches, NewStream, CancelledNew, NewEnd;
    var r, s0 := RaceRun(g), NewStream(lim, true);
    var s1 := s0.(rx := s0.rx.(cancel := true), app := Cancelling(0, Some(2)));
    OneMore(lim, r, 0, NewEnd(lim, true), End(s0, Looked([7], false)));
    OneMore(lim, r, 1, End(s0, Looked([7], false)), End(s1, Looked([7], false)));
    OneMore(lim, r, 2, End(s1, Looked([7], false)), End(CancelledNew(lim), Looked([7], false)));
  }

  lemma CloseRuns(lim: Limits, g: Ledger)
    requires Reaches(lim, RaceRun(g), 5, End(LeftOver(lim), NoFrame))
    ensures Reaches(lim, RaceRun(g), 13, End(LeftOverEnded(lim), NoFrame))
  {
    var r := RaceRun(g);
    var s0, s2, s4, s6 := LeftOver(lim), FinQueued(lim), FinHeld(lim), FinNoted(lim);
    ClosingTurns(lim, g);
    QueueTurns(lim, g);
    WireTurns(lim, g);
    EndingTurns(lim, g);
    hide Follows, Reaches, LeftOver, FinQueued, FinHeld, FinNoted, LeftOverEnded;
    var s1 := s0.(credit := FailSend(s0.credit), tx := s0.tx.(terminal := ByFin), app := Finishing);
    OneMore(lim, r, 5, End(s0, NoFrame), End(s1, NoFrame));
    OneMore(lim, r, 6, End(s1, NoFrame), End(s2, NoFrame));
    var s3 := s2.(tx := s2.tx.(lifeQ := [], log := [StopSending(2)]));
    OneMore(lim, r, 7, End(s2, NoFrame), End(s3, NoFrame));
    OneMore(lim, r, 8, End(s3, NoFrame), End(s4, NoFrame));
    var s5 := s4.(tx := s4.tx.(log := [StopSending(2), Fin], writer := Noting));
    OneMore(lim, r, 9, End(s4, NoFrame), End(s5, NoFrame));
    OneMore(lim, r, 10, End(s5, NoFrame), End(s6, NoFrame));
    var s7 := s6.(rx := s6.rx.(fin := true, log := [Data([7]), Fin]));
    OneMore(lim, r, 11, End(s6, NoFrame), End(s7, NoFrame));
    OneMore(lim, r, 12, End(s7, NoFrame), End(LeftOverEnded(lim), NoFrame));
  }
}
