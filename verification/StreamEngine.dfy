/** The stream object: the lock sections of `Streams` as methods over its fields, and the calls
    and callbacks that run them in order when nothing else comes in between. */
module StreamEngine {
  import opened Basics
  import opened Wire
  import opened Trace
  import opened Flow
  import opened Streams
  import opened StreamInv
  import opened StreamSteps
  import CreditEngine
  import Retirement
  import SentCodes

  /** The code a plain close cancels the read half with. */
  const CLOSED := 2

  /** One step after another, unless the first is a violation. */
  function Then(o: Out, k: (Ledger, Stream) -> Out): Out {
    match o
    case Violation(_) => o
    case Next(g, s, ctl) =>
      match k(g, s)
      case Violation(why) => Violation(why)
      case Next(g', s', more) => Next(g', s', ctl + more)
  }

  /** The step a call or callback in progress takes next, if it can. */
  function Owed(s: Stream): (a: Option<Act>)
    ensures a.Some? ==> Enabled(s, a.value)
  {
    match s.app
    case Consuming(_, _) => Some(AConsume)
    case Cancelling(_, _) => Some(ACancelMark)
    case Finishing => if s.tx.writer.Stopped? || QueueOpen(s) then Some(AQueueFin) else None
    case ShuttingDown => Some(AShutdownPoll)
    case Checked(_) => Some(AWriteReserve)
    case Admitted(_) => Some(AWriteQueue)
    case _ =>
      if s.rx.handler.Buffering? then Some(ABuffer)
      else if s.rx.handler.Discarding? then Some(ADiscard)
      else if s.rx.handler.Stopping? then Some(AStopDone)
      else if s.life.due then Some(AMaybeRetire)
      else if s.life.phase == Fired then Some(ADropCredit)
      else if s.life.phase == Dropped then Some(AReport)
      else None
  }

  function AppRank(a: App): nat {
    match a
    case Quiet => 0
    case Consuming(_, _) => 1
    case Cancelling(_, _) => 2
    case Admitted(_) => 1
    case Checked(_) => 2
    case Gone => 0
    case _ => 1
  }

  function HandlerRank(h: Handler): nat {
    match h case Idle => 0 case Discarding(_, _) => 1 case Stopping => 1 case Buffering(_) => 2
  }

  function PhaseRank(p: Phase): nat {
    match p case Live => 3 case Fired => 2 case Dropped => 1 case Reported => 0
  }

  lemma OwedProgress(lim: Limits, g: Ledger, s: Stream)
    requires Owed(s).Some?
    ensures Enabled(s, Owed(s).value) && InputOk(Owed(s).value)
    ensures var o := Do(lim, g, s, Owed(s).value);
            o.Next? && (AppRank(o.s.app) < AppRank(s.app) ||
              (o.s.app == s.app && HandlerRank(o.s.rx.handler) < HandlerRank(s.rx.handler)) ||
              (o.s.app == s.app && o.s.rx.handler == s.rx.handler && (s.life.due && !o.s.life.due)) ||
              (o.s.app == s.app && o.s.rx.handler == s.rx.handler && o.s.life.due == s.life.due
               && PhaseRank(o.s.life.phase) < PhaseRank(s.life.phase)))
  {
    hide OnConsumed, PollReserve, Release, FailSend, MarkCancelled, DropStream, PeerStreamRetired, RecvFrame, PopData, SendHeld;
    if s.app == Quiet || s.app == Gone {
      hide Consume, CancelMark, WriteReserve, WriteQueue, QueueFin, ShutdownPoll;
      OwedOfCallback(s);
      hide Owed;
    } else {
      hide Discard, StopDone, Buffer, MaybeRetire, DropCredit, Report;
    }
  }

  /** Everything owed, to the end. */
  function Settle(lim: Limits, g: Ledger, s: Stream): Out
    decreases AppRank(s.app), HandlerRank(s.rx.handler), s.life.due, PhaseRank(s.life.phase)
  {
    match Owed(s)
    case None => Next(g, s, [])
    case Some(a) =>
      OwedProgress(lim, g, s);
      match Do(lim, g, s, a)
      case Violation(why) => Violation(why)
      case Next(g', s', ctl) =>
        match Settle(lim, g', s')
        case Violation(why) => Violation(why)
        case Next(g'', s'', more) => Next(g'', s'', ctl + more)
  }

  /** A call or callback: its first section and everything it owes. */
  function Whole(lim: Limits, g: Ledger, s: Stream, a: Act): Out
    requires Enabled(s, a)
  {
    Then(Do(lim, g, s, a), (g', s') => Settle(lim, g', s'))
  }

  lemma KeepsCovered(g: Ledger, s: Stream, g': Ledger, s': Stream)
    requires Covered(g, s) && Moves(g, s, g', s') && 0 <= Reserved(s')
    ensures Covered(g', s')
  {
  }

  /** The frames the writer puts on the wire for a queue of DATA and FIN. */
  function Unsent(q: seq<Item>, drop: bool): seq<Frame> {
    if q == [] then []
    else if drop && q[0].frame.Data? then Unsent(q[1..], drop)
    else [q[0].frame] + Unsent(q[1..], drop)
  }

  /** What is owed never takes back a chosen terminal, nor a cancel, unless a shutdown is under
      way; and ends with no call in progress but a FIN waiting for room. */
  lemma {:induction false} SettleKeepsChoices(lim: Limits, g: Ledger, s: Stream)
    requires s.app != ShuttingDown
    ensures var o := Settle(lim, g, s);
            o.Next? ==> o.s.tx.terminal == s.tx.terminal && (s.rx.cancel <==> o.s.rx.cancel) && (s.PeerEnded() <==> o.s.PeerEnded()) &&
                        (o.s.app == Quiet || o.s.app == s.app == Gone || (o.s.app == s.app == Finishing && !QueueOpen(s)))
    decreases AppRank(s.app), HandlerRank(s.rx.handler), s.life.due, PhaseRank(s.life.phase)
  {
    hide Do;
    if Owed(s).Some? {
      var a := Owed(s).value;
      OwedProgress(lim, g, s);
      OwedKeepsChoices(lim, g, s);
      SettleKeepsChoices(lim, Do(lim, g, s, a).g, Do(lim, g, s, a).s);
    }
  }

  lemma OwedKeepsChoices(lim: Limits, g: Ledger, s: Stream)
    requires s.app != ShuttingDown && Owed(s).Some?
    ensures var o := Do(lim, g, s, Owed(s).value);
            o.Next? ==> o.s.app != ShuttingDown && o.s.tx.terminal == s.tx.terminal && o.s.rx.cancel == s.rx.cancel &&
                        (s.PeerEnded() <==> o.s.PeerEnded()) &&
                        o.s.app != Finishing && (o.s.app == Gone <==> s.app == Gone)
  {
    hide OnConsumed, PollReserve, Release, FailSend, MarkCancelled, DropStream, PeerStreamRetired, RecvFrame, PopData, SendHeld;
    if s.app == Quiet || s.app == Gone {
      hide Consume, CancelMark, WriteReserve, WriteQueue, QueueFin, ShutdownPoll;
      OwedOfCallback(s);
      hide Owed;
    } else {
      hide Discard, StopDone, Buffer, MaybeRetire, DropCredit, Report;
    }
  }

  lemma OwedOfCallback(s: Stream)
    requires (s.app == Quiet || s.app == Gone) && Owed(s).Some?
    ensures var a := Owed(s).value;
            InputOk(a) && (a.ABuffer? || a.ADiscard? || a.AStopDone? || a.AMaybeRetire? || a.ADropCredit? || a.AReport?)
    ensures Enabled(s, Owed(s).value)
  {
  }

  lemma CloseWriteChooses(lim: Limits, g: Ledger, s: Stream)
    requires s.app == Quiet && s.tx.terminal == NotEnded
    ensures var o := Whole(lim, g, s, ACloseWrite);
            o.Next? ==> o.s.tx.terminal == ByFin && (o.s.app == Quiet || o.s.app == Finishing) &&
                        o.s.rx.cancel == s.rx.cancel && (s.PeerEnded() <==> o.s.PeerEnded())
  {
    var m := Streams.CloseWrite(g, s);
    hide Settle, FailSend;
    SettleKeepsChoices(lim, m.g, m.s);
  }

  /** What is owed asks for no STOP_SENDING that was not asked for before. */
  lemma {:induction false} SettleKeepsStops(lim: Limits, g: Ledger, s: Stream)
    requires SentCodes.OrderedOnly(s)
    ensures var o := Settle(lim, g, s); o.Next? ==> SentCodes.AskedStops(o.s) == SentCodes.AskedStops(s)
    decreases AppRank(s.app), HandlerRank(s.rx.handler), s.life.due, PhaseRank(s.life.phase)
  {
    hide Do, SentCodes.OrderedOnly, SentCodes.AskedStops, SentCodes.ChosenResets;
    if Owed(s).Some? {
      var a := Owed(s).value;
      OwedProgress(lim, g, s);
      SentCodes.CodesKept(lim, g, s, a);
      SentCodes.NothingAdded(SentCodes.AskedStops(s));
      SettleKeepsStops(lim, Do(lim, g, s, a).g, Do(lim, g, s, a).s);
    }
  }

  /** A cancel before the peer has ended asks it to stop, with the code given. */
  lemma CancelAsks(lim: Limits, g: Ledger, s: Stream, code: nat)
    requires s.app == Quiet && !s.rx.cancel && !s.PeerEnded() && SentCodes.OrderedOnly(s)
    ensures var o := Whole(lim, g, s, ACancelRead(code));
            o.Next? ==> SentCodes.AskedStops(o.s) == SentCodes.AskedStops(s) + [code]
  {
    SentCodes.CodesKept(lim, g, s, ACancelRead(code));
    var m := Streams.CancelRead(g, s, code);
    hide Settle, Flatten, SentCodes.OrderedOnly, SentCodes.AskedStops, SentCodes.ChosenResets;
    SettleKeepsStops(lim, m.g, m.s);
  }

  lemma CancelChooses(lim: Limits, g: Ledger, s: Stream)
    requires s.app == Quiet && !s.rx.cancel
    ensures var o := Whole(lim, g, s, ACancelRead(CLOSED));
            o.Next? ==> o.s.tx.terminal == s.tx.terminal && o.s.rx.cancel && o.s.app == Quiet
  {
    var m := Streams.CancelRead(g, s, CLOSED);
    hide Settle, Flatten;
    SettleKeepsChoices(lim, m.g, m.s);
  }

  lemma OnlyDataAndFin(lim: Limits, g: Ledger, s: Stream)
    requires Pre(lim, g, s)
    ensures SentCodes.OrderedOnly(s)
  {
    hide RxInv, CreditInv, QueuedBytes, Trace.Bytes, Flatten;
  }

  /** The bytes a write that is let through takes. */
  function WriteGrant(g: Ledger, s: Stream, buf: seq<byte>): int {
    if s.tx.grant > 0 then s.tx.grant
    else if PollReserve(g, s.credit, Min(|buf|, MAX_FRAME_PAYLOAD)).1.Granted?
    then PollReserve(g, s.credit, Min(|buf|, MAX_FRAME_PAYLOAD)).1.n
    else 0
  }

  /** No credit, or no room for the frame. */
  predicate WriteBlocks(g: Ledger, s: Stream, buf: seq<byte>) {
    if s.tx.grant == 0 && !PollReserve(g, s.credit, Min(|buf|, MAX_FRAME_PAYLOAD)).1.Granted?
    then PollReserve(g, s.credit, Min(|buf|, MAX_FRAME_PAYLOAD)).1.Parked?
    else !s.tx.writer.Stopped? && !QueueOpen(s)
  }

  lemma GrantsSomething(g: Ledger, c: Option<StreamCredit>, want: nat)
    ensures PollReserve(g, c, want).1.Granted? ==> PollReserve(g, c, want).1.n >= 1
  {
  }

  /** What is owed can always be done: it is no violation, keeps the invariant, and ends with
      nothing owed. */
  lemma {:induction false} SettleKeeps(lim: Limits, g: Ledger, s: Stream)
    requires Pre(lim, g, s)
    ensures var o := Settle(lim, g, s);
            o.Next? && Pre(lim, o.g, o.s) && Owed(o.s) == None
    decreases AppRank(s.app), HandlerRank(s.rx.handler), s.life.due, PhaseRank(s.life.phase)
  {
    hide Pre, Do, Enabled;
    if Owed(s).Some? {
      var a := Owed(s).value;
      OwedProgress(lim, g, s);
      StepKeepsPre(lim, g, s, a);
      SettleKeeps(lim, Do(lim, g, s, a).g, Do(lim, g, s, a).s);
    }
  }

  lemma StepKeepsPre(lim: Limits, g: Ledger, s: Stream, a: Act)
    requires Pre(lim, g, s) && Enabled(s, a) && InputOk(a) && Do(lim, g, s, a).Next?
    ensures Pre(lim, Do(lim, g, s, a).g, Do(lim, g, s, a).s)
  {
    DoKeeps(lim, g, s, a);
    hide Do, Enabled, Flatten, Trace.Bytes, QueuedBytes, QueuedGrants, StreamInv.Inv, LedgerOk;
    var o := Do(lim, g, s, a);
    ReservedNat(lim, g.peerInit, o.s);
    KeepsCovered(g, s, o.g, o.s);
  }

  /** A call or callback that runs alone leaves the ladder decided: a stream that is complete on
      the wire and drained is retired if its channel has closed, and otherwise its close is on
      the way. */
  lemma LadderIsDecided(lim: Limits, g: Ledger, s: Stream, a: Act)
    requires Pre(lim, g, s) && Enabled(s, a) && InputOk(a) && Do(lim, g, s, a).Next?
    ensures var o := Whole(lim, g, s, a);
            && o.Next? && Pre(lim, o.g, o.s) && Owed(o.s) == None
            && (o.s.app == Quiet && o.s.WireComplete() && o.s.Drained() ==>
                  if o.s.life.closed then o.s.life.phase == Reported else o.s.life.closeDue || o.s.life.closeSent)
  {
    hide Do, Enabled, Pre;
    StepKeepsPre(lim, g, s, a);
    SettleKeeps(lim, Do(lim, g, s, a).g, Do(lim, g, s, a).s);
    var o := Whole(lim, g, s, a);
    if o.s.app == Quiet && o.s.WireComplete() && o.s.Drained() {
      Decided(lim, o.g, o.s);
    }
  }

  lemma Decided(lim: Limits, g: Ledger, s: Stream)
    requires Pre(lim, g, s) && Owed(s) == None && s.app == Quiet && s.WireComplete() && s.Drained()
    ensures if s.life.closed then s.life.phase == Reported else s.life.closeDue || s.life.closeSent
  {
    hide Do, Flatten, Trace.Bytes, QueuedBytes, QueuedGrants, RxInv, TxInv, CreditInv;
  }

  /** The shared state, read and written back under its lock. */
  datatype State = State(
    inbuf: seq<seq<byte>>, peerFin: bool, peerReset: Option<nat>, peerStop: Option<nat>,
    localTerminal: Ending, localTerminalSent: bool, readCancel: bool, dropData: bool, dcClosed: bool)

  /** What a call or callback in progress has in hand between two lock sections. */
  datatype Hand = Hand(handler: Handler, app: App, resetDue: Option<nat>, retireDue: bool, phase: Phase)

  /** All that ever happened. */
  datatype Past = Past(received: seq<Frame>, read: seq<byte>, accepted: seq<byte>)

  class WebrtcStream {
    const flow: CreditEngine.ConnFlow
    const id: nat
    const inbound: bool

    var state: State
    var dataQ: seq<Item>
    var lifeQ: seq<Frame>
    var pendingGrant: nat
    var writer: Writer
    var wire: seq<Frame>
    var closeDue: bool
    var closeSent: bool
    var hand: Hand
    ghost var past: Past

    constructor (flow: CreditEngine.ConnFlow, inbound: bool)
      modifies flow
      ensures this.flow == flow && View() == NewStream(flow.lim, inbound)
      ensures (flow.Value(), CreditEngine.NewId(id)) == CreditEngine.Step(old(flow.Value()), CreditEngine.NewStream)
    {
      this.flow, this.inbound := flow, inbound;
      var streamId := flow.NewStreamId();
      id := streamId;
      state := State([], false, None, None, NotEnded, false, false, false, false);
      dataQ, lifeQ, pendingGrant, writer, wire := [], [], 0, Ready, [];
      closeDue, closeSent := false, false;
      hand := Hand(Idle, Quiet, None, false, Live);
      past := Past([], [], []);
    }

    ghost function View(): Stream
      reads this, flow
    {
      Stream(inbound, flow.Value().At(id),
             Rx(state.inbuf, state.peerFin, state.peerReset, state.readCancel, hand.handler, past.received, past.read),
             Tx(state.peerStop, state.localTerminal, hand.resetDue, state.localTerminalSent, state.dropData, pendingGrant,
                dataQ, lifeQ, writer, wire, past.accepted),
             Life(state.dcClosed, hand.retireDue, closeDue, closeSent, hand.phase), hand.app)
    }

    ghost predicate Valid()
      reads this, flow
    {
      Pre(flow.Value().lim, flow.Value().g, View())
    }

    /** The state is now `o`, coming from `was`: the connection announced `o.ctl` and no other
        stream's account was touched. */
    ghost predicate Now(o: Out, was: CreditEngine.FlowState)
      reads this, flow
    {
      && o.Next? && View() == o.s && flow.Value().lim == was.lim
      && CreditEngine.Touches(was, flow.Value(), id, Account(o.g, o.s.credit), o.ctl)
    }

    /** Since the old state, exactly step `a` was taken. */
    twostate predicate Took(a: Act)
      reads this, flow
    {
      && Enabled(old(View()), a)
      && Now(Do(old(flow.Value().lim), old(flow.Value().g), old(View()), a), old(flow.Value()))
    }

    twostate predicate Same()
      reads this, flow
    {
      View() == old(View()) && flow.Value() == old(flow.Value())
    }

    /** What the writer leaves alone. */
    twostate predicate OthersKept()
      reads this
    {
      && state == old(state).(localTerminalSent := state.localTerminalSent)
      && hand == old(hand).(retireDue := hand.retireDue)
    }

    // ---- sections of the callbacks ----

    method RecvDataSection(payload: seq<byte>) returns (ok: bool)
      requires Enabled(View(), ARecv(Data(payload)))
      modifies this, flow
      ensures ok == RecvData(old(flow.Value().g), old(View()), payload).Next?
      ensures if ok then Took(ARecv(Data(payload))) else Same()
    {
      hide CreditEngine.ConnFlow.Value, CreditEngine.Step;
      CreditEngine.ReceiveEffects(flow.Value(), id, |payload|);
      if state.peerFin || state.peerReset.Some? {
        return false;
      }
      ok := flow.OnDataReceived(id, |payload|);
      if ok {
        hand := hand.(handler := Buffering(payload));
        past := past.(received := past.received + [Data(payload)]);
      }
    }

    method RecvFinSection() returns (ok: bool)
      requires Enabled(View(), ARecv(Fin))
      modifies this
      ensures ok == RecvFin(old(flow.Value().g), old(View())).Next?
      ensures if ok then Took(ARecv(Fin)) else Same()
    {
      hide CreditEngine.ConnFlow.Value;
      if state.peerFin || state.peerReset.Some? {
        return false;
      }
      state := state.(peerFin := true);
      hand := hand.(retireDue := true);
      past := past.(received := past.received + [Fin]);
      return true;
    }

    method RecvResetSection(code: nat) returns (ok: bool)
      requires Enabled(View(), ARecv(Reset(code)))
      modifies this
      ensures ok == RecvReset(old(flow.Value().g), old(View()), code).Next?
      ensures if ok then Took(ARecv(Reset(code))) else Same()
    {
      hide CreditEngine.ConnFlow.Value;
      hide Flatten;
      if state.peerFin || state.peerReset.Some? {
        return false;
      }
      var n := |Flatten(state.inbuf)|;
      state := state.(peerReset := Some(code), inbuf := []);
      hand := if n > 0 then hand.(handler := Discarding(n, true)) else hand.(retireDue := true);
      past := past.(received := past.received + [Reset(code)]);
      return true;
    }

    method RecvStopSection(code: nat)
      requires Enabled(View(), ARecv(StopSending(code)))
      modifies this
      ensures Took(ARecv(StopSending(code)))
    {
      hide CreditEngine.ConnFlow.Value;
      past := past.(received := past.received + [StopSending(code)]);
      if state.peerStop.Some? {
        return;
      }
      if state.localTerminal == NotEnded {
        state := state.(peerStop := Some(code), localTerminal := ByReset, dropData := true);
        hand := hand.(handler := Stopping, resetDue := Some(code));
      } else {
        state := state.(peerStop := Some(code));
        hand := hand.(handler := Stopping);
      }
    }

    method StopDoneSection()
      requires hand.handler.Stopping?
      modifies this, flow
      ensures Took(AStopDone)
    {
      hide CreditEngine.ConnFlow.Value, CreditEngine.Step, FailSend, CreditEngine.Touches;
      StopReserving();
      if hand.resetDue.Some? {
        lifeQ := lifeQ + [Reset(hand.resetDue.value)];
        hand := hand.(handler := Idle, resetDue := None, retireDue := true);
      } else {
        hand := hand.(handler := Idle);
      }
    }

    method RecvLimitSection(v: nat)
      requires Enabled(View(), ARecv(MaxStreamData(v))) && v <= MAX_OFFSET
      modifies this, flow
      ensures Took(ARecv(MaxStreamData(v)))
    {
      hide CreditEngine.ConnFlow.Value, CreditEngine.Step;
      CreditEngine.SendEffects(flow.Value(), id, v);
      past := past.(received := past.received + [MaxStreamData(v)]);
      flow.OnPeerMaxStreamData(id, v);
    }

    /** One frame from the channel; false is a violation, and the connection must fail. */
    method OnFrameSection(f: Frame) returns (ok: bool)
      requires Enabled(View(), ARecv(f)) && FrameOk(f)
      modifies this, flow
      ensures ok == RecvFrame(old(flow.Value().g), old(View()), f).Next?
      ensures if ok then Took(ARecv(f)) else Same()
    {
      hide CreditEngine.ConnFlow.Value, View, CreditEngine.Touches, Now, RecvData, RecvFin, RecvReset, RecvStop, Took, Same;
      match f
      case Data(p) => ok := RecvDataSection(p);
      case Fin => ok := RecvFinSection();
      case Reset(c) => ok := RecvResetSection(c);
      case StopSending(c) => RecvStopSection(c); ok := true; StopIsNoViolation(old(flow.Value().g), old(View()), c);
      case MaxStreamData(v) => RecvLimitSection(v); ok := true;
    }

    lemma StopIsNoViolation(g: Ledger, s: Stream, code: nat)
      ensures RecvStop(g, s, code).Next?
    {
    }

    method BufferSection()
      requires hand.handler.Buffering?
      modifies this
      ensures Took(ABuffer)
    {
      hide CreditEngine.ConnFlow.Value;
      var payload := hand.handler.payload;
      if state.readCancel {
        hand := hand.(handler := Discarding(|payload|, false));
      } else {
        state := state.(inbuf := state.inbuf + [payload]);
        hand := hand.(handler := Idle);
      }
    }

    /** Returns consumed bytes as credit and queues the stream's own advertisement. */
    method Consumed(n: nat)
      requires CreditEngine.Allowed(flow.Value(), CreditEngine.Consume(id, n))
      modifies this`lifeQ, flow
      ensures var u := OnConsumed(flow.Value().lim, old(flow.Value().g), old(View()).credit, n);
              && View() == old(View()).(credit := u.c).WithAdvert(u.streamAdvert)
              && CreditEngine.Touches(old(flow.Value()), flow.Value(), id, Account(u.g, u.c), ConnAdvert(u.connAdvert))
              && flow.Value().lim == old(flow.Value().lim)
    {
      hide CreditEngine.ConnFlow.Value, CreditEngine.Step, OnConsumed;
      CreditEngine.ConsumeEffects(flow.Value(), id, n);
      var adv := flow.OnConsumed(id, n);
      if adv.Some? {
        lifeQ := lifeQ + [MaxStreamData(adv.value)];
      }
    }

    lemma MayConsume(n: nat)
      requires Valid() && n <= HandlerHand(hand.handler) + AppHand(hand.app)
      ensures CreditEngine.Allowed(flow.Value(), CreditEngine.Consume(id, n))
    {
      hide Flatten, Trace.Bytes, Trace.End, Trace.Legal, Trace.Announced, QueuedBytes, QueuedGrants;
    }

    lemma MayReturn(n: nat)
      requires Valid() && n <= pendingGrant + HeldGrant(writer) + QueuedGrants(dataQ)
      ensures CreditEngine.Allowed(flow.Value(), CreditEngine.Release(id, n))
      ensures CreditEngine.Allowed(flow.Value(), CreditEngine.Commit(id, n))
    {
      hide Flatten, Trace.Bytes, Trace.End, Trace.Legal, Trace.Announced, QueuedBytes, QueuedGrants;
    }

    method DiscardSection()
      requires hand.handler.Discarding? && CreditEngine.Allowed(flow.Value(), CreditEngine.Consume(id, hand.handler.n))
      modifies this, flow
      ensures Took(ADiscard)
    {
      hide CreditEngine.ConnFlow.Value, OnConsumed, CreditEngine.Allowed, CreditEngine.Touches;
      var n, retire := hand.handler.n, hand.handler.retire;
      Consumed(n);
      Discarded(retire);
    }

    method Discarded(retire: bool)
      modifies this`hand
      ensures var t := old(View()).(rx := old(View()).rx.(handler := Idle));
              View() == if retire then t.Due() else t
    {
      hide CreditEngine.ConnFlow.Value;
      hand := hand.(handler := Idle, retireDue := hand.retireDue || retire);
    }

    method ClosedSection() returns (ok: bool)
      requires Enabled(View(), AClosed)
      modifies this, flow
      ensures ok == ChannelClosed(old(flow.Value().g), old(View())).Next?
      ensures if ok then Took(AClosed) else Same()
    {
      hide CreditEngine.ConnFlow.Value, CreditEngine.Step;
      CreditEngine.SendEffects(flow.Value(), id, 0);
      ok := state.localTerminalSent && (state.peerFin || state.peerReset.Some?);
      if ok {
        state := state.(dcClosed := true);
        flow.FailSending(id);
        hand := hand.(retireDue := true);
      }
    }

    // ---- sections of the application's calls ----

    method ReadSection(room: nat) returns (data: seq<byte>)
      requires hand.app == Quiet && state.inbuf != []
      modifies this`state, this`hand, this`past
      ensures Took(ARead(room))
      ensures ReadOutcome(old(View()), room) == Chunk(data)
    {
      hide CreditEngine.ConnFlow.Value;
      assert View().rx.inbuf == state.inbuf;
      data := TakeFront(room);
      hide ReadOutcome;
      hand := hand.(app := Consuming(|data|, None));
    }

    /** The first chunk, or as much of it as there is room for. */
    method TakeFront(room: nat) returns (data: seq<byte>)
      requires state.inbuf != []
      modifies this`state, this`past
      ensures View().rx == AfterRead(old(View()).rx, room) && View() == old(View()).(rx := View().rx)
      ensures data == old(state).inbuf[0][..Min(|old(state).inbuf[0]|, room)]
    {
      hide CreditEngine.ConnFlow.Value;
      var chunk := state.inbuf[0];
      var n := Min(|chunk|, room);
      data := chunk[..n];
      past := past.(read := past.read + data);
      state := state.(inbuf := if n == |chunk| then state.inbuf[1..] else [chunk[n..]] + state.inbuf[1..]);
    }

    method ConsumeSection()
      requires hand.app.Consuming? && CreditEngine.Allowed(flow.Value(), CreditEngine.Consume(id, hand.app.n))
      modifies this, flow
      ensures Took(AConsume)
    {
      hide CreditEngine.ConnFlow.Value, OnConsumed, CreditEngine.Allowed, CreditEngine.Touches;
      var n, stop := hand.app.n, hand.app.stop;
      ConsumeOrder(flow.Value().lim, flow.Value().g, View(), n, stop);
      hide Consume, Stream.WithAdvert, Stream.WithStop;
      Consumed(n);
      QueueStop(stop);
      EndCall();
    }

    /** The call may be marked as over last. */
    lemma ConsumeOrder(lim: Limits, g: Ledger, s: Stream, n: nat, stop: Option<nat>)
      ensures var u := OnConsumed(lim, g, s.credit, n);
              Consume(lim, g, s, n, stop) ==
              Next(u.g, s.(credit := u.c).WithAdvert(u.streamAdvert).WithStop(stop).(app := Quiet).Due(), ConnAdvert(u.connAdvert))
    {
      hide OnConsumed;
    }

    /** The call is over but for the retirement check. */
    method EndCall()
      modifies this`hand
      ensures View() == old(View()).(app := Quiet).Due()
    {
      hide CreditEngine.ConnFlow.Value;
      hand := hand.(app := Quiet, retireDue := true);
    }

    /** STOP_SENDING, if the peer has not ended already. */
    method QueueStop(stop: Option<nat>)
      modifies this`lifeQ
      ensures View() == old(View()).WithStop(stop)
    {
      hide CreditEngine.ConnFlow.Value;
      if stop.Some? {
        lifeQ := lifeQ + [StopSending(stop.value)];
      }
    }

    method CancelSection(code: nat)
      requires hand.app == Quiet && !state.readCancel
      modifies this
      ensures Took(ACancelRead(code))
    {
      hide CreditEngine.ConnFlow.Value;
      hide Flatten;
      var n, ended := |Flatten(state.inbuf)|, state.peerFin || state.peerReset.Some?;
      state := state.(readCancel := true, inbuf := []);
      hand := hand.(app := Cancelling(n, if ended then None else Some(code)));
    }

    method CancelMarkSection()
      requires hand.app.Cancelling?
      modifies this, flow
      ensures Took(ACancelMark)
    {
      hide CreditEngine.ConnFlow.Value, CreditEngine.Step;
      CreditEngine.ReceiveEffects(flow.Value(), id, 0);
      var n, stop := hand.app.n, hand.app.stop;
      flow.MarkStreamCancelled(id);
      if n > 0 {
        hand := hand.(app := Consuming(n, stop));
      } else {
        if stop.Some? {
          lifeQ := lifeQ + [StopSending(stop.value)];
        }
        hand := hand.(app := Quiet, retireDue := true);
      }
    }

    method CloseWriteSection()
      requires hand.app == Quiet && state.localTerminal == NotEnded
      modifies this, flow
      ensures Took(ACloseWrite)
    {
      hide CreditEngine.ConnFlow.Value, CreditEngine.Step;
      CreditEngine.SendEffects(flow.Value(), id, 0);
      state := state.(localTerminal := ByFin);
      flow.FailSending(id);
      hand := hand.(app := Finishing);
    }

    method QueueFinSection()
      requires hand.app == Finishing && (writer.Stopped? || |dataQ| < QUEUE_CAPACITY)
      modifies this
      ensures Took(AQueueFin)
    {
      hide CreditEngine.ConnFlow.Value;
      if writer.Stopped? {
        hand := hand.(app := Quiet);
      } else {
        dataQ := dataQ + [Item(Fin, 0)];
        hand := hand.(app := Quiet, retireDue := true);
      }
    }

    method ShutdownSection()
      requires hand.app == Quiet && state.localTerminal == NotEnded
      modifies this
      ensures Took(AShutdown)
    {
      hide CreditEngine.ConnFlow.Value;
      state := state.(localTerminal := ByFin);
      hand := hand.(app := ShuttingDown);
    }

    method ShutdownPollSection()
      requires hand.app == ShuttingDown
      modifies this, flow
      ensures Took(AShutdownPoll)
    {
      hide CreditEngine.ConnFlow.Value, CreditEngine.Step, FailSend;
      if !writer.Stopped? && |dataQ| < QUEUE_CAPACITY {
        StopReserving();
        hide CreditEngine.Touches;
        dataQ := dataQ + [Item(Fin, 0)];
        hand := hand.(app := Quiet, retireDue := true);
      } else {
        CreditEngine.Untouched(flow.Value(), id);
        hide CreditEngine.Touches;
        if !writer.Stopped? {
          state := state.(localTerminal := NotEnded);
        }
        hand := hand.(app := Quiet);
      }
    }

    method ResetSection(code: nat)
      requires hand.app == Quiet && state.localTerminal == NotEnded
      modifies this, flow
      ensures Took(AResetWrite(code))
    {
      hide CreditEngine.ConnFlow.Value, CreditEngine.Step;
      assert Enabled(View(), AResetWrite(code));
      hide Enabled;
      CreditEngine.SendEffects(flow.Value(), id, 0);
      state := state.(localTerminal := ByReset, dropData := true);
      flow.FailSending(id);
      lifeQ := lifeQ + [Reset(code)];
      hand := hand.(retireDue := true);
    }

    method WriteCheckSection(buf: seq<byte>)
      requires Enabled(View(), AWriteCheck(buf))
      modifies this`hand
      ensures Took(AWriteCheck(buf))
    {
      hide CreditEngine.ConnFlow.Value;
      hand := hand.(app := Checked(buf));
    }

    method WriteReserveSection() returns (parked: bool)
      requires hand.app.Checked?
      modifies this`hand, this`pendingGrant, flow
      ensures Took(AWriteReserve)
      ensures parked == (old(pendingGrant) == 0 &&
        PollReserve(old(flow.Value().g), old(View()).credit, Min(|old(hand).app.buf|, MAX_FRAME_PAYLOAD)).1.Parked?)
    {
      hide CreditEngine.ConnFlow.Value, CreditEngine.Step, PollReserve;
      var buf := hand.app.buf;
      if pendingGrant > 0 {
        hand := hand.(app := Admitted(buf));
        return false;
      }
      var want := Min(|buf|, MAX_FRAME_PAYLOAD);
      CreditEngine.PollEffects(flow.Value(), id, want);
      var r := flow.PollReserve(id, want);
      parked := r.Parked?;
      match r
      case Granted(n) =>
        pendingGrant := n;
        hand := hand.(app := Admitted(buf));
      case _ =>
        hand := hand.(app := Quiet);
    }

    method WriteQueueSection()
      requires hand.app.Admitted? && CreditEngine.Allowed(flow.Value(), CreditEngine.Release(id, pendingGrant))
      modifies this`hand, this`dataQ, this`pendingGrant, this`past, flow
      ensures Took(AWriteQueue)
    {
      hide CreditEngine.ConnFlow.Value, CreditEngine.Step, CreditEngine.Allowed;
      if writer.Stopped? {
        GiveBack();
      } else {
        CreditEngine.Untouched(flow.Value(), id);
        if |dataQ| < QUEUE_CAPACITY { QueueGrant(hand.app.buf); }
      }
      hide CreditEngine.Touches, Release;
      hand := hand.(app := Quiet);
    }

    /** As many bytes as were granted enter the queue. */
    method QueueGrant(buf: seq<byte>)
      modifies this`dataQ, this`pendingGrant, this`past
      ensures var s, p := old(View()), Take(buf, old(pendingGrant));
              View() == s.(tx := s.tx.(dataQ := s.tx.dataQ + [Item(Data(p), s.tx.grant)], accepted := s.tx.accepted + p, grant := 0))
    {
      hide CreditEngine.ConnFlow.Value;
      var p := Take(buf, pendingGrant);
      dataQ, pendingGrant := dataQ + [Item(Data(p), pendingGrant)], 0;
      past := past.(accepted := past.accepted + p);
    }

    /** The grant in hand is released. */
    method GiveBack()
      requires CreditEngine.Allowed(flow.Value(), CreditEngine.Release(id, pendingGrant))
      modifies this`pendingGrant, flow
      ensures var a := Release(old(flow.Value().g), old(View()).credit, old(pendingGrant));
              && View() == old(View()).(credit := a.c, tx := old(View()).tx.(grant := 0))
              && CreditEngine.Touches(old(flow.Value()), flow.Value(), id, a, [])
              && flow.Value().lim == old(flow.Value().lim) && pendingGrant == 0
    {
      hide CreditEngine.ConnFlow.Value, CreditEngine.Allowed, CreditEngine.Touches, Release;
      Released(pendingGrant);
      pendingGrant := 0;
    }

    method Released(n: nat)
      requires CreditEngine.Allowed(flow.Value(), CreditEngine.Release(id, n))
      modifies flow
      ensures var a := Release(old(flow.Value().g), old(View()).credit, n);
              && View() == old(View()).(credit := a.c)
              && CreditEngine.Touches(old(flow.Value()), flow.Value(), id, a, [])
              && flow.Value().lim == old(flow.Value().lim)
    {
      hide CreditEngine.ConnFlow.Value, CreditEngine.Step;
      CreditEngine.SendEffects(flow.Value(), id, n);
      flow.ReleaseBytes(id, n);
    }

    /** Pending and future reservations of the stream fail. */
    method StopReserving()
      modifies flow
      ensures View() == old(View()).(credit := FailSend(old(View()).credit))
      ensures CreditEngine.Touches(old(flow.Value()), flow.Value(), id, Account(old(flow.Value().g), View().credit), [])
      ensures flow.Value().lim == old(flow.Value().lim)
    {
      hide CreditEngine.ConnFlow.Value, CreditEngine.Step;
      CreditEngine.SendEffects(flow.Value(), id, 0);
      flow.FailSending(id);
    }

    /** The handle goes, with the senders of the ordered queue; a held grant goes back. */
    method DropSection()
      requires Enabled(View(), ADropHandle) && CreditEngine.Allowed(flow.Value(), CreditEngine.Release(id, pendingGrant))
      modifies this`pendingGrant, this`hand, flow
      ensures Took(ADropHandle) && pendingGrant == 0 && hand == old(hand).(app := Gone)
    {
      hide CreditEngine.ConnFlow.Value, CreditEngine.Step, CreditEngine.Touches, CreditEngine.Allowed;
      if pendingGrant > 0 {
        GiveBack();
      } else {
        CreditEngine.Untouched(flow.Value(), id);
      }
      hand := hand.(app := Gone);
    }

    // ---- sections of the writer task ----

    method SendLifeSection()
      requires Enabled(View(), ASendLife)
      modifies this`lifeQ, this`wire, this`writer
      ensures Took(ASendLife)
      ensures lifeQ == old(lifeQ)[1..] && wire == old(wire) + [old(lifeQ)[0]] && (writer == Ready || writer.Noting?)
    {
      hide CreditEngine.ConnFlow.Value;
      var f := lifeQ[0];
      lifeQ := lifeQ[1..];
      SendFrame(f);
    }

    method SendFrame(f: Frame)
      modifies this`wire, this`writer
      ensures View() == Sent(old(View()), f)
      ensures wire == old(wire) + [f] && (writer == Ready || writer.Noting?)
    {
      hide CreditEngine.ConnFlow.Value;
      wire := wire + [f];
      writer := if EndingOf(f) != NotEnded then Noting else Ready;
    }

    /** A successfully sent FIN or RESET makes the write half terminal on the wire. */
    method NoteSection()
      requires writer.Noting?
      modifies this`writer, this`state, this`hand
      ensures Took(ANote)
      ensures writer == Ready && OthersKept()
    {
      hide CreditEngine.ConnFlow.Value;
      assert Enabled(View(), ANote);
      hide Enabled;
      state := state.(localTerminalSent := true);
      hand := hand.(retireDue := true);
      writer := Ready;
    }

    method PopDataSection()
      requires Enabled(View(), APopData) && CreditEngine.Allowed(flow.Value(), CreditEngine.Release(id, dataQ[0].reserved))
      modifies this`dataQ, this`writer, flow
      ensures Took(APopData)
      ensures dataQ == old(dataQ)[1..]
      ensures writer == if state.dropData && old(dataQ)[0].frame.Data? then old(writer) else Holding(old(dataQ)[0])
    {
      hide CreditEngine.ConnFlow.Value, CreditEngine.Allowed, Release;
      var it := dataQ[0];
      if state.dropData && it.frame.Data? {
        Released(it.reserved);
        hide CreditEngine.Touches;
        dataQ := dataQ[1..];
      } else {
        CreditEngine.Untouched(flow.Value(), id);
        hide CreditEngine.Touches;
        dataQ, writer := dataQ[1..], Holding(it);
      }
    }

    method SendHeldSection()
      requires Enabled(View(), ASendHeld) && CreditEngine.Allowed(flow.Value(), CreditEngine.Commit(id, writer.item.reserved))
      modifies this`writer, this`wire, flow
      ensures Took(ASendHeld)
      ensures wire == old(wire) + [old(writer).item.frame] && (writer == Ready || writer.Noting?)
    {
      var it := writer.item;
      hide CreditEngine.ConnFlow.Value, CreditEngine.Step;
      CreditEngine.SendEffects(flow.Value(), id, it.reserved);
      flow.CommitBytes(id, it.reserved);
      hide CreditEngine.Touches;
      SendFrame(it.frame);
    }

    method WriterStopSection()
      requires Enabled(View(), AWriterStop) && CreditEngine.Allowed(flow.Value(), CreditEngine.Release(id, HeldGrant(writer)))
      modifies this`writer, flow
      ensures Took(AWriterStop) && writer.Stopped?
    {
      hide CreditEngine.ConnFlow.Value, CreditEngine.Step;
      CreditEngine.SendEffects(flow.Value(), id, HeldGrant(writer));
      if writer.Holding? {
        flow.ReleaseBytes(id, writer.item.reserved);
      }
      writer := Stopped;
    }

    method WriterEndSection()
      requires Enabled(View(), AWriterEnd)
      modifies this`writer
      ensures Took(AWriterEnd) && writer.Stopped?
    {
      hide CreditEngine.ConnFlow.Value;
      writer := Stopped;
    }

    // ---- sections of the ladder ----

    method MaybeRetireSection()
      requires hand.retireDue
      modifies this`hand, this`closeDue
      ensures Took(AMaybeRetire)
    {
      hide CreditEngine.ConnFlow.Value;
      assert Enabled(View(), AMaybeRetire);
      hide Enabled;
      hand := hand.(retireDue := false);
      var wireComplete := state.localTerminalSent && (state.peerFin || state.peerReset.Some?);
      var drained := state.inbuf == [];
      if !wireComplete || !drained {
        return;
      }
      if !state.dcClosed {
        closeDue := true;
      } else if hand.phase == Live {
        hand := hand.(phase := Fired);
      }
    }

    method CloseChannelSection()
      requires closeDue
      modifies this`closeDue, this`closeSent
      ensures Took(ACloseChannel)
    {
      hide CreditEngine.ConnFlow.Value;
      closeDue := false;
      closeSent := true;
    }

    method DropCreditSection()
      requires hand.phase == Fired
      modifies this, flow
      ensures Took(ADropCredit)
    {
      hide CreditEngine.ConnFlow.Value, CreditEngine.Step;
      CreditEngine.RetireEffects(flow.Value(), id);
      flow.DropStreamState(id);
      hand := hand.(phase := Dropped);
    }

    method ReportSection()
      requires hand.phase == Dropped && (inbound ==> CreditEngine.Allowed(flow.Value(), CreditEngine.PeerRetired))
      modifies this, flow
      ensures Took(AReport)
    {
      hide CreditEngine.ConnFlow.Value, CreditEngine.Step;
      CreditEngine.RetireEffects(flow.Value(), id);
      hand := hand.(phase := Reported);
      if inbound {
        flow.PeerStreamHasRetired();
      }
    }

    // ---- running what is owed ----

    lemma StaysValid(a: Act, g: Ledger, s: Stream, was: CreditEngine.FlowState)
      requires was.g == g
      requires Pre(was.lim, g, s) && Enabled(s, a) && InputOk(a) && Now(Do(was.lim, g, s, a), was)
      ensures Valid()
    {
      hide CreditEngine.ConnFlow.Value, Do, Enabled, Pre;
      StepKeepsPre(was.lim, g, s, a);
    }

    /** A peer-initiated stream that has not reported yet still has its slot to return. */
    lemma MayReport()
      requires Valid() && hand.phase != Reported && inbound
      ensures CreditEngine.Allowed(flow.Value(), CreditEngine.PeerRetired)
    {
      hide Flatten, Trace.Bytes, Trace.End, Trace.Legal, Trace.Announced, QueuedBytes, QueuedGrants;
    }

    /** The one step owed next. */
    method OwedSection() returns (more: bool)
      requires Valid()
      modifies this, flow
      ensures more == Owed(old(View())).Some?
      ensures if more then Took(Owed(old(View())).value) else Same()
    {
      hide CreditEngine.ConnFlow.Value, Took, Valid, CreditEngine.Allowed;
      more := true;
      match hand.app
      case Consuming(n, _) => MayConsume(n); ConsumeSection();
      case Cancelling(_, _) => CancelMarkSection();
      case Finishing =>
        if !writer.Stopped? && |dataQ| >= QUEUE_CAPACITY {
          return false;
        }
        QueueFinSection();
      case ShuttingDown => ShutdownPollSection();
      case Checked(_) => var _ := WriteReserveSection();
      case Admitted(_) => MayReturn(pendingGrant); WriteQueueSection();
      case _ =>
        if hand.handler.Buffering? {
          BufferSection();
        } else if hand.handler.Discarding? {
          MayConsume(hand.handler.n);
          DiscardSection();
        } else if hand.handler.Stopping? {
          StopDoneSection();
        } else if hand.retireDue {
          MaybeRetireSection();
        } else if hand.phase == Fired {
          DropCreditSection();
        } else if hand.phase == Dropped {
          if inbound { MayReport(); }
          ReportSection();
        } else {
          return false;
        }
    }

    /** Everything owed, to the end. */
    method SettleAll()
      requires Valid()
      modifies this, flow
      ensures Valid()
      ensures Now(Settle(old(flow.Value().lim), old(flow.Value().g), old(View())), old(flow.Value()))
      decreases AppRank(hand.app), HandlerRank(hand.handler), hand.retireDue, PhaseRank(hand.phase)
    {
      hide CreditEngine.ConnFlow.Value, Do, Pre, Enabled, CreditEngine.Touches;
      ghost var g, s, was := flow.Value().g, View(), flow.Value();
      var more := OwedSection();
      if more {
        ghost var a := Owed(s).value;
        OwedProgress(was.lim, g, s);
        StaysValid(a, g, s, was);
        ghost var mid, o := flow.Value(), Do(was.lim, g, s, a);
        CreditEngine.Touched(was, mid, id, Account(o.g, o.s.credit), o.ctl);
        SettleAll();
        ghost var rest := Settle(was.lim, o.g, o.s);
        CreditEngine.TouchTwice(was, mid, flow.Value(), id, Account(o.g, o.s.credit), o.ctl, Account(rest.g, rest.s.credit), rest.ctl);
      } else {
        CreditEngine.Untouched(was, id);
      }
    }

    /** What is left of the call or callback that began with step `a` from `s`. */
    method Finish(ghost a: Act, ghost g: Ledger, ghost s: Stream, ghost was: CreditEngine.FlowState)
      requires was.g == g && Pre(was.lim, g, s) && Enabled(s, a) && InputOk(a)
      requires Now(Do(was.lim, g, s, a), was)
      modifies this, flow
      ensures Valid() && Now(Whole(was.lim, g, s, a), was)
    {
      hide CreditEngine.ConnFlow.Value, Do, Pre, Enabled, CreditEngine.Touches, Settle;
      StaysValid(a, g, s, was);
      ghost var mid, o := flow.Value(), Do(was.lim, g, s, a);
      CreditEngine.Touched(was, mid, id, Account(o.g, o.s.credit), o.ctl);
      SettleAll();
      ghost var rest := Settle(was.lim, o.g, o.s);
      CreditEngine.TouchTwice(was, mid, flow.Value(), id, Account(o.g, o.s.credit), o.ctl, Account(rest.g, rest.s.credit), rest.ctl);
    }

    /** Since the old state, step `a` was taken and everything it owes. */
    twostate predicate Did(a: Act)
      reads this, flow
    {
      && Enabled(old(View()), a)
      && Now(Whole(old(flow.Value().lim), old(flow.Value().g), old(View()), a), old(flow.Value()))
    }

    // ---- the calls and callbacks, each running alone ----

    /** False is a violation: the connection must fail. */
    method OnFrame(f: Frame) returns (ok: bool)
      requires Valid() && Enabled(View(), ARecv(f)) && FrameOk(f)
      modifies this, flow
      ensures Valid() && ok == RecvFrame(old(flow.Value().g), old(View()), f).Next?
      ensures if ok then Did(ARecv(f)) else Same()
    {
      hide CreditEngine.ConnFlow.Value, Do, Pre, Enabled, CreditEngine.Touches, Settle, Whole, Now, RecvFrame;
      ghost var g, s, was := flow.Value().g, View(), flow.Value();
      ok := OnFrameSection(f);
      if ok {
        Finish(ARecv(f), g, s, was);
      }
    }

    method OnChannelClose() returns (ok: bool)
      requires Valid() && Enabled(View(), AClosed)
      modifies this, flow
      ensures Valid() && ok == old(View()).WireComplete()
      ensures if ok then Did(AClosed) else Same()
    {
      hide CreditEngine.ConnFlow.Value, Do, Pre, Enabled, CreditEngine.Touches, Settle, Whole, Now;
      ghost var g, s, was := flow.Value().g, View(), flow.Value();
      ok := ClosedSection();
      if ok {
        Finish(AClosed, g, s, was);
      }
    }

    method PollRead(room: nat) returns (r: ReadResult)
      requires Valid() && hand.app == Quiet
      modifies this, flow
      ensures Valid() && r == ReadOutcome(old(View()), room)
      ensures if r.Chunk? then Did(ARead(room)) else Same()
    {
      hide CreditEngine.ConnFlow.Value, Do, Pre, CreditEngine.Touches, Settle, Whole, Now;
      if state.inbuf == [] {
        if state.readCancel {
          return Failed;
        }
        if state.peerReset.Some? {
          return ResetBy(state.peerReset.value);
        }
        if state.peerFin {
          return Eof;
        }
        if state.dcClosed {
          return Failed;
        }
        return Blocked;
      }
      ghost var g, s, was := flow.Value().g, View(), flow.Value();
      var data := ReadSection(room);
      Finish(ARead(room), g, s, was);
      return Chunk(data);
    }

    /** A second cancel does nothing. */
    method CancelRead(code: nat)
      requires Valid() && hand.app == Quiet && code < U32_LIMIT
      modifies this, flow
      ensures Valid()
      ensures if old(state.readCancel) then Same() else Did(ACancelRead(code))
    {
      hide CreditEngine.ConnFlow.Value, Do, Pre, CreditEngine.Touches, Settle, Whole, Now;
      if state.readCancel {
        return;
      }
      ghost var g, s, was := flow.Value().g, View(), flow.Value();
      CancelSection(code);
      Finish(ACancelRead(code), g, s, was);
    }

    /** Both halves, in order, waiting for room if the queue is full. Afterwards the stream counts
        as closed by its application, and every run retires it. */
    method Close()
      requires Valid() && hand.app == Quiet
      modifies this, flow
      ensures Valid() && Retirement.Closed(View())
      ensures !old(state.readCancel) && !old(View().PeerEnded()) ==> 2 in SentCodes.AskedStops(View())
    {
      hide CreditEngine.ConnFlow.Value, Do, Pre, CreditEngine.Touches, Settle, Whole, SentCodes.AskedStops, SentCodes.OrderedOnly;
      ghost var s, f := View(), flow.Value();
      CloseWrite();
      if s.tx.terminal == NotEnded { CloseWriteChooses(f.lim, f.g, s); }
      if hand.app == Finishing {
        AwaitRoom();
      }
      ghost var t, h := View(), flow.Value();
      CancelRead(CLOSED);
      if !t.rx.cancel {
        CancelChooses(h.lim, h.g, t);
        if !t.PeerEnded() {
          OnlyDataAndFin(h.lim, h.g, t);
          CancelAsks(h.lim, h.g, t, CLOSED);
          assert CLOSED in SentCodes.AskedStops(t) + [CLOSED];
        }
      }
    }

    /** The writer task makes room, and the FIN that waited for it is queued. */
    method AwaitRoom()
      requires Valid() && hand.app == Finishing
      modifies this, flow
      ensures Valid() && hand.app == Quiet && state.localTerminal == ByFin
      ensures state.readCancel == old(state.readCancel) && View().PeerEnded() == old(View().PeerEnded())
    {
      FinishingIsOpen();
      hide CreditEngine.ConnFlow.Value, Do, Pre, CreditEngine.Touches, Settle;
      if writer.Holding? {
        HeldTurn();
      }
      RunWriter();
      ghost var s, h := View(), flow.Value();
      SettleAll();
      SettleKeepsChoices(h.lim, h.g, s);
    }

    /** A FIN not yet queued keeps the channel open and the writer at work. */
    lemma FinishingIsOpen()
      requires Valid() && hand.app == Finishing
      ensures state.localTerminal == ByFin && !state.dcClosed && !closeSent && (writer == Ready || writer.Holding?)
    {
      hide Flatten, Trace.Bytes, Trace.End, Trace.Legal, Trace.Announced, QueuedBytes, QueuedGrants;
    }

    /** With the queue full the call stays in progress: FIN follows every accepted write. */
    method CloseWrite()
      requires Valid() && hand.app == Quiet
      modifies this, flow
      ensures Valid()
      ensures if old(state.localTerminal) != NotEnded then Same() else Did(ACloseWrite)
    {
      hide CreditEngine.ConnFlow.Value, Do, Pre, CreditEngine.Touches, Settle, Whole, Now;
      if state.localTerminal != NotEnded {
        return;
      }
      ghost var g, s, was := flow.Value().g, View(), flow.Value();
      CloseWriteSection();
      Finish(ACloseWrite, g, s, was);
    }

    method PollShutdown() returns (ready: bool)
      requires Valid() && hand.app == Quiet
      modifies this, flow
      ensures Valid()
      ensures if old(state.localTerminal) != NotEnded then Same() else Did(AShutdown)
      ensures ready == (old(state.localTerminal) != NotEnded || old(writer.Stopped?) || old(|dataQ|) < QUEUE_CAPACITY)
    {
      hide CreditEngine.ConnFlow.Value, Do, Pre, CreditEngine.Touches, Settle, Whole, Now;
      if state.localTerminal != NotEnded {
        return true;
      }
      ready := writer.Stopped? || |dataQ| < QUEUE_CAPACITY;
      ghost var g, s, was := flow.Value().g, View(), flow.Value();
      ShutdownSection();
      Finish(AShutdown, g, s, was);
    }

    method ResetWrite(code: nat)
      requires Valid() && hand.app == Quiet && code < U32_LIMIT
      modifies this, flow
      ensures Valid()
      ensures if old(state.localTerminal) != NotEnded then Same() else Did(AResetWrite(code))
    {
      hide CreditEngine.ConnFlow.Value, Do, Pre, CreditEngine.Touches, Settle, Whole, Now;
      if state.localTerminal != NotEnded {
        return;
      }
      ghost var g, s, was := flow.Value().g, View(), flow.Value();
      ResetSection(code);
      Finish(AResetWrite(code), g, s, was);
    }

    /** Whether a write gets past its first lock section. */
    ghost predicate Writable()
      reads this
    {
      state.peerStop.None? && state.localTerminal == NotEnded && !state.dcClosed
    }

    /** The first two sections of a write. */
    method AdmitWrite(buf: seq<byte>) returns (parked: bool)
      requires Valid() && hand.app == Quiet && pendingGrant <= |buf| && Writable()
      modifies this`hand, this`pendingGrant, flow
      ensures Valid() && hand == old(hand).(app := hand.app) && (hand.app == Quiet || hand.app == Admitted(buf))
      ensures var n := WriteGrant(old(flow.Value().g), old(View()), buf);
              && (hand.app.Admitted? <==> n >= 1) && (n >= 1 ==> pendingGrant == n && !parked)
              && (n < 1 ==> pendingGrant == 0 && parked == WriteBlocks(old(flow.Value().g), old(View()), buf))
      ensures CreditEngine.Touches(old(flow.Value()), flow.Value(), id, Account(flow.Value().g, flow.Value().At(id)), [])
    {
      hide CreditEngine.ConnFlow.Value, Pre, CreditEngine.Touches, PollReserve;
      ghost var g, s, was := flow.Value().g, View(), flow.Value();
      WriteCheckSection(buf);
      StaysValid(AWriteCheck(buf), g, s, was);
      ghost var g1, s1, was1 := flow.Value().g, View(), flow.Value();
      CreditEngine.Touched(was, was1, id, Account(g1, s1.credit), []);
      GrantsSomething(g1, s1.credit, Min(|buf|, MAX_FRAME_PAYLOAD));
      parked := WriteReserveSection();
      StaysValid(AWriteReserve, g1, s1, was1);
      ghost var o := WriteReserve(g1, s1, buf);
      CreditEngine.Touched(was1, flow.Value(), id, Account(o.g, o.s.credit), o.ctl);
      CreditEngine.TouchTwice(was, was1, flow.Value(), id, Account(g1, s1.credit), [], Account(o.g, o.s.credit), []);
      assert pendingGrant == View().tx.grant;
    }

    /** The last section of a write. */
    method EnqueueWrite(buf: seq<byte>) returns (n: nat)
      requires Valid() && hand.app == Admitted(buf)
      modifies this`hand, this`dataQ, this`pendingGrant, this`past, flow
      ensures Valid() && hand == old(hand).(app := Quiet)
      ensures n == (if !writer.Stopped? && old(|dataQ|) < QUEUE_CAPACITY then old(pendingGrant) else 0) <= |buf|
      ensures past == old(past).(accepted := old(past).accepted + buf[..n])
      ensures dataQ == old(dataQ) + if n == 0 then [] else [Item(Data(buf[..n]), n)]
      ensures n > 0 ==> pendingGrant == 0
      ensures CreditEngine.Touches(old(flow.Value()), flow.Value(), id, Account(flow.Value().g, flow.Value().At(id)), [])
    {
      hide CreditEngine.ConnFlow.Value, Pre, CreditEngine.Touches, Release;
      ghost var g, s, was := flow.Value().g, View(), flow.Value();
      MayReturn(pendingGrant);
      GrantHeld();
      n := if !writer.Stopped? && |dataQ| < QUEUE_CAPACITY then pendingGrant else 0;
      WriteQueueSection();
      StaysValid(AWriteQueue, g, s, was);
      ghost var o := WriteQueue(g, s, buf);
      CreditEngine.Touched(was, flow.Value(), id, Account(o.g, o.s.credit), o.ctl);
      ghost var v := View();
      assert v.tx.dataQ == dataQ && v.tx.accepted == past.accepted && v.tx.grant == pendingGrant;
      assert v.rx.read == past.read && v.rx.log == past.received;
    }

    lemma GrantHeld()
      requires Valid() && hand.app.Admitted?
      ensures 1 <= pendingGrant <= Min(|hand.app.buf|, MAX_FRAME_PAYLOAD)
    {
      hide Flatten, Trace.Bytes, Trace.End, Trace.Legal, Trace.Announced, QueuedBytes, QueuedGrants;
    }

    /** Credit comes first, then room in the queue. A write that fails or would block takes no
        byte; one that blocks on the queue keeps its grant for the next call. */
    method PollWrite(buf: seq<byte>) returns (ready: bool, n: nat)
      requires Valid() && hand.app == Quiet && pendingGrant <= |buf|
      modifies this`hand, this`dataQ, this`pendingGrant, this`past, flow
      ensures Valid() && hand == old(hand) && n <= Min(|buf|, MAX_FRAME_PAYLOAD)
      ensures past == old(past).(accepted := old(past).accepted + buf[..n])
      ensures dataQ == old(dataQ) + if n == 0 then [] else [Item(Data(buf[..n]), n)]
      ensures n > 0 ==> ready && pendingGrant == 0 && n == WriteGrant(old(flow.Value().g), old(View()), buf)
      ensures !ready <==> old(Writable()) && WriteBlocks(old(flow.Value().g), old(View()), buf)
      ensures CreditEngine.Touches(old(flow.Value()), flow.Value(), id, Account(flow.Value().g, flow.Value().At(id)), [])
    {
      hide CreditEngine.ConnFlow.Value, Valid, CreditEngine.Touches, PollReserve;
      if !(state.peerStop.None? && state.localTerminal == NotEnded && !state.dcClosed) {
        CreditEngine.Untouched(flow.Value(), id);
        return true, 0;
      }
      ghost var was := flow.Value();
      var parked := AdmitWrite(buf);
      if hand.app == Quiet {
        return !parked, 0;
      }
      ghost var mid := flow.Value();
      GrantHeld();
      n := EnqueueWrite(buf);
      CreditEngine.TouchTwice(was, mid, flow.Value(), id, Account(mid.g, mid.At(id)), [],
                              Account(flow.Value().g, flow.Value().At(id)), []);
      ready := writer.Stopped? || n > 0;
    }

    /** A held grant goes back with the handle, and nobody writes to the ordered queue any more. */
    method DropHandle()
      requires Valid() && hand.app == Quiet
      modifies this`pendingGrant, this`hand, flow
      ensures Valid() && Took(ADropHandle)
      ensures pendingGrant == 0 && hand == old(hand).(app := Gone)
    {
      hide CreditEngine.ConnFlow.Value, Do, Pre, CreditEngine.Touches;
      ghost var g, s, was := flow.Value().g, View(), flow.Value();
      MayReturn(pendingGrant);
      DropSection();
      StaysValid(ADropHandle, g, s, was);
    }

    // ---- the tasks ----

    /** The writer may go on: it is waiting, and the channel is open. */
    ghost predicate WriterRuns()
      reads this
    {
      writer == Ready && !state.dcClosed && !closeSent
    }

    method LifeTurn()
      requires Valid() && WriterRuns() && lifeQ != []
      modifies this`lifeQ, this`wire, this`writer, this`state, this`hand
      ensures Valid() && WriterRuns() && OthersKept()
      ensures lifeQ == old(lifeQ)[1..] && wire == old(wire) + [old(lifeQ)[0]]
    {
      hide CreditEngine.ConnFlow.Value, Pre, CreditEngine.Touches, Do;
      ghost var g, s, was := flow.Value().g, View(), flow.Value();
      SendLifeSection();
      StaysValid(ASendLife, g, s, was);
      NoteTurn();
    }

    /** The note of a terminal frame, when one was just sent. */
    method NoteTurn()
      requires Valid() && (writer == Ready || writer.Noting?) && !state.dcClosed && !closeSent
      modifies this`writer, this`state, this`hand
      ensures Valid() && WriterRuns() && OthersKept()
    {
      hide CreditEngine.ConnFlow.Value, Pre, CreditEngine.Touches, Do;
      if writer.Noting? {
        ghost var g, s, was := flow.Value().g, View(), flow.Value();
        NoteSection();
        StaysValid(ANote, g, s, was);
      }
    }

    method DataTurn()
      requires Valid() && WriterRuns() && lifeQ == [] && dataQ != []
      modifies this`dataQ, this`writer, this`wire, this`state, this`hand, flow
      ensures Valid() && WriterRuns() && OthersKept()
      ensures dataQ == old(dataQ)[1..]
      ensures wire == old(wire) + if state.dropData && old(dataQ)[0].frame.Data? then [] else [old(dataQ)[0].frame]
    {
      hide CreditEngine.ConnFlow.Value, Pre, CreditEngine.Touches, Do;
      ghost var g, s, was := flow.Value().g, View(), flow.Value();
      QueuePop(dataQ);
      MayReturn(dataQ[0].reserved);
      PopDataSection();
      StaysValid(APopData, g, s, was);
      if writer.Holding? {
        HeldTurn();
      }
    }

    method HeldTurn()
      requires Valid() && writer.Holding? && !state.dcClosed && !closeSent
      modifies this`writer, this`wire, this`state, this`hand, flow
      ensures Valid() && WriterRuns() && OthersKept()
      ensures wire == old(wire) + [old(writer).item.frame]
    {
      hide CreditEngine.ConnFlow.Value, Pre, CreditEngine.Touches, Do;
      ghost var g, s, was := flow.Value().g, View(), flow.Value();
      MayReturn(writer.item.reserved);
      SendHeldSection();
      StaysValid(ASendHeld, g, s, was);
      NoteTurn();
    }

    /** After a terminal frame the writer checks for retirement; with the channel still open
        that can only start the close. */
    method CheckTurn()
      requires Valid() && WriterRuns()
      modifies this`hand, this`closeDue
      ensures Valid() && !hand.retireDue && hand.app == old(hand).app && hand.resetDue == old(hand).resetDue
    {
      hide CreditEngine.ConnFlow.Value, Pre, CreditEngine.Touches;
      if hand.retireDue {
        ghost var g, s, was := flow.Value().g, View(), flow.Value();
        MaybeRetireSection();
        StaysValid(AMaybeRetire, g, s, was);
      }
    }

    /** The writer task until it has nothing left to do: lifecycle frames first, then DATA and
        FIN in order, DATA only if the write half was not reset. */
    method RunWriter()
      requires Valid() && WriterRuns()
      modifies this, flow
      ensures Valid() && WriterRuns() && lifeQ == [] && dataQ == []
      ensures wire == old(wire) + old(lifeQ) + Unsent(old(dataQ), old(state).dropData)
      ensures past == old(past) && pendingGrant == old(pendingGrant)
      ensures hand.app == old(hand).app && hand.resetDue == old(hand).resetDue
      ensures state == old(state).(localTerminalSent := state.localTerminalSent)
      ensures !state.dropData ==> Trace.Bytes(wire) == past.accepted
      ensures View().credit.Some? ==> Reserved(View()) == pendingGrant
    {
      hide CreditEngine.ConnFlow.Value, Valid;
      while lifeQ != [] || dataQ != []
        invariant Valid() && WriterRuns() && state == old(state).(localTerminalSent := state.localTerminalSent)
        invariant wire + lifeQ + Unsent(dataQ, state.dropData) == old(wire) + old(lifeQ) + Unsent(old(dataQ), old(state).dropData)
        invariant past == old(past) && pendingGrant == old(pendingGrant)
        invariant hand.app == old(hand).app && hand.resetDue == old(hand).resetDue
        decreases |lifeQ| + |dataQ|
      {
        if lifeQ != [] {
          ghost var l := lifeQ;
          LifeTurn();
          assert l == [l[0]] + lifeQ;
        } else {
          DataTurn();
        }
        CheckTurn();
      }
      NothingUnsent();
    }

    /** With both queues empty every accepted byte is on the wire, but for a reset, and only the
        grant in hand is still reserved. */
    lemma NothingUnsent()
      requires Valid() && writer == Ready && dataQ == []
      ensures !state.dropData ==> Trace.Bytes(wire) == past.accepted
      ensures View().credit.Some? ==> Reserved(View()) == pendingGrant
    {
      hide Flatten, Trace.Bytes, Trace.End, Trace.Legal, Trace.Announced;
      assert Trace.Bytes(wire) + [] + [] == Trace.Bytes(wire);
    }

    /** The writer task once the handle is gone and nothing interrupts it: it sends all it has and
        ends. The local terminal frame is then on the wire if and only if one was chosen and was
        not still with the STOP_SENDING handler. */
    method FinishWriter()
      requires Valid() && WriterRuns() && hand.app == Gone
      modifies this, flow
      ensures Valid() && writer.Stopped? && lifeQ == [] && dataQ == []
      ensures wire == old(wire) + old(lifeQ) + Unsent(old(dataQ), old(state).dropData)
      ensures state.localTerminalSent <==> old(state).localTerminal != NotEnded && old(hand).resetDue.None?
    {
      hide CreditEngine.ConnFlow.Value, Pre, CreditEngine.Touches, Valid;
      RunWriter();
      TerminalIsOut();
      EndWriter();
    }

    lemma TerminalIsOut()
      requires Valid() && writer == Ready && lifeQ == [] && dataQ == [] && hand.app == Gone
      ensures state.localTerminalSent <==> state.localTerminal != NotEnded && hand.resetDue.None?
    {
      hide Flatten, Trace.Bytes, Trace.Legal, Trace.Announced, QueuedGrants;
    }

    method EndWriter()
      requires Valid() && Enabled(View(), AWriterEnd)
      modifies this`writer
      ensures Valid() && Took(AWriterEnd) && writer.Stopped?
    {
      hide CreditEngine.ConnFlow.Value, Pre, CreditEngine.Touches, Do;
      ghost var g, s, was := flow.Value().g, View(), flow.Value();
      WriterEndSection();
      StaysValid(AWriterEnd, g, s, was);
    }

    /** On a channel that is closing the writer gives up; what it reserved goes back. */
    method StopWriter()
      requires Valid() && Enabled(View(), AWriterStop)
      modifies this`writer, flow
      ensures Valid() && Took(AWriterStop) && writer.Stopped?
      ensures View().credit.Some? ==> Reserved(View()) == pendingGrant + QueuedGrants(dataQ)
    {
      hide CreditEngine.ConnFlow.Value, Pre, CreditEngine.Touches, Do, Enabled;
      ghost var g, s, was := flow.Value().g, View(), flow.Value();
      MayReturn(HeldGrant(writer));
      WriterStopSection();
      StaysValid(AWriterStop, g, s, was);
      ReservedIs();
    }

    /** What a stream without a writer has reserved is in hand or queued. */
    lemma ReservedIs()
      requires Valid() && writer.Stopped?
      ensures View().credit.Some? ==> Reserved(View()) == pendingGrant + QueuedGrants(dataQ)
    {
      hide Flatten, Trace.Bytes, Trace.End, Trace.Legal, Trace.Announced, QueuedGrants, QueuedBytes;
    }

    /** The closing task: the channel's close is called. */
    method RunCloser()
      requires Valid() && closeDue
      modifies this`closeDue, this`closeSent
      ensures Valid() && closeSent && !closeDue
    {
      hide CreditEngine.ConnFlow.Value, Pre, CreditEngine.Touches;
      ghost var g, s, was := flow.Value().g, View(), flow.Value();
      CloseChannelSection();
      StaysValid(ACloseChannel, g, s, was);
    }
  }
}
