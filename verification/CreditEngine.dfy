/** The credit engine of one connection: its state machine and the class that runs it. */
module CreditEngine {
  import opened Basics
  import opened Wire
  import opened Flow

  /** A blocked byte reservation. */
  datatype Waiter = Waiter(id: nat, want: nat)

  datatype FlowState = FlowState(
    lim: Limits,
    g: Ledger,
    streams: map<nat, StreamCredit>,
    nextId: nat,
    parked: seq<Waiter>,
    slotWaiters: nat,
    adverts: seq<Control>,
    hello: bool)
  {
    function At(id: nat): Option<StreamCredit> {
      if id in streams then Some(streams[id]) else None
    }

    /** The account of stream `id` replaced; a stream that is gone stays gone. */
    function Put(id: nat, a: Account): FlowState {
      if a.c.Some? then this.(g := a.g, streams := streams[id := a.c.value]) else this.(g := a.g)
    }

    function Woken(): FlowState { this.(parked := [], slotWaiters := 0) }
  }

  datatype Op =
    | Fail
    | PeerHello(l: Limits)
    | PeerMaxData(v: nat)
    | PeerMaxStreams(v: nat)
    | NewStream
    | Drop(id: nat)
    | Poll(id: nat, want: nat)
    | Commit(id: nat, n: nat)
    | Release(id: nat, n: nat)
    | StopSend(id: nat)
    | PeerMaxStreamData(id: nat, v: nat)
    | PollSlot
    | CommitSlot
    | ReleaseSlot
    | Receive(id: nat, n: nat)
    | Consume(id: nat, n: nat)
    | Cancel(id: nat)
    | PeerOpened
    | PeerRetired

  datatype Reply = Done | NewId(id: nat) | Polled(grant: Grant) | Accepted(ok: bool) | Advert(limit: Option<nat>)

  function Init(lim: Limits): FlowState {
    FlowState(lim, NewLedger(lim), map[], 0, [], 0, [], false)
  }

  function MaybeWoken(f: FlowState, wake: bool): FlowState { if wake then f.Woken() else f }

  function Step(f: FlowState, op: Op): (FlowState, Reply) {
    match op
    case Fail =>
      (MaybeWoken(f.(g := f.g.(failed := true)), !f.g.failed), Done)
    case PeerHello(l) =>
      (f.(g := OnHello(f.g, l), hello := true).Woken(), Done)
    case PeerMaxData(v) =>
      (MaybeWoken(f.(g := RaiseMaxData(f.g, v)), v > f.g.peerMaxData), Done)
    case PeerMaxStreams(v) =>
      (MaybeWoken(f.(g := RaiseMaxStreams(f.g, v)), v > f.g.peerMaxStreams), Done)
    case NewStream =>
      (f.(nextId := f.nextId + 1, streams := f.streams[f.nextId + 1 := NewCredit(f.lim)]), NewId(f.nextId + 1))
    case Drop(id) =>
      (MaybeWoken(f.(g := DropStream(f.g, f.At(id)), streams := f.streams - {id}), id in f.streams), Done)
    case Poll(id, want) =>
      var (a, r) := PollReserve(f.g, f.At(id), want);
      (match r
       case Parked => f.(parked := f.parked + [Waiter(id, want)])
       case Granted(_) => f.Put(id, a)
       case Refused => f, Polled(r))
    case Commit(id, n) => (f.Put(id, Flow.Commit(f.g, f.At(id), n)), Done)
    case Release(id, n) => (f.Put(id, Flow.Release(f.g, f.At(id), n)).Woken(), Done)
    case StopSend(id) =>
      (MaybeWoken(f.Put(id, Account(f.g, FailSend(f.At(id)))),
                  id in f.streams && !f.streams[id].send.failed), Done)
    case PeerMaxStreamData(id, v) =>
      (MaybeWoken(f.Put(id, Account(f.g, RaiseStreamMax(f.At(id), v))),
                  id in f.streams && v > f.streams[id].send.explicitMax), Done)
    case PollSlot =>
      var (g, r) := ReserveSlot(f.g);
      (if r.Parked? then f.(slotWaiters := f.slotWaiters + 1) else f.(g := g), Polled(r))
    case CommitSlot => (f.(g := Flow.CommitSlot(f.g)), Done)
    case ReleaseSlot => (f.(g := Flow.ReleaseSlot(f.g)).Woken(), Done)
    case Receive(id, n) =>
      var r := DataReceived(f.g, f.At(id), n);
      if r.Ok? then (f.Put(id, r.value), Accepted(true)) else (f, Accepted(false))
    case Consume(id, n) =>
      var u := OnConsumed(f.lim, f.g, f.At(id), n);
      var adverts := if u.connAdvert.Some? then [MaxData(u.connAdvert.value)] else [];
      (f.Put(id, Account(u.g, u.c)).(adverts := f.adverts + adverts), Advert(u.streamAdvert))
    case Cancel(id) => (f.Put(id, Account(f.g, MarkCancelled(f.At(id)))), Done)
    case PeerOpened =>
      var r := PeerStreamOpened(f.g);
      if r.Ok? then (f.(g := r.value), Accepted(true)) else (f, Accepted(false))
    case PeerRetired =>
      var g := PeerStreamRetired(f.lim, f.g);
      (f.(g := g, adverts := f.adverts + [MaxStreams(Limit(g.advertisedMaxStreams))]), Done)
  }

  /** What the engine asks of its callers: HELLO comes first and once, limits come from the
      decoder, a commit or release is covered by a reservation, and only received bytes are
      consumed. */
  predicate Allowed(f: FlowState, op: Op) {
    match op
    case PeerHello(l) => !f.hello && LimitsOk(l)
    case PeerMaxData(v) => f.hello && v <= MAX_OFFSET
    case PeerMaxStreams(v) => f.hello && v <= MAX_OFFSET
    case PeerMaxStreamData(_, v) => v <= MAX_OFFSET
    case Commit(id, n) => id in f.streams ==> n <= f.streams[id].send.reserved
    case Release(id, n) => id in f.streams ==> n <= f.streams[id].send.reserved
    case CommitSlot => f.g.streamsReserved >= 1
    case ReleaseSlot => f.g.streamsReserved >= 1
    case Consume(id, n) =>
      && n <= f.g.received - f.g.consumed
      && (id in f.streams ==> n <= f.streams[id].recv.received - f.streams[id].recv.consumed)
    case PeerRetired => f.g.peerRetired < f.g.peerOpened
    case _ => true
  }

  ghost function Reservations(streams: map<nat, StreamCredit>): map<nat, int> {
    map id | id in streams :: streams[id].send.reserved
  }

  ghost predicate CountersOk(f: FlowState) {
    && LimitsOk(f.lim) && LedgerOk(f.lim, f.g)
    && (!f.hello ==> f.g.peerInit == 0 && f.g.peerMaxData == 0 && f.g.peerMaxStreams == 0)
    && (forall id :: id in f.streams ==>
          id <= f.nextId && SendOk(f.g.peerInit, f.streams[id].send) && RecvOk(f.lim.maxStreamData, f.streams[id].recv))
  }

  /** Every reserved byte of the connection belongs to a live stream. */
  ghost predicate Balanced(f: FlowState) {
    f.g.reserved == Total(Reservations(f.streams))
  }

  /** Nothing has failed for stream `id`, and one of its two windows is used up. */
  predicate Blocked(f: FlowState, id: nat) {
    && !f.g.failed && id in f.streams && !f.streams[id].send.failed
    && (StreamAvail(f.g, f.streams[id]) <= 0 || ConnAvail(f.g) <= 0)
  }

  /** Every waiting caller that asked for something still has to wait. */
  ghost predicate NoLostWakeup(f: FlowState) {
    && (forall w :: w in f.parked && w.want >= 1 ==> Blocked(f, w.id))
    && (f.slotWaiters > 0 ==> !f.g.failed && f.g.streamsOpened + f.g.streamsReserved >= f.g.peerMaxStreams)
  }

  ghost predicate Inv(f: FlowState) {
    CountersOk(f) && Balanced(f) && NoLostWakeup(f)
  }

  // ---- preservation ----

  lemma PutBalances(f: FlowState, id: nat, a: Account)
    requires Balanced(f) && (a.c.Some? ==> id in f.streams)
    requires a.g.reserved - f.g.reserved ==
             if a.c.Some? then a.c.value.send.reserved - f.streams[id].send.reserved else 0
    ensures Balanced(f.Put(id, a))
  {
    if a.c.Some? {
      TotalUpdate(Reservations(f.streams), id, a.c.value.send.reserved);
      assert Reservations(f.streams[id := a.c.value]) == Reservations(f.streams)[id := a.c.value.send.reserved];
    }
  }

  lemma ReservationsCover(f: FlowState, id: nat)
    requires CountersOk(f) && Balanced(f) && id in f.streams
    ensures f.streams[id].send.reserved <= f.g.reserved
  {
    TotalEntry(Reservations(f.streams), id);
  }

  /** Replacing one account keeps the counters if the new ones are in range. */
  lemma PutCounters(f: FlowState, id: nat, a: Account)
    requires CountersOk(f) && LedgerOk(f.lim, a.g) && SamePeerLimits(f.g, a.g)
    requires a.c.Some? ==> id in f.streams && SendOk(a.g.peerInit, a.c.value.send) && RecvOk(f.lim.maxStreamData, a.c.value.recv)
    ensures CountersOk(f.Put(id, a))
  {
  }

  ghost predicate SamePeerLimits(g: Ledger, g': Ledger) {
    g.peerInit == g'.peerInit && g.peerMaxData == g'.peerMaxData && g.peerMaxStreams == g'.peerMaxStreams
  }

  lemma SenderCounters(f: FlowState, op: Op)
    requires CountersOk(f) && Balanced(f) && Allowed(f, op)
    requires op.Poll? || op.Commit? || op.Release? || op.StopSend? || op.PeerMaxStreamData?
    ensures CountersOk(Step(f, op).0)
  {
    if op.id in f.streams {
      match op
      case Poll(id, want) => PollCounters(f, id, want);
      case Commit(id, n) => ReturnCounters(f, id, n);
      case Release(id, n) => ReturnCounters(f, id, n);
      case StopSend(id) => FlagCounters(f, id, 0);
      case PeerMaxStreamData(id, v) => FlagCounters(f, id, v);
      hide CountersOk, Step;
    }
  }

  lemma FlagCounters(f: FlowState, id: nat, v: nat)
    requires CountersOk(f) && id in f.streams && v <= MAX_OFFSET
    ensures CountersOk(Step(f, StopSend(id)).0) && CountersOk(Step(f, PeerMaxStreamData(id, v)).0)
  {
    PutCounters(f, id, Account(f.g, FailSend(f.At(id))));
    PutCounters(f, id, Account(f.g, RaiseStreamMax(f.At(id), v)));
  }

  lemma ReturnCounters(f: FlowState, id: nat, n: nat)
    requires CountersOk(f) && Balanced(f) && id in f.streams && n <= f.streams[id].send.reserved
    ensures CountersOk(Step(f, Commit(id, n)).0) && CountersOk(Step(f, Release(id, n)).0)
  {
    ReservationsCover(f, id);
    PutCounters(f, id, Flow.Commit(f.g, f.At(id), n));
    PutCounters(f, id, Flow.Release(f.g, f.At(id), n));
  }

  lemma PollCounters(f: FlowState, id: nat, want: nat)
    requires CountersOk(f) && id in f.streams
    ensures CountersOk(Step(f, Poll(id, want)).0)
  {
    if PollReserve(f.g, f.At(id), want).1.Granted? {
      GrantFits(f.lim, f.g, f.streams[id], want);
      PutCounters(f, id, PollReserve(f.g, f.At(id), want).0);
    }
  }

  lemma DropCounters(f: FlowState, id: nat)
    requires CountersOk(f) && Balanced(f)
    ensures CountersOk(Step(f, Drop(id)).0)
  {
    if id in f.streams {
      ReservationsCover(f, id);
      assert LedgerOk(f.lim, DropStream(f.g, f.At(id)));
    }
  }

  lemma ReceiverCounters(f: FlowState, op: Op)
    requires CountersOk(f) && Allowed(f, op)
    requires op.Receive? || op.Consume? || op.Cancel?
    ensures CountersOk(Step(f, op).0)
  {
    match op
    case Receive(id, n) =>
      var r := DataReceived(f.g, f.At(id), n);
      if r.Ok? { PutCounters(f, id, r.value); }
    case Consume(id, n) =>
      ConsumeKeeps(f.lim, f.g, f.At(id), n);
      var u := OnConsumed(f.lim, f.g, f.At(id), n);
      PutCounters(f, id, Account(u.g, u.c));
    case Cancel(id) => PutCounters(f, id, Account(f.g, MarkCancelled(f.At(id))));
  }

  lemma StepCounters(f: FlowState, op: Op)
    requires CountersOk(f) && Balanced(f) && Allowed(f, op)
    ensures CountersOk(Step(f, op).0)
  {
    if op.Drop? {
      hide *;
      DropCounters(f, op.id);
    } else if op.Poll? || op.Commit? || op.Release? || op.StopSend? || op.PeerMaxStreamData? {
      SenderCounters(f, op);
    } else if op.Receive? || op.Consume? || op.Cancel? {
      hide *;
      ReceiverCounters(f, op);
    } else {
      ConnectionCounters(f, op);
    }
  }

  predicate OnOneStream(op: Op) {
    op.Drop? || op.Poll? || op.Commit? || op.Release? || op.StopSend? || op.PeerMaxStreamData? || op.Receive? ||
    op.Consume? || op.Cancel?
  }

  lemma ConnectionCounters(f: FlowState, op: Op)
    requires CountersOk(f) && Allowed(f, op) && !OnOneStream(op)
    ensures CountersOk(Step(f, op).0)
  {
    hide PollReserve, Flow.Commit, Flow.Release, DataReceived, OnConsumed;
  }

  lemma NewStreamBalances(f: FlowState)
    requires CountersOk(f) && Balanced(f)
    ensures Balanced(Step(f, NewStream).0)
  {
    var id: nat := f.nextId + 1;
    assert id !in f.streams;
    TotalUpdate(Reservations(f.streams), id, 0);
    assert Reservations(f.streams[id := NewCredit(f.lim)]) == Reservations(f.streams)[id := 0];
  }

  lemma StepBalances(f: FlowState, op: Op)
    requires CountersOk(f) && Balanced(f) && Allowed(f, op)
    ensures Balanced(Step(f, op).0)
  {
    match op
    case NewStream => NewStreamBalances(f);
    case Drop(id) => DropBalances(f, id);
    case Poll(id, want) => SenderBalances(f, op);
    case Commit(id, n) => SenderBalances(f, op);
    case Release(id, n) => SenderBalances(f, op);
    case StopSend(id) => SenderBalances(f, op);
    case PeerMaxStreamData(id, v) => SenderBalances(f, op);
    case Receive(id, n) =>
      var r := DataReceived(f.g, f.At(id), n);
      if r.Ok? { PutBalances(f, id, r.value); }
    case Consume(id, n) =>
      var u := OnConsumed(f.lim, f.g, f.At(id), n);
      PutBalances(f, id, Account(u.g, u.c));
    case Cancel(id) => PutBalances(f, id, Account(f.g, MarkCancelled(f.At(id))));
    case _ =>
      hide PollReserve, Flow.Commit, Flow.Release, DataReceived, OnConsumed;
  }

  lemma DropBalances(f: FlowState, id: nat)
    requires Balanced(f)
    ensures Balanced(Step(f, Drop(id)).0)
  {
    var f' := Step(f, Drop(id)).0;
    if id in f.streams {
      TotalRemove(Reservations(f.streams), id);
      assert Reservations(f'.streams) == Reservations(f.streams) - {id};
    } else {
      assert f'.streams == f.streams;
    }
  }

  lemma SenderBalances(f: FlowState, op: Op)
    requires Balanced(f)
    requires op.Poll? || op.Commit? || op.Release? || op.StopSend? || op.PeerMaxStreamData?
    ensures Balanced(Step(f, op).0)
  {
    match op
    case Poll(id, want) =>
      if PollReserve(f.g, f.At(id), want).1.Granted? { PutBalances(f, id, PollReserve(f.g, f.At(id), want).0); }
    case Commit(id, n) => PutBalances(f, id, Flow.Commit(f.g, f.At(id), n));
    case Release(id, n) => PutBalances(f, id, Flow.Release(f.g, f.At(id), n));
    case StopSend(id) => PutBalances(f, id, Account(f.g, FailSend(f.At(id))));
    case PeerMaxStreamData(id, v) => PutBalances(f, id, Account(f.g, RaiseStreamMax(f.At(id), v)));
  }

  lemma StepWakes(f: FlowState, op: Op)
    requires CountersOk(f) && NoLostWakeup(f) && Allowed(f, op)
    ensures NoLostWakeup(Step(f, op).0)
  {
    SlotParkedExactly(f.g);
    var f' := Step(f, op).0;
    forall w | w in f'.parked && w.want >= 1 ensures Blocked(f', w.id) {
      if w in f.parked {
        NothingFreed(f, op, w.id);
      } else {
        NewlyParked(f, op, w);
      }
    }
  }

  lemma NewlyParked(f: FlowState, op: Op, w: Waiter)
    requires w in Step(f, op).0.parked && w !in f.parked && w.want >= 1
    ensures Blocked(Step(f, op).0, w.id)
  {
    hide Flow.Commit, Flow.Release, DataReceived, OnConsumed, PollReserve;
    if op.Poll? { ParkedExactly(f.g, f.At(op.id), op.want); }
  }

  /** A step that wakes no one fails no one and frees no credit. */
  lemma NothingFreed(f: FlowState, op: Op, id: nat)
    requires CountersOk(f) && Allowed(f, op)
    requires !f.g.failed && id in f.streams && !f.streams[id].send.failed
    requires Step(f, op).0.parked != []
    ensures FreesNothing(f, Step(f, op).0, id)
  {
    if OnOneStream(op) {
      StreamFreesNothing(f, op, id);
    } else {
      hide PollReserve, Flow.Commit, Flow.Release, DataReceived, OnConsumed;
    }
  }

  ghost predicate FreesNothing(f: FlowState, f': FlowState, id: nat) {
    && id in f.streams && !f'.g.failed && id in f'.streams && !f'.streams[id].send.failed
    && StreamAvail(f'.g, f'.streams[id]) <= StreamAvail(f.g, f.streams[id])
    && ConnAvail(f'.g) <= ConnAvail(f.g)
  }

  lemma StreamFreesNothing(f: FlowState, op: Op, id: nat)
    requires Allowed(f, op) && OnOneStream(op)
    requires !f.g.failed && id in f.streams && !f.streams[id].send.failed
    requires Step(f, op).0.parked != []
    ensures FreesNothing(f, Step(f, op).0, id)
  {
  }

  /** Whoever is answered with a wait is recorded, and stays recorded until all are woken. */
  lemma WaitersKept(f: FlowState, op: Op)
    ensures var (f', r) := Step(f, op);
            if r == Polled(Parked) && op.Poll? then f'.parked == f.parked + [Waiter(op.id, op.want)] && f'.slotWaiters == f.slotWaiters
            else if r == Polled(Parked) then f'.parked == f.parked && f'.slotWaiters == f.slotWaiters + 1
            else (f'.parked == f.parked && f'.slotWaiters == f.slotWaiters) || (f'.parked == [] && f'.slotWaiters == 0)
  {
    hide PollReserve, Flow.Commit, Flow.Release, DataReceived, OnConsumed, ReserveSlot;
    if op.Poll? { GrantIsWhole(f.g, f.At(op.id), op.want); }
    SlotParkedExactly(f.g);
  }

  lemma StepKeeps(f: FlowState, op: Op)
    requires Inv(f) && Allowed(f, op)
    ensures Inv(Step(f, op).0)
  {
    StepCounters(f, op);
    StepBalances(f, op);
    StepWakes(f, op);
  }

  // ---- whole runs ----

  ghost predicate AllowedRun(f: FlowState, ops: seq<Op>)
    decreases |ops|
  {
    ops == [] || (Allowed(f, ops[0]) && AllowedRun(Step(f, ops[0]).0, ops[1..]))
  }

  function After(f: FlowState, ops: seq<Op>): FlowState
    decreases |ops|
  {
    if ops == [] then f else After(Step(f, ops[0]).0, ops[1..])
  }

  lemma {:induction false} RunKeeps(f: FlowState, ops: seq<Op>)
    requires Inv(f) && AllowedRun(f, ops)
    ensures Inv(After(f, ops))
    decreases |ops|
  {
    if ops != [] {
      StepKeeps(f, ops[0]);
      RunKeeps(Step(f, ops[0]).0, ops[1..]);
    }
  }

  /** Every run of the engine: counters in range, reservations accounted for, no wakeup lost. */
  lemma EveryRun(lim: Limits, ops: seq<Op>)
    requires LimitsOk(lim) && AllowedRun(Init(lim), ops)
    ensures Inv(After(Init(lim), ops))
  {
    RunKeeps(Init(lim), ops);
  }

  // ---- slots and announcements over a run ----

  /** Slots that step `op` takes into reservation, less those it gives back or commits. */
  function Taken(f: FlowState, op: Op): int {
    match op
    case PollSlot => if Step(f, op).1 == Polled(Granted(1)) then 1 else 0
    case CommitSlot => -1
    case ReleaseSlot => -1
    case _ => 0
  }

  function SlotsTaken(f: FlowState, ops: seq<Op>): int
    decreases |ops|
  {
    if ops == [] then 0 else Taken(f, ops[0]) + SlotsTaken(Step(f, ops[0]).0, ops[1..])
  }

  function Commits(ops: seq<Op>): nat {
    if ops == [] then 0 else (if ops[0].CommitSlot? then 1 else 0) + Commits(ops[1..])
  }

  lemma SlotsMove(f: FlowState, op: Op)
    ensures var f' := Step(f, op).0;
            && f'.g.streamsReserved - f.g.streamsReserved == Taken(f, op)
            && f'.g.streamsOpened - f.g.streamsOpened == (if op.CommitSlot? then 1 else 0)
  {
    if OnOneStream(op) {
      hide Taken, ReserveSlot;
      assert Taken(f, op) == 0 by { NoSlot(f, op); }
    } else {
      hide PollReserve, Flow.Commit, Flow.Release, DataReceived, OnConsumed;
    }
  }

  lemma NoSlot(f: FlowState, op: Op)
    requires OnOneStream(op)
    ensures Taken(f, op) == 0
  {
  }

  /** No slot is lost or counted twice: those reserved are those granted and neither committed nor
      given back, those opened are those committed. */
  lemma {:induction false} SlotsAreCounted(f: FlowState, ops: seq<Op>)
    ensures After(f, ops).g.streamsReserved == f.g.streamsReserved + SlotsTaken(f, ops)
    ensures After(f, ops).g.streamsOpened == f.g.streamsOpened + Commits(ops)
    decreases |ops|
  {
    hide Step;
    if ops != [] {
      SlotsMove(f, ops[0]);
      SlotsAreCounted(Step(f, ops[0]).0, ops[1..]);
    }
  }

  /** Both limits we enforce are the first windows or the largest announced since. */
  ghost predicate AnnouncedOk(f: FlowState) {
    && (f.g.localMaxData == f.lim.maxData || (f.g.localMaxData >= 0 && MaxData(f.g.localMaxData) in f.adverts))
    && (f.g.advertisedMaxStreams == f.lim.maxStreams ||
        (f.g.advertisedMaxStreams >= 0 && MaxStreams(f.g.advertisedMaxStreams) in f.adverts))
    && (forall m :: m in f.adverts ==>
          match m
          case MaxData(v) => v <= f.g.localMaxData
          case MaxStreams(v) => v <= f.g.advertisedMaxStreams
          case _ => false)
  }

  lemma StepAnnounces(f: FlowState, op: Op)
    requires CountersOk(f) && AnnouncedOk(f) && Allowed(f, op)
    ensures AnnouncedOk(Step(f, op).0)
  {
    var f' := Step(f, op).0;
    LimitsOnlyRise(f, op);
    if op.Consume? {
      ConsumeKeeps(f.lim, f.g, f.At(op.id), op.n);
      ConsumeAnnounces(f, op.id, op.n);
    } else if op.PeerRetired? {
      assert MaxStreams(Limit(f'.g.advertisedMaxStreams)) in f'.adverts;
    } else {
      QuietStep(f, op);
    }
  }

  lemma QuietStep(f: FlowState, op: Op)
    requires !op.Consume? && !op.PeerRetired?
    ensures var f' := Step(f, op).0;
            && f'.adverts == f.adverts && f'.lim == f.lim
            && f'.g.localMaxData == f.g.localMaxData && f'.g.advertisedMaxStreams == f.g.advertisedMaxStreams
  {
  }

  lemma ConsumeAnnounces(f: FlowState, id: nat, n: nat)
    requires AnnouncedOk(f)
    requires ConsumedConn(f.lim, f.g, n, OnConsumed(f.lim, f.g, f.At(id), n)) && 0 <= f.g.localMaxData
    ensures AnnouncedOk(Step(f, Consume(id, n)).0)
  {
    hide OnConsumed, LedgerOk;
    var u := OnConsumed(f.lim, f.g, f.At(id), n);
    if u.connAdvert.Some? {
      assert Step(f, Consume(id, n)).0.adverts == f.adverts + [MaxData(u.connAdvert.value)];
    }
  }

  lemma {:induction false} RunAnnounces(f: FlowState, ops: seq<Op>)
    requires Inv(f) && AnnouncedOk(f) && AllowedRun(f, ops)
    ensures AnnouncedOk(After(f, ops))
    decreases |ops|
  {
    hide Step, Allowed, AnnouncedOk, Balanced, NoLostWakeup, CountersOk;
    if ops != [] {
      StepKeeps(f, ops[0]);
      StepAnnounces(f, ops[0]);
      RunAnnounces(Step(f, ops[0]).0, ops[1..]);
    }
  }

  /** In every run the limits enforced on the peer are exactly those it was told. */
  lemma EnforcedIsAnnounced(lim: Limits, ops: seq<Op>)
    requires LimitsOk(lim) && AllowedRun(Init(lim), ops)
    ensures AnnouncedOk(After(Init(lim), ops))
  {
    RunAnnounces(Init(lim), ops);
  }

  /** The first write of a fresh stream, with the peer's windows open and nothing sent, waits if it is
      empty. */
  lemma EmptyWriteParks(lim: Limits, peer: Limits)
    requires LimitsOk(lim) && LimitsOk(peer) && peer.maxStreamData >= 1 && peer.maxData >= 1
    ensures var ops := [PeerHello(peer), NewStream];
            && AllowedRun(Init(lim), ops)
            && var f := After(Init(lim), ops);
            && 1 in f.streams && StreamAvail(f.g, f.streams[1]) >= 1 && ConnAvail(f.g) >= 1
            && Step(f, Poll(1, 0)).1 == Polled(Parked)
  {
    var ops := [PeerHello(peer), NewStream];
    var f0 := Init(lim);
    var f1 := Step(f0, PeerHello(peer)).0;
    var f2 := Step(f1, NewStream).0;
    assert ops[1..] == [NewStream] && ops[1..][1..] == [];
    assert AllowedRun(f2, []) && After(f2, []) == f2;
    assert AllowedRun(f1, ops[1..]) && After(f1, ops[1..]) == f2;
    NothingIsNeverGranted(f2.g, f2.At(1));
  }

  /** What a limit may do in one step: rise. */
  ghost predicate Rises(f: FlowState, f': FlowState) {
    && f.g.peerInit <= f'.g.peerInit && f.g.peerMaxData <= f'.g.peerMaxData
    && f.g.peerMaxStreams <= f'.g.peerMaxStreams
    && f.g.localMaxData <= f'.g.localMaxData
    && f.g.advertisedMaxStreams <= f'.g.advertisedMaxStreams
    && (forall id :: id in f.streams && id in f'.streams ==>
          && f.streams[id].send.explicitMax <= f'.streams[id].send.explicitMax
          && f.streams[id].recv.localMax <= f'.streams[id].recv.localMax)
  }

  lemma PutRises(f: FlowState, id: nat, a: Account)
    requires SamePeerLimits(f.g, a.g) && f.g.localMaxData <= a.g.localMaxData
    requires f.g.advertisedMaxStreams == a.g.advertisedMaxStreams
    requires a.c.Some? ==> id in f.streams && f.streams[id].send.explicitMax <= a.c.value.send.explicitMax
    requires a.c.Some? ==> id in f.streams && f.streams[id].recv.localMax <= a.c.value.recv.localMax
    ensures Rises(f, f.Put(id, a))
  {
  }

  lemma LimitsOnlyRise(f: FlowState, op: Op)
    requires CountersOk(f) && Allowed(f, op)
    ensures Rises(f, Step(f, op).0)
  {
    match op
    case Receive(id, n) => ReceiveRises(f, id, n);
    case Consume(id, n) => ConsumeRises(f, id, n);
    case Cancel(id) => PutRises(f, id, Account(f.g, MarkCancelled(f.At(id))));
    case _ =>
      hide CountersOk, Rises;
      if OnOneStream(op) && !op.Drop? { SenderRises(f, op); } else { ConnectionRises(f, op); }
  }

  lemma ConnectionRises(f: FlowState, op: Op)
    requires CountersOk(f) && Allowed(f, op) && (!OnOneStream(op) || op.Drop?)
    ensures Rises(f, Step(f, op).0)
  {
    hide PollReserve, Flow.Commit, Flow.Release, DataReceived, OnConsumed;
  }

  lemma SenderRises(f: FlowState, op: Op)
    requires op.Poll? || op.Commit? || op.Release? || op.StopSend? || op.PeerMaxStreamData?
    ensures Rises(f, Step(f, op).0)
  {
    match op
    case Poll(id, want) => PutRises(f, id, PollReserve(f.g, f.At(id), want).0);
    case Commit(id, n) => PutRises(f, id, Flow.Commit(f.g, f.At(id), n));
    case Release(id, n) => PutRises(f, id, Flow.Release(f.g, f.At(id), n));
    case StopSend(id) => PutRises(f, id, Account(f.g, FailSend(f.At(id))));
    case PeerMaxStreamData(id, v) => PutRises(f, id, Account(f.g, RaiseStreamMax(f.At(id), v)));
  }

  lemma ReceiveRises(f: FlowState, id: nat, n: nat)
    ensures Rises(f, Step(f, Receive(id, n)).0)
  {
    var r := DataReceived(f.g, f.At(id), n);
    if r.Ok? { PutRises(f, id, r.value); }
  }

  lemma ConsumeRises(f: FlowState, id: nat, n: nat)
    requires CountersOk(f) && Allowed(f, Consume(id, n))
    ensures Rises(f, Step(f, Consume(id, n)).0)
  {
    ConsumeKeeps(f.lim, f.g, f.At(id), n);
    var u := OnConsumed(f.lim, f.g, f.At(id), n);
    PutRises(f, id, Account(u.g, u.c));
  }

  /** A commit or release that comes after the stream was dropped moves no counter, so no
      credit is returned twice. */
  lemma LateReturnIsNothing(f: FlowState, id: nat, n: nat, m: nat)
    requires Inv(f)
    ensures var d := Step(f, Drop(id)).0;
            && Step(d, Release(id, n)).0.g == d.g
            && Step(d, Commit(id, m)).0.g == d.g
            && (id in f.streams ==> d.g.reserved == f.g.reserved - f.streams[id].send.reserved)
  {
  }

  /** A commit leaves everyone's credit as it was: no one needs waking. */
  lemma CommitFreesNothing(f: FlowState, id: nat, n: nat, other: nat, want: nat)
    requires Inv(f) && Allowed(f, Commit(id, n))
    ensures var f' := Step(f, Commit(id, n)).0;
            PollReserve(f'.g, f'.At(other), want).1 == PollReserve(f.g, f.At(other), want).1
  {
  }

  /** From `f` to `f'` only stream `id`'s account changed, to `a`, and `ctl` was announced. */
  ghost predicate Touches(f: FlowState, f': FlowState, id: nat, a: Account, ctl: seq<Control>) {
    && f'.g == a.g && f'.At(id) == a.c && f'.adverts == f.adverts + ctl && f'.hello == f.hello && f'.lim == f.lim
    && forall j :: j != id ==> f'.At(j) == f.At(j)
  }

  lemma Untouched(f: FlowState, id: nat)
    ensures Touches(f, f, id, Account(f.g, f.At(id)), [])
  {
  }

  lemma Touched(f: FlowState, f': FlowState, id: nat, a: Account, ctl: seq<Control>)
    requires Touches(f, f', id, a, ctl)
    ensures f'.g == a.g && f'.At(id) == a.c && f'.lim == f.lim
  {
  }

  lemma TouchTwice(f: FlowState, m: FlowState, f': FlowState, id: nat, a: Account, ctl: seq<Control>, b: Account, more: seq<Control>)
    requires Touches(f, m, id, a, ctl) && Touches(m, f', id, b, more)
    ensures Touches(f, f', id, b, ctl + more)
  {
    assert f.adverts + ctl + more == f.adverts + (ctl + more);
  }

  lemma SendEffects(f: FlowState, id: nat, n: nat)
    ensures Touches(f, Step(f, Commit(id, n)).0, id, Flow.Commit(f.g, f.At(id), n), [])
    ensures Touches(f, Step(f, Release(id, n)).0, id, Flow.Release(f.g, f.At(id), n), [])
    ensures Touches(f, Step(f, StopSend(id)).0, id, Account(f.g, FailSend(f.At(id))), [])
    ensures Touches(f, Step(f, PeerMaxStreamData(id, n)).0, id, Account(f.g, RaiseStreamMax(f.At(id), n)), [])
  {
  }

  lemma PollEffects(f: FlowState, id: nat, want: nat)
    ensures var (a, r) := PollReserve(f.g, f.At(id), want);
            && Touches(f, Step(f, Poll(id, want)).0, id, if r.Granted? then a else Account(f.g, f.At(id)), [])
            && Step(f, Poll(id, want)).1 == Polled(r)
  {
  }

  lemma ReceiveEffects(f: FlowState, id: nat, n: nat)
    ensures var r := DataReceived(f.g, f.At(id), n);
            && Step(f, Receive(id, n)).1 == Accepted(r.Ok?)
            && (if r.Ok? then Touches(f, Step(f, Receive(id, n)).0, id, r.value, []) else Step(f, Receive(id, n)).0 == f)
    ensures Touches(f, Step(f, Cancel(id)).0, id, Account(f.g, MarkCancelled(f.At(id))), [])
  {
  }

  lemma ConsumeEffects(f: FlowState, id: nat, n: nat)
    ensures var u := OnConsumed(f.lim, f.g, f.At(id), n);
            && Step(f, Consume(id, n)).1 == Advert(u.streamAdvert)
            && Touches(f, Step(f, Consume(id, n)).0, id, Account(u.g, u.c),
                       if u.connAdvert.Some? then [MaxData(u.connAdvert.value)] else [])
  {
  }

  lemma RetireEffects(f: FlowState, id: nat)
    ensures Touches(f, Step(f, Drop(id)).0, id, Account(DropStream(f.g, f.At(id)), None), [])
    ensures var g := PeerStreamRetired(f.lim, f.g);
            Touches(f, Step(f, PeerRetired).0, id, Account(g, f.At(id)), [MaxStreams(Limit(g.advertisedMaxStreams))])
  {
  }

  /** The engine as the connection's callers use it. */
  class ConnFlow {
    const lim: Limits

    var isFailed: bool
    var peerInitStreamData: int
    var peerMaxData: int
    var peerMaxStreams: int
    var connSent: int
    var connReserved: int
    var streamsOpened: int
    var streamsReserved: int

    var localMaxData: int
    var connReceived: int
    var connConsumed: int
    var connAdvertisedAt: int
    var peerOpenedStreams: int
    var peerRetiredStreams: int
    var advertisedMaxStreams: int

    var streams: map<nat, StreamCredit>
    var nextId: nat
    var wakers: seq<Waiter>
    var slotWaiters: nat
    var adverts: seq<Control>
    ghost var hello: bool

    ghost function Ledger(): Flow.Ledger
      reads this
    {
      Flow.Ledger(isFailed, peerInitStreamData, peerMaxData, peerMaxStreams,
                  connSent, connReserved, streamsOpened, streamsReserved,
                  localMaxData, connReceived, connConsumed, connAdvertisedAt,
                  peerOpenedStreams, peerRetiredStreams, advertisedMaxStreams)
    }

    ghost function Value(): FlowState
      reads this
    {
      FlowState(lim, Ledger(), streams, nextId, wakers, slotWaiters, adverts, hello)
    }

    constructor (lim: Limits)
      requires LimitsOk(lim)
      ensures Value() == Init(lim)
    {
      this.lim := lim;
      isFailed := false;
      peerInitStreamData, peerMaxData, peerMaxStreams := 0, 0, 0;
      connSent, connReserved, streamsOpened, streamsReserved := 0, 0, 0, 0;
      localMaxData := lim.maxData;
      connReceived, connConsumed, connAdvertisedAt := 0, 0, 0;
      peerOpenedStreams, peerRetiredStreams := 0, 0;
      advertisedMaxStreams := lim.maxStreams;
      streams, nextId, wakers, slotWaiters, adverts := map[], 0, [], 0, [];
      hello := false;
    }

    method WakeLocked()
      modifies this`wakers, this`slotWaiters
      ensures Value() == old(Value()).Woken()
    {
      wakers, slotWaiters := [], 0;
    }

    method FailAll()
      modifies this
      ensures Value() == Step(old(Value()), Fail).0
    {
      if !isFailed {
        isFailed := true;
        WakeLocked();
      }
    }

    method OnPeerHello(l: Limits)
      requires Allowed(Value(), PeerHello(l))
      modifies this
      ensures Value() == Step(old(Value()), PeerHello(l)).0
    {
      peerInitStreamData := l.maxStreamData;
      peerMaxData := l.maxData;
      peerMaxStreams := l.maxStreams;
      hello := true;
      WakeLocked();
    }

    method OnPeerMaxData(v: nat)
      requires Allowed(Value(), PeerMaxData(v))
      modifies this
      ensures Value() == Step(old(Value()), PeerMaxData(v)).0
    {
      if v > peerMaxData {
        peerMaxData := v;
        WakeLocked();
      }
    }

    method OnPeerMaxStreams(v: nat)
      requires Allowed(Value(), PeerMaxStreams(v))
      modifies this
      ensures Value() == Step(old(Value()), PeerMaxStreams(v)).0
    {
      if v > peerMaxStreams {
        peerMaxStreams := v;
        WakeLocked();
      }
    }

    method NewStreamId() returns (id: nat)
      modifies this
      ensures (Value(), NewId(id)) == Step(old(Value()), NewStream)
    {
      nextId := nextId + 1;
      id := nextId;
      streams := streams[id := NewCredit(lim)];
    }

    method DropStreamState(id: nat)
      modifies this
      ensures Value() == Step(old(Value()), Drop(id)).0
    {
      if id in streams {
        connReserved := connReserved - streams[id].send.reserved;
        streams := streams - {id};
        WakeLocked();
      } else {
        assert streams - {id} == streams;
      }
    }

    method PollReserve(id: nat, want: nat) returns (r: Grant)
      modifies this
      ensures (Value(), Polled(r)) == Step(old(Value()), Poll(id, want))
    {
      if isFailed {
        return Refused;
      }
      var connAvail := peerMaxData - connSent - connReserved;
      if id !in streams {
        return Refused;
      }
      var s := streams[id];
      if s.send.failed {
        return Refused;
      }
      var peerMax := Max(s.send.explicitMax, peerInitStreamData);
      var streamAvail := peerMax - s.send.sent - s.send.reserved;
      var grant := Min(Min(streamAvail, connAvail), want);
      if grant >= 1 {
        streams := streams[id := s.(send := s.send.(reserved := s.send.reserved + grant))];
        connReserved := connReserved + grant;
        return Granted(grant);
      }
      wakers := wakers + [Waiter(id, want)];
      return Parked;
    }

    method CommitBytes(id: nat, n: nat)
      requires Allowed(Value(), Commit(id, n))
      modifies this
      ensures Value() == Step(old(Value()), Commit(id, n)).0
    {
      if id in streams {
        var s := streams[id];
        streams := streams[id := s.(send := s.send.(reserved := s.send.reserved - n, sent := s.send.sent + n))];
        connReserved := connReserved - n;
        connSent := connSent + n;
      }
    }

    method ReleaseBytes(id: nat, n: nat)
      requires Allowed(Value(), Release(id, n))
      modifies this
      ensures Value() == Step(old(Value()), Release(id, n)).0
    {
      if id in streams {
        var s := streams[id];
        streams := streams[id := s.(send := s.send.(reserved := s.send.reserved - n))];
        connReserved := connReserved - n;
      }
      WakeLocked();
    }

    method FailSending(id: nat)
      modifies this
      ensures Value() == Step(old(Value()), StopSend(id)).0
    {
      if id in streams {
        var s := streams[id];
        if !s.send.failed {
          streams := streams[id := s.(send := s.send.(failed := true))];
          WakeLocked();
        } else {
          assert streams[id := s] == streams;
        }
      }
    }

    method OnPeerMaxStreamData(id: nat, v: nat)
      requires Allowed(Value(), PeerMaxStreamData(id, v))
      modifies this
      ensures Value() == Step(old(Value()), PeerMaxStreamData(id, v)).0
    {
      if id in streams {
        var s := streams[id];
        if v > s.send.explicitMax {
          streams := streams[id := s.(send := s.send.(explicitMax := v))];
          WakeLocked();
        } else {
          assert streams[id := s] == streams;
        }
      }
    }

    /** One turn of the slot reservation loop. */
    method PollStreamSlot() returns (r: Grant)
      modifies this
      ensures (Value(), Polled(r)) == Step(old(Value()), PollSlot)
    {
      if isFailed {
        return Refused;
      }
      if streamsOpened + streamsReserved < peerMaxStreams {
        streamsReserved := streamsReserved + 1;
        return Granted(1);
      }
      slotWaiters := slotWaiters + 1;
      return Parked;
    }

    method CommitStreamSlot()
      requires Allowed(Value(), CommitSlot)
      modifies this
      ensures Value() == Step(old(Value()), CommitSlot).0
    {
      streamsReserved := streamsReserved - 1;
      streamsOpened := streamsOpened + 1;
    }

    method ReleaseStreamSlot()
      requires Allowed(Value(), ReleaseSlot)
      modifies this
      ensures Value() == Step(old(Value()), ReleaseSlot).0
    {
      streamsReserved := streamsReserved - 1;
      WakeLocked();
    }

    method OnDataReceived(id: nat, n: nat) returns (ok: bool)
      modifies this
      ensures (Value(), Accepted(ok)) == Step(old(Value()), Receive(id, n))
    {
      if id !in streams {
        return true;
      }
      var s := streams[id];
      if s.recv.received + n > s.recv.localMax {
        return false;
      }
      if connReceived + n > localMaxData {
        return false;
      }
      streams := streams[id := s.(recv := s.recv.(received := s.recv.received + n))];
      connReceived := connReceived + n;
      return true;
    }

    method OnConsumed(id: nat, n: nat) returns (adv: Option<nat>)
      requires Allowed(Value(), Consume(id, n))
      modifies this
      ensures (Value(), Advert(adv)) == Step(old(Value()), Consume(id, n))
    {
      adv := None;
      if id in streams {
        var s := streams[id];
        var r := s.recv.(consumed := s.recv.consumed + n);
        if !r.cancelled && r.consumed - r.advertisedAt >= lim.maxStreamData / 2 {
          r := r.(advertisedAt := r.consumed, localMax := Sat(r.consumed + lim.maxStreamData));
          adv := Some(Limit(r.localMax));
        }
        streams := streams[id := s.(recv := r)];
      }
      AdvertiseConn(n);
    }

    /** The connection half of a consumption. */
    method AdvertiseConn(n: nat)
      modifies this`connConsumed, this`connAdvertisedAt, this`localMaxData, this`adverts
      ensures Ledger() == ConsumeConn(lim.maxData, old(Ledger()), n).0
      ensures adverts == old(adverts) +
              if ConsumeConn(lim.maxData, old(Ledger()), n).1 then [MaxData(Limit(localMaxData))] else []
    {
      connConsumed := connConsumed + n;
      if connConsumed - connAdvertisedAt >= lim.maxData / 2 {
        connAdvertisedAt := connConsumed;
        localMaxData := Sat(connConsumed + lim.maxData);
        adverts := adverts + [MaxData(Limit(localMaxData))];
      }
    }

    method MarkStreamCancelled(id: nat)
      modifies this
      ensures Value() == Step(old(Value()), Cancel(id)).0
    {
      if id in streams {
        var s := streams[id];
        streams := streams[id := s.(recv := s.recv.(cancelled := true))];
      }
    }

    method PeerStreamWasOpened() returns (ok: bool)
      modifies this
      ensures (Value(), Accepted(ok)) == Step(old(Value()), PeerOpened)
    {
      if peerOpenedStreams >= advertisedMaxStreams {
        return false;
      }
      peerOpenedStreams := peerOpenedStreams + 1;
      return true;
    }

    method PeerStreamHasRetired()
      requires Allowed(Value(), PeerRetired)
      modifies this
      ensures Value() == Step(old(Value()), PeerRetired).0
    {
      peerRetiredStreams := peerRetiredStreams + 1;
      advertisedMaxStreams := Sat(lim.maxStreams + peerRetiredStreams);
      adverts := adverts + [MaxStreams(Limit(advertisedMaxStreams))];
    }
  }
}
