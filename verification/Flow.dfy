/** Credit accounting: the arithmetic of one connection and one stream.

    Offsets are mathematical integers here; `LedgerOk`, `SendOk` and `RecvOk` keep every
    counter between 0 and MAX_OFFSET, so the 64-bit sums never wrap and the unsigned
    differences never go below zero. */
module Flow {
  import opened Basics
  import opened Wire

  datatype SendCredit = SendCredit(sent: int, reserved: int, explicitMax: int, failed: bool)

  datatype RecvCredit = RecvCredit(localMax: int, received: int, consumed: int, advertisedAt: int, cancelled: bool)

  datatype StreamCredit = StreamCredit(send: SendCredit, recv: RecvCredit)

  /** The connection-level counters. */
  datatype Ledger = Ledger(
    failed: bool,
    peerInit: int, peerMaxData: int, peerMaxStreams: int,
    sent: int, reserved: int, streamsOpened: int, streamsReserved: int,
    localMaxData: int, received: int, consumed: int, advertisedAt: int,
    peerOpened: int, peerRetired: int, advertisedMaxStreams: int)

  function Sat(v: int): int { Min(v, MAX_OFFSET) }

  function NewLedger(lim: Limits): Ledger {
    Ledger(false, 0, 0, 0, 0, 0, 0, 0, lim.maxData, 0, 0, 0, 0, 0, lim.maxStreams)
  }

  function NewCredit(lim: Limits): StreamCredit {
    StreamCredit(SendCredit(0, 0, 0, false), RecvCredit(lim.maxStreamData, 0, 0, 0, false))
  }

  // ---- invariants of the counters ----

  ghost predicate LedgerOk(lim: Limits, g: Ledger) {
    && 0 <= g.peerInit <= MAX_OFFSET
    && 0 <= g.sent && 0 <= g.reserved && g.sent + g.reserved <= g.peerMaxData <= MAX_OFFSET
    && 0 <= g.streamsOpened && 0 <= g.streamsReserved && g.streamsOpened + g.streamsReserved <= g.peerMaxStreams <= MAX_OFFSET
    && 0 <= g.advertisedAt <= g.consumed <= g.received <= g.localMaxData
    && g.localMaxData == Sat(g.advertisedAt + lim.maxData)
    && (g.consumed == g.advertisedAt || g.consumed - g.advertisedAt < lim.maxData / 2)
    && 0 <= g.peerRetired <= g.peerOpened <= g.advertisedMaxStreams
    && g.advertisedMaxStreams == Sat(lim.maxStreams + g.peerRetired)
  }

  ghost predicate SendOk(peerInit: int, s: SendCredit) {
    && 0 <= s.sent && 0 <= s.reserved && 0 <= s.explicitMax <= MAX_OFFSET
    && s.sent + s.reserved <= PeerMax(peerInit, s)
  }

  ghost predicate RecvOk(window: nat, r: RecvCredit) {
    && 0 <= r.advertisedAt <= r.consumed <= r.received <= r.localMax
    && r.localMax == Sat(r.advertisedAt + window)
    && (!r.cancelled ==> r.consumed == r.advertisedAt || r.consumed - r.advertisedAt < window / 2)
  }

  // ---- sender: byte credit ----

  /** Explicit updates never lower the window below the HELLO initial. */
  function PeerMax(peerInit: int, s: SendCredit): int { Max(s.explicitMax, peerInit) }

  function StreamAvail(g: Ledger, c: StreamCredit): int {
    PeerMax(g.peerInit, c.send) - c.send.sent - c.send.reserved
  }

  function ConnAvail(g: Ledger): int { g.peerMaxData - g.sent - g.reserved }

  datatype Grant = Refused | Granted(n: nat) | Parked

  datatype Account = Account(g: Ledger, c: Option<StreamCredit>)

  function GrantSize(g: Ledger, c: StreamCredit, want: nat): int {
    Min(Min(StreamAvail(g, c), ConnAvail(g)), want)
  }

  function PollReserve(g: Ledger, c: Option<StreamCredit>, want: nat): (Account, Grant) {
    if g.failed || c.None? || c.value.send.failed then (Account(g, c), Refused)
    else
      var n := GrantSize(g, c.value, want);
      if n >= 1 then (Reserve(g, c.value, n), Granted(n)) else (Account(g, c), Parked)
  }

  function Reserve(g: Ledger, c: StreamCredit, n: int): Account {
    Account(g.(reserved := g.reserved + n), Some(c.(send := c.send.(reserved := c.send.reserved + n))))
  }

  /** Bytes handed to the transport; nothing once the stream's state is gone. */
  function Commit(g: Ledger, c: Option<StreamCredit>, n: int): Account {
    match c
    case None => Account(g, None)
    case Some(s) =>
      Account(g.(reserved := g.reserved - n, sent := g.sent + n),
              Some(s.(send := s.send.(reserved := s.send.reserved - n, sent := s.send.sent + n))))
  }

  function Release(g: Ledger, c: Option<StreamCredit>, n: int): Account {
    match c
    case None => Account(g, None)
    case Some(s) =>
      Account(g.(reserved := g.reserved - n),
              Some(s.(send := s.send.(reserved := s.send.reserved - n))))
  }

  function FailSend(c: Option<StreamCredit>): Option<StreamCredit> {
    match c
    case None => None
    case Some(s) => Some(s.(send := s.send.(failed := true)))
  }

  /** Decreases are ignored. */
  function RaiseStreamMax(c: Option<StreamCredit>, v: nat): Option<StreamCredit> {
    match c
    case None => None
    case Some(s) => if v > s.send.explicitMax then Some(s.(send := s.send.(explicitMax := v))) else c
  }

  /** Unsent reservations die with the stream. */
  function DropStream(g: Ledger, c: Option<StreamCredit>): Ledger {
    match c
    case None => g
    case Some(s) => g.(reserved := g.reserved - s.send.reserved)
  }

  // ---- receiver: byte credit ----

  /** Both windows are checked before either counter moves. */
  function DataReceived(g: Ledger, c: Option<StreamCredit>, n: nat): Result<Account> {
    match c
    case None => Ok(Account(g, None))
    case Some(s) =>
      if s.recv.received + n > s.recv.localMax then Err("peer exceeded MAX_STREAM_DATA")
      else if g.received + n > g.localMaxData then Err("peer exceeded MAX_DATA")
      else Ok(Account(g.(received := g.received + n),
                      Some(s.(recv := s.recv.(received := s.recv.received + n)))))
  }

  /** Bytes are taken exactly if they fit both windows, and then both counters move by them; those of a
      stream no longer known are taken and counted nowhere. */
  lemma ReceivedExactly(g: Ledger, c: Option<StreamCredit>, n: nat)
    ensures var r := DataReceived(g, c, n);
            && (r.Ok? <==> c.Some? ==> c.value.recv.received + n <= c.value.recv.localMax && g.received + n <= g.localMaxData)
            && (r.Ok? ==> r.value.g == (if c.Some? then g.(received := g.received + n) else g) && r.value.c.Some? == c.Some?)
            && (r.Ok? && c.Some? ==> r.value.c.value == c.value.(recv := c.value.recv.(received := c.value.recv.received + n)))
  {
  }

  datatype Consumption = Consumption(g: Ledger, c: Option<StreamCredit>, streamAdvert: Option<nat>, connAdvert: Option<nat>)

  function ConsumeStream(window: nat, r: RecvCredit, n: int): (RecvCredit, bool) {
    var u := r.(consumed := r.consumed + n);
    if !u.cancelled && u.consumed - u.advertisedAt >= window / 2
    then (u.(advertisedAt := u.consumed, localMax := Sat(u.consumed + window)), true)
    else (u, false)
  }

  function ConsumeConn(window: nat, g: Ledger, n: int): (Ledger, bool) {
    var u := g.(consumed := g.consumed + n);
    if u.consumed - u.advertisedAt >= window / 2
    then (u.(advertisedAt := u.consumed, localMaxData := Sat(u.consumed + window)), true)
    else (u, false)
  }

  function Limit(v: int): nat { Max(v, 0) }

  /** Consumed bytes come back as replacement credit past half a window. */
  function OnConsumed(lim: Limits, g: Ledger, c: Option<StreamCredit>, n: nat): Consumption {
    var (g', connDue) := ConsumeConn(lim.maxData, g, n);
    var connAdvert := if connDue then Some(Limit(g'.localMaxData)) else None;
    match c
    case None => Consumption(g', None, None, connAdvert)
    case Some(s) =>
      var (r, due) := ConsumeStream(lim.maxStreamData, s.recv, n);
      Consumption(g', Some(s.(recv := r)), if due then Some(Limit(r.localMax)) else None, connAdvert)
  }

  function MarkCancelled(c: Option<StreamCredit>): Option<StreamCredit> {
    match c
    case None => None
    case Some(s) => Some(s.(recv := s.recv.(cancelled := true)))
  }

  // ---- stream slots ----

  function SlotFree(g: Ledger): bool { g.streamsOpened + g.streamsReserved < g.peerMaxStreams }

  function ReserveSlot(g: Ledger): (Ledger, Grant) {
    if g.failed then (g, Refused)
    else if SlotFree(g) then (g.(streamsReserved := g.streamsReserved + 1), Granted(1))
    else (g, Parked)
  }

  function CommitSlot(g: Ledger): Ledger { g.(streamsReserved := g.streamsReserved - 1, streamsOpened := g.streamsOpened + 1) }

  function ReleaseSlot(g: Ledger): Ledger { g.(streamsReserved := g.streamsReserved - 1) }

  function PeerStreamOpened(g: Ledger): Result<Ledger> {
    if g.peerOpened >= g.advertisedMaxStreams then Err("peer exceeded MAX_STREAMS")
    else Ok(g.(peerOpened := g.peerOpened + 1))
  }

  function PeerStreamRetired(lim: Limits, g: Ledger): Ledger {
    g.(peerRetired := g.peerRetired + 1, advertisedMaxStreams := Sat(lim.maxStreams + g.peerRetired + 1))
  }

  // ---- peer limits ----

  /** The HELLO overwrites every send-side limit. */
  function OnHello(g: Ledger, l: Limits): Ledger {
    g.(peerInit := l.maxStreamData, peerMaxData := l.maxData, peerMaxStreams := l.maxStreams)
  }

  function RaiseMaxData(g: Ledger, v: nat): Ledger {
    if v > g.peerMaxData then g.(peerMaxData := v) else g
  }

  function RaiseMaxStreams(g: Ledger, v: nat): Ledger {
    if v > g.peerMaxStreams then g.(peerMaxStreams := v) else g
  }

  // ---- what the operations keep and mean ----

  /** A reservation parks exactly when there is no credit, or when nothing was asked for:
      an empty write is never answered, however much credit there is. */
  lemma ParkedExactly(g: Ledger, c: Option<StreamCredit>, want: nat)
    ensures PollReserve(g, c, want).1.Parked? <==>
      !g.failed && c.Some? && !c.value.send.failed &&
      (want == 0 || StreamAvail(g, c.value) <= 0 || ConnAvail(g) <= 0)
  {
    if c.Some? && !g.failed && !c.value.send.failed {
      assert PollReserve(g, c, want).1.Parked? <==> GrantSize(g, c.value, want) < 1;
    }
  }

  /** Asking for nothing is never answered with a grant: it waits, or is refused once the stream or
      the connection has failed. */
  lemma NothingIsNeverGranted(g: Ledger, c: Option<StreamCredit>)
    ensures PollReserve(g, c, 0).1 == if g.failed || c.None? || c.value.send.failed then Refused else Parked
  {
    if !g.failed && c.Some? && !c.value.send.failed { ParkedExactly(g, c, 0); }
  }

  /** A grant is all that was asked for, or it uses up the stream's window or the connection's; it is
      refused exactly after a failure. */
  lemma GrantIsWhole(g: Ledger, c: Option<StreamCredit>, want: nat)
    ensures var (a, r) := PollReserve(g, c, want);
            && (r.Refused? <==> g.failed || c.None? || c.value.send.failed)
            && (r.Granted? ==> a.c.Some? && (r.n == want || StreamAvail(a.g, a.c.value) == 0 || ConnAvail(a.g) == 0))
            && (!r.Granted? ==> a == Account(g, c))
  {
  }

  /** A grant never promises more than the peer's windows hold, at either level. */
  lemma GrantFits(lim: Limits, g: Ledger, c: StreamCredit, want: nat)
    requires LedgerOk(lim, g) && SendOk(g.peerInit, c.send)
    requires PollReserve(g, Some(c), want).1.Granted?
    ensures var (a, r) := PollReserve(g, Some(c), want);
            && 1 <= r.n <= want && LedgerOk(lim, a.g) && a.c.Some? && SendOk(g.peerInit, a.c.value.send)
            && a.c.value.recv == c.recv
            && a.g.reserved - g.reserved == r.n == a.c.value.send.reserved - c.send.reserved
  {
  }

  /** A request for a slot is refused exactly after a failure, so it cannot hang past it; it waits
      exactly while the slots opened and reserved use up the peer's limit; and it takes one slot. */
  lemma SlotParkedExactly(g: Ledger)
    ensures var (h, r) := ReserveSlot(g);
            && (r.Refused? <==> g.failed)
            && (r.Parked? <==> !g.failed && g.streamsOpened + g.streamsReserved >= g.peerMaxStreams)
            && h == if r.Granted? then g.(streamsReserved := g.streamsReserved + 1) else g
  {
  }

  /** Consuming keeps both receive windows in order. */
  lemma ConsumeKeeps(lim: Limits, g: Ledger, c: Option<StreamCredit>, n: nat)
    requires LimitsOk(lim) && LedgerOk(lim, g) && n <= g.received - g.consumed
    requires c.Some? ==> RecvOk(lim.maxStreamData, c.value.recv) && n <= c.value.recv.received - c.value.recv.consumed
    ensures ConsumedConn(lim, g, n, OnConsumed(lim, g, c, n))
    ensures ConsumedStream(lim, c, n, OnConsumed(lim, g, c, n))
  {
  }

  /** The connection side of a consumption: only its own counters move, and an advertisement
      is due exactly when the enforcement limit moves. */
  ghost predicate ConsumedConn(lim: Limits, g: Ledger, n: nat, u: Consumption) {
    && LedgerOk(lim, u.g)
    && u.g == g.(consumed := g.consumed + n, advertisedAt := u.g.advertisedAt, localMaxData := u.g.localMaxData)
    && g.localMaxData <= u.g.localMaxData
    && u.g.localMaxData == Max(g.localMaxData, u.connAdvert.GetOr(0))
  }

  /** The stream side; a cancelled stream is granted nothing more. */
  ghost predicate ConsumedStream(lim: Limits, c: Option<StreamCredit>, n: nat, u: Consumption) {
    match c
    case None => u.c == None && u.streamAdvert == None
    case Some(s) =>
      && u.c.Some? && u.c.value.send == s.send
      && var r := u.c.value.recv;
      && RecvOk(lim.maxStreamData, r)
      && r == s.recv.(consumed := s.recv.consumed + n, advertisedAt := r.advertisedAt, localMax := r.localMax)
      && s.recv.localMax <= r.localMax
      && r.localMax == Max(s.recv.localMax, u.streamAdvert.GetOr(0))
      && (s.recv.cancelled ==> u.streamAdvert == None)
      && (u.streamAdvert.Some? ==> u.streamAdvert.value <= MAX_OFFSET)
  }

  /** Credit comes back in steps of at least half a window, never in trickles, and the step that
      reaches half a window is the one that advertises. */
  lemma AdvertsAreCoarse(lim: Limits, g: Ledger, c: Option<StreamCredit>, n: nat)
    requires LimitsOk(lim) && LedgerOk(lim, g) && n <= g.received - g.consumed
    requires c.Some? ==> RecvOk(lim.maxStreamData, c.value.recv)
    ensures var u := OnConsumed(lim, g, c, n);
            && (u.connAdvert.Some? <==> g.consumed + n >= g.advertisedAt + lim.maxData / 2)
            && (u.connAdvert.Some? ==> u.connAdvert.value >= Min(MAX_OFFSET, g.localMaxData + lim.maxData / 2))
    ensures c.Some? ==>
            var u, r := OnConsumed(lim, g, c, n), c.value.recv;
            && (u.streamAdvert.Some? <==> !r.cancelled && r.consumed + n >= r.advertisedAt + lim.maxStreamData / 2)
            && (u.streamAdvert.Some? ==> u.streamAdvert.value >= Min(MAX_OFFSET, r.localMax + lim.maxStreamData / 2))
  {
  }

  /** With everything consumed, more than half a window is open again. */
  lemma WindowReopens(window: nat, limit: int, consumed: int, advertisedAt: int)
    requires 0 <= advertisedAt <= consumed
    requires consumed == advertisedAt || consumed - advertisedAt < window / 2
    requires limit == Sat(advertisedAt + window) && advertisedAt + window <= MAX_OFFSET
    ensures window >= 1 ==> limit - consumed >= 1
    ensures window >= 2 ==> limit - consumed > window - window / 2
  {
  }
}
