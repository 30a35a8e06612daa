/** Every step of one stream end keeps its invariant and moves the ledger by what it moves. */
module StreamSteps {
  import opened Basics
  import opened Wire
  import opened Trace
  import opened Flow
  import opened Streams
  import opened StreamInv

  lemma RecvDataKeeps(lim: Limits, g: Ledger, s: Stream, p: seq<byte>)
    requires Pre(lim, g, s) && s.rx.handler == Idle && FrameOk(Data(p))
    ensures Good(lim, g, s, RecvData(g, s, p))
  {
    hide Trace.Bytes, Trace.End, Trace.Legal, Trace.Announced, Flatten, QueuedBytes, QueuedGrants;
    Empties();
    Append(s.rx.log, Data(p));
  }

  lemma RecvFinKeeps(lim: Limits, g: Ledger, s: Stream)
    requires Pre(lim, g, s) && s.rx.handler == Idle
    ensures Good(lim, g, s, RecvFin(g, s))
  {
    hide Trace.Bytes, Trace.End, Trace.Legal, Trace.Announced, Flatten, QueuedBytes, QueuedGrants;
    Empties();
    Append(s.rx.log, Fin);
  }

  lemma RecvResetKeeps(lim: Limits, g: Ledger, s: Stream, c: nat)
    requires Pre(lim, g, s) && s.rx.handler == Idle && c < U32_LIMIT
    ensures Good(lim, g, s, RecvReset(g, s, c))
  {
    hide Trace.Bytes, Trace.End, Trace.Legal, Trace.Announced, Flatten, QueuedBytes, QueuedGrants;
    Empties();
    Append(s.rx.log, Reset(c));
  }

  lemma RecvStopKeeps(lim: Limits, g: Ledger, s: Stream, c: nat)
    requires Pre(lim, g, s) && s.rx.handler == Idle && c < U32_LIMIT
    ensures Good(lim, g, s, RecvStop(g, s, c))
  {
    hide Trace.Bytes, Trace.End, Trace.Legal, Trace.Announced, Flatten, QueuedBytes, QueuedGrants;
    TakeRx(s.rx, StopSending(c));
    StopNoted(s.tx, s.app, c);
    if s.tx.stop.None? { StoppingRx(s.rx.(log := s.rx.log + [StopSending(c)])); }
    StopCounts(lim, g, s, c);
    hide LedgerOk, CreditInv, Moves, TxInv, RxInv;
  }

  lemma StopCounts(lim: Limits, g: Ledger, s: Stream, c: nat)
    requires Pre(lim, g, s) && s.rx.handler == Idle && c < U32_LIMIT
    ensures var o := RecvStop(g, s, c); CreditInv(lim, g.peerInit, o.s) && Moves(g, s, o.g, o.s)
  {
    hide Trace.Bytes, Trace.End, Trace.Legal, Trace.Announced, Flatten, QueuedBytes, QueuedGrants;
    TakeRx(s.rx, StopSending(c));
    StopLeaves(g, s, c);
    hide LedgerOk, RecvOk, SendOk, TxInv, RxInv, LifeInv, RecvStop;
  }

  /** What the first half of the STOP_SENDING handler leaves as it was. */
  lemma StopLeaves(g: Ledger, s: Stream, c: nat)
    requires s.rx.handler == Idle
    ensures var o := RecvStop(g, s, c);
            && o.Next? && o.g == g && o.s.credit == s.credit && o.s.inbound == s.inbound && o.s.life == s.life && o.s.app == s.app
            && o.s.tx == s.tx.(stop := o.s.tx.stop, terminal := o.s.tx.terminal, drop := o.s.tx.drop, resetDue := o.s.tx.resetDue)
            && o.s.rx == s.rx.(handler := o.s.rx.handler, log := s.rx.log + [StopSending(c)]) && HandlerHand(o.s.rx.handler) == 0
  {
  }

  lemma StoppingRx(r: Rx)
    requires RxInv(r) && r.handler == Idle
    ensures RxInv(r.(handler := Stopping))
  {
    hide Trace.Bytes, Trace.End, Trace.Legal, Flatten;
  }

  lemma StopDoneKeeps(lim: Limits, g: Ledger, s: Stream)
    requires Pre(lim, g, s) && s.rx.handler.Stopping?
    ensures Good(lim, g, s, StopDone(g, s))
  {
    hide Trace.Bytes, Trace.End, Trace.Legal, Trace.Announced, Flatten, QueuedBytes, QueuedGrants;
    if s.tx.resetDue.Some? { QueueResetTx(s.tx, s.app); }
    StoppedRx(s.rx);
    hide LedgerOk, RecvOk, SendOk, TxInv, RxInv;
  }

  lemma StoppedRx(r: Rx)
    requires RxInv(r) && r.handler.Stopping?
    ensures RxInv(r.(handler := Idle))
  {
    hide Trace.Bytes, Trace.End, Trace.Legal, Flatten;
  }

  /** A frame about the other direction changes nothing in this one. */
  lemma TakeRx(r: Rx, f: Frame)
    requires RxInv(r) && FrameOk(f) && (f.StopSending? || f.MaxStreamData?)
    ensures RxInv(r.(log := r.log + [f]))
    ensures Trace.Bytes(r.log + [f]) == Trace.Bytes(r.log) && Trace.End(r.log + [f]) == Trace.End(r.log)
    ensures Trace.Announced(r.log + [f]) == Max(Trace.Announced(r.log), LimitOf(f))
  {
    hide Trace.Bytes, Trace.End, Trace.Legal, Trace.Announced, Flatten, QueuedBytes, QueuedGrants;
    Append(r.log, f);
    assert Trace.Bytes(r.log) + [] == Trace.Bytes(r.log);
  }

  /** Choosing RESET makes queued DATA void. */
  lemma StopNoted(t: Tx, a: App, c: nat)
    requires TxInv(t, a) && c < U32_LIMIT
    ensures TxInv(t.(stop := Some(c)), a)
    ensures t.terminal == NotEnded ==>
      TxInv(t.(stop := Some(c), terminal := ByReset, drop := true, resetDue := Some(c)), a)
  {
    hide Trace.Bytes, Trace.End, Trace.Legal, Trace.Announced, Flatten, QueuedBytes, QueuedGrants;
    Empties();
  }

  /** The RESET that was chosen is queued ahead of them. */
  lemma QueueResetTx(t: Tx, a: App)
    requires TxInv(t, a) && t.resetDue.Some?
    ensures TxInv(t.(resetDue := None, lifeQ := t.lifeQ + [Reset(t.resetDue.value)]), a)
    ensures Announced(t.lifeQ + [Reset(t.resetDue.value)]) == Announced(t.lifeQ)
  {
    hide Trace.Bytes, Trace.End, Trace.Legal, Trace.Announced, Flatten, QueuedBytes, QueuedGrants;
    Append(t.lifeQ, Reset(t.resetDue.value));
  }

  lemma RecvLimitKeeps(lim: Limits, g: Ledger, s: Stream, v: nat)
    requires Pre(lim, g, s) && s.rx.handler == Idle && v <= MAX_OFFSET
    ensures Good(lim, g, s, RecvFrame(g, s, MaxStreamData(v)))
  {
    hide Trace.Bytes, Trace.End, Trace.Legal, Trace.Announced, Flatten, QueuedBytes, QueuedGrants;
    Empties();
    Append(s.rx.log, MaxStreamData(v));
  }

  lemma BufferKeeps(lim: Limits, g: Ledger, s: Stream)
    requires Pre(lim, g, s) && s.rx.handler.Buffering?
    ensures Good(lim, g, s, Buffer(g, s, s.rx.handler.payload))
  {
    hide Trace.Bytes, Trace.End, Trace.Legal, Trace.Announced, Flatten, QueuedBytes, QueuedGrants;
    Empties();
    FlattenPush(s.rx.inbuf, s.rx.handler.payload);
  }

  lemma DiscardKeeps(lim: Limits, g: Ledger, s: Stream)
    requires Pre(lim, g, s) && s.rx.handler.Discarding?
    ensures Good(lim, g, s, Discard(lim, g, s, s.rx.handler.n, s.rx.handler.retire))
  {
    hide Trace.Bytes, Trace.End, Trace.Legal, Trace.Announced, Flatten, QueuedBytes, QueuedGrants;
    hide OnConsumed, LedgerOk, TxInv, RxInv, CreditInv, Moves;
    IdleRx(s.rx);
    var u := OnConsumed(lim, g, s.credit, s.rx.handler.n);
    ConsumePre(lim, g, s, s.rx.handler.n);
    if u.streamAdvert.Some? { AdvertTx(s.tx, s.app, u.streamAdvert.value); }
    DiscardCounts(lim, g, s);
  }

  lemma DiscardCounts(lim: Limits, g: Ledger, s: Stream)
    requires Pre(lim, g, s) && s.rx.handler.Discarding?
    ensures var o := Discard(lim, g, s, s.rx.handler.n, s.rx.handler.retire);
            LedgerOk(lim, o.g) && CreditInv(lim, g.peerInit, o.s) && Moves(g, s, o.g, o.s)
  {
    hide Trace.Bytes, Trace.End, Trace.Legal, Trace.Announced, Flatten, QueuedBytes, QueuedGrants;
    hide OnConsumed, LedgerOk, RecvOk, SendOk, TxInv, RxInv, LifeInv, PeerMax;
    ConsumePre(lim, g, s, s.rx.handler.n);
    var u := OnConsumed(lim, g, s.credit, s.rx.handler.n);
    if u.streamAdvert.Some? { AdvertTx(s.tx, s.app, u.streamAdvert.value); }
  }

  lemma IdleRx(r: Rx)
    requires RxInv(r) && r.handler.Discarding?
    ensures RxInv(r.(handler := Idle))
  {
    hide Trace.Bytes, Trace.End, Trace.Legal, Flatten;
  }

  lemma ConsumePre(lim: Limits, g: Ledger, s: Stream, n: nat)
    requires Pre(lim, g, s) && n <= HandlerHand(s.rx.handler) + AppHand(s.app)
    ensures ConsumedConn(lim, g, n, OnConsumed(lim, g, s.credit, n))
    ensures ConsumedStream(lim, s.credit, n, OnConsumed(lim, g, s.credit, n))
  {
    hide Trace.Bytes, Trace.End, Trace.Legal, Trace.Announced, Flatten, QueuedBytes, QueuedGrants;
    Empties();
    ConsumeKeeps(lim, g, s.credit, n);
  }

  lemma AdvertTx(t: Tx, a: App, v: nat)
    requires TxInv(t, a) && v <= MAX_OFFSET
    ensures TxInv(t.(lifeQ := t.lifeQ + [MaxStreamData(v)]), a)
    ensures Announced(t.lifeQ + [MaxStreamData(v)]) == Max(Announced(t.lifeQ), v)
  {
    hide Trace.Bytes, Trace.End, Trace.Legal, Trace.Announced, Flatten, QueuedBytes, QueuedGrants;
    Empties();
    Append(t.lifeQ, MaxStreamData(v));
  }

  lemma StopTx(t: Tx, a: App, c: nat)
    requires TxInv(t, a) && c < U32_LIMIT
    ensures TxInv(t.(lifeQ := t.lifeQ + [StopSending(c)]), a)
    ensures Announced(t.lifeQ + [StopSending(c)]) == Announced(t.lifeQ)
  {
    hide Trace.Bytes, Trace.End, Trace.Legal, Trace.Announced, Flatten, QueuedBytes, QueuedGrants;
    Empties();
    Append(t.lifeQ, StopSending(c));
  }

  lemma ClosedKeeps(lim: Limits, g: Ledger, s: Stream)
    requires Pre(lim, g, s) && s.rx.handler == Idle && !s.life.closed
    ensures Good(lim, g, s, ChannelClosed(g, s))
  {
    hide Trace.Bytes, Trace.End, Trace.Legal, Trace.Announced, Flatten, QueuedBytes, QueuedGrants;
    Empties();
  }

  lemma ReadKeeps(lim: Limits, g: Ledger, s: Stream, room: nat)
    requires Pre(lim, g, s) && s.app == Quiet && s.rx.inbuf != []
    ensures Good(lim, g, s, Read(g, s, room))
  {
    hide Trace.Bytes, Trace.End, Trace.Legal, Trace.Announced, Flatten, QueuedBytes, QueuedGrants;
    Empties();
    hide LedgerOk, RxInv, RecvOk, SendOk;
    ReadRx(s.rx, room);
  }

  lemma ReadRx(r: Rx, room: nat)
    requires RxInv(r) && r.inbuf != []
    ensures RxInv(AfterRead(r, room))
    ensures |Flatten(AfterRead(r, room).inbuf)| + Min(|r.inbuf[0]|, room) == |Flatten(r.inbuf)|
  {
    ReadSplits(r, room);
    var n := Min(|r.inbuf[0]|, room);
    Regroup(r.read, r.inbuf[0], n, Flatten(r.inbuf[1..]), BufferingBytes(r.handler));
    ReadIsPrefix(r.read + r.inbuf[0][..n], Flatten(AfterRead(r, room).inbuf), BufferingBytes(r.handler));
    hide Trace.Bytes, Trace.End, Trace.Legal, Flatten;
    assert r.inbuf[0] in r.inbuf && forall c :: c in r.inbuf[1..] ==> c in r.inbuf;
  }

  /** What is left of the buffer is the rest of its first chunk and the other chunks. */
  lemma ReadSplits(r: Rx, room: nat)
    requires r.inbuf != []
    ensures var n := Min(|r.inbuf[0]|, room);
            && Flatten(r.inbuf) == r.inbuf[0] + Flatten(r.inbuf[1..])
            && Flatten(AfterRead(r, room).inbuf) == r.inbuf[0][n..] + Flatten(r.inbuf[1..])
  {
    var n := Min(|r.inbuf[0]|, room);
    FlattenCons(r.inbuf[0][n..], r.inbuf[1..]);
    hide Flatten;
    if n == |r.inbuf[0]| { assert r.inbuf[0][n..] + Flatten(r.inbuf[1..]) == Flatten(r.inbuf[1..]); }
  }

  lemma ReadIsPrefix(read: seq<byte>, rest: seq<byte>, last: seq<byte>)
    ensures read <= read + rest + last
  {
  }

  /** The bytes in order, before and after `n` of the first chunk are taken. */
  lemma Regroup(read: seq<byte>, chunk: seq<byte>, n: nat, rest: seq<byte>, last: seq<byte>)
    requires n <= |chunk|
    ensures read + (chunk + rest) + last == (read + chunk[..n]) + (chunk[n..] + rest) + last
    ensures n == |chunk| ==> chunk[n..] + rest == rest
  {
    assert chunk == chunk[..n] + chunk[n..];
  }

  lemma ConsumeStepKeeps(lim: Limits, g: Ledger, s: Stream)
    requires Pre(lim, g, s) && s.app.Consuming?
    ensures Good(lim, g, s, Consume(lim, g, s, s.app.n, s.app.stop))
  {
    hide Trace.Bytes, Trace.End, Trace.Legal, Trace.Announced, Flatten, QueuedBytes, QueuedGrants;
    hide OnConsumed, LedgerOk, TxInv, RxInv, CreditInv, Moves;
    var u := OnConsumed(lim, g, s.credit, s.app.n);
    ConsumePre(lim, g, s, s.app.n);
    QuietTx(s.tx, s.app);
    if u.streamAdvert.Some? { AdvertTx(s.tx, Quiet, u.streamAdvert.value); }
    if s.app.stop.Some? { StopTx(s.WithAdvert(u.streamAdvert).tx, Quiet, s.app.stop.value); }
    ConsumeCounts(lim, g, s);
  }

  lemma ConsumeCounts(lim: Limits, g: Ledger, s: Stream)
    requires Pre(lim, g, s) && s.app.Consuming?
    ensures var o := Consume(lim, g, s, s.app.n, s.app.stop);
            LedgerOk(lim, o.g) && CreditInv(lim, g.peerInit, o.s) && Moves(g, s, o.g, o.s)
  {
    hide Trace.Bytes, Trace.End, Trace.Legal, Trace.Announced, Flatten, QueuedBytes, QueuedGrants;
    hide OnConsumed, LedgerOk, RecvOk, SendOk, TxInv, RxInv, LifeInv, PeerMax;
    var u := OnConsumed(lim, g, s.credit, s.app.n);
    ConsumePre(lim, g, s, s.app.n);
    QuietTx(s.tx, s.app);
    if u.streamAdvert.Some? { AdvertTx(s.tx, Quiet, u.streamAdvert.value); }
    if s.app.stop.Some? { StopTx(s.WithAdvert(u.streamAdvert).tx, Quiet, s.app.stop.value); }
  }

  /** A read or cancel in progress says nothing about the write half. */
  lemma QuietTx(t: Tx, a: App)
    requires TxInv(t, a) && (a.Consuming? || a.Cancelling?)
    ensures TxInv(t, Quiet)
    ensures a.stop.Some? ==> a.stop.value < U32_LIMIT
  {
    hide Trace.Bytes, Trace.End, Trace.Legal, Trace.Announced, Flatten, QueuedBytes, QueuedGrants;
    Empties();
  }

  lemma CancelReadKeeps(lim: Limits, g: Ledger, s: Stream, c: nat)
    requires Pre(lim, g, s) && s.app == Quiet && !s.rx.cancel && c < U32_LIMIT
    ensures Good(lim, g, s, CancelRead(g, s, c))
  {
    hide Trace.Bytes, Trace.End, Trace.Legal, Trace.Announced, Flatten, QueuedBytes, QueuedGrants;
    Empties();
  }

  lemma CancelMarkKeeps(lim: Limits, g: Ledger, s: Stream)
    requires Pre(lim, g, s) && s.app.Cancelling?
    ensures Good(lim, g, s, CancelMark(g, s, s.app.n, s.app.stop))
  {
    hide Trace.Bytes, Trace.End, Trace.Legal, Trace.Announced, Flatten, QueuedBytes, QueuedGrants;
    Empties();
    hide LedgerOk, SendOk, TxInv, RxInv;
    if s.app.n > 0 {
      ConsumingTx(s.tx, s.app);
    } else {
      QuietTx(s.tx, s.app);
      if s.app.stop.Some? { StopTx(s.tx, Quiet, s.app.stop.value); }
    }
  }

  lemma ConsumingTx(t: Tx, a: App)
    requires TxInv(t, a) && a.Cancelling?
    ensures TxInv(t, Consuming(a.n, a.stop))
  {
    hide Trace.Bytes, Trace.End, Trace.Legal, Trace.Announced, Flatten, QueuedBytes, QueuedGrants;
    Empties();
  }

  lemma ChooseFinKeeps(lim: Limits, g: Ledger, s: Stream)
    requires Pre(lim, g, s) && s.app == Quiet && s.tx.terminal == NotEnded
    ensures Good(lim, g, s, CloseWrite(g, s))
    ensures Good(lim, g, s, Shutdown(g, s))
  {
    hide Trace.Bytes, Trace.End, Trace.Legal, Trace.Announced, Flatten, QueuedBytes, QueuedGrants;
    Empties();
  }

  lemma WithFinPlace(t: Tx, a: App)
    requires TxInv(t, a) && AddingFin(a)
    ensures TxInv(t.(dataQ := t.dataQ + [Item(Fin, 0)]), Quiet)
  {
    hide Trace.Bytes, Trace.End, Trace.Legal, Trace.Announced, Flatten, QueuedBytes, QueuedGrants;
    Empties();
    QueuePush(t.dataQ, Item(Fin, 0));
    assert (t.dataQ + [Item(Fin, 0)])[..|t.dataQ|] == t.dataQ;
  }

  lemma QueueFinKeeps(lim: Limits, g: Ledger, s: Stream)
    requires Pre(lim, g, s)
    ensures s.app == Finishing ==> Good(lim, g, s, QueueFin(g, s))
    ensures s.app == ShuttingDown ==> Good(lim, g, s, ShutdownPoll(g, s))
  {
    hide Trace.Bytes, Trace.End, Trace.Legal, Trace.Announced, Flatten, QueuedBytes, QueuedGrants;
    if AddingFin(s.app) {
      QueuePush(s.tx.dataQ, Item(Fin, 0));
      WithFinPlace(s.tx, s.app);
      AddingEnds(s.tx, s.app);
      hide TxInv, RxInv, LedgerOk, RecvOk, SendOk;
      if s.app == Finishing {
        assert Good(lim, g, s, QueueFin(g, s));
      } else {
        assert Good(lim, g, s, ShutdownPoll(g, s));
      }
    }
  }

  /** A FIN that finds no writer, or no room, leaves the rest of the write half as it was. */
  lemma AddingEnds(t: Tx, a: App)
    requires TxInv(t, a) && AddingFin(a)
    ensures t.writer.Stopped? ==> t.terminal == ByFin && !t.sent
    ensures a == ShuttingDown ==> TxInv(t.(terminal := NotEnded), Quiet)
  {
    hide Trace.Bytes, Trace.End, Trace.Legal, Trace.Announced, Flatten, QueuedBytes, QueuedGrants;
  }

  lemma ResetWriteKeeps(lim: Limits, g: Ledger, s: Stream, c: nat)
    requires Pre(lim, g, s) && s.app == Quiet && s.tx.terminal == NotEnded && c < U32_LIMIT
    ensures Good(lim, g, s, ResetWrite(g, s, c))
  {
    hide Trace.Bytes, Trace.End, Trace.Legal, Trace.Announced, Flatten, QueuedBytes, QueuedGrants;
    Empties();
    Append(s.tx.lifeQ, Reset(c));
  }

  lemma WriteReserveKeeps(lim: Limits, g: Ledger, s: Stream)
    requires Pre(lim, g, s) && s.app.Checked?
    ensures Good(lim, g, s, WriteReserve(g, s, s.app.buf))
  {
    hide Trace.Bytes, Trace.End, Trace.Legal, Trace.Announced, Flatten, QueuedBytes, QueuedGrants;
    Empties();
    hide LedgerOk, SendOk, RecvOk, RxInv;
    var want := Min(|s.app.buf|, MAX_FRAME_PAYLOAD);
    if s.tx.grant == 0 && PollReserve(g, s.credit, want).1.Granted? {
      GrantFits(lim, g, s.credit.value, want);
    }
  }

  lemma ReleaseGrantKeeps(lim: Limits, g: Ledger, s: Stream)
    requires Pre(lim, g, s) && s.app.Admitted?
    ensures Good(lim, g, s, ReleaseGrant(g, s))
  {
    hide Trace.Bytes, Trace.End, Trace.Legal, Trace.Announced, Flatten, QueuedBytes, QueuedGrants;
    Empties();
  }

  lemma DropHandleKeeps(lim: Limits, g: Ledger, s: Stream)
    requires Pre(lim, g, s) && s.app == Quiet
    ensures Good(lim, g, s, DropHandle(g, s))
  {
    hide Trace.Bytes, Trace.End, Trace.Legal, Trace.Announced, Flatten, QueuedBytes, QueuedGrants;
    Empties();
  }

  lemma WriterEndKeeps(lim: Limits, g: Ledger, s: Stream)
    requires Pre(lim, g, s) && Enabled(s, AWriterEnd)
    ensures Good(lim, g, s, WriterEnd(g, s))
  {
    hide Trace.Bytes, Trace.End, Trace.Legal, Trace.Announced, Flatten, QueuedBytes, QueuedGrants;
    Empties();
  }

  lemma WriteQueueKeeps(lim: Limits, g: Ledger, s: Stream)
    requires Pre(lim, g, s) && s.app.Admitted?
    ensures Good(lim, g, s, WriteQueue(g, s, s.app.buf))
  {
    hide Trace.Bytes, Trace.End, Trace.Legal, Trace.Announced, Flatten, QueuedBytes, QueuedGrants;
    Empties();
    hide LedgerOk, SendOk, RecvOk;
    if s.tx.writer.Stopped? {
      ReleaseGrantKeeps(lim, g, s);
    } else if QueueOpen(s) {
      QueuePush(s.tx.dataQ, Item(Data(Take(s.app.buf, s.tx.grant)), s.tx.grant));
      AcceptTx(s.tx, s.app, Take(s.app.buf, s.tx.grant));
    }
  }

  lemma AcceptTx(t: Tx, a: App, p: seq<byte>)
    requires TxInv(t, a) && a.Admitted? && p == Take(a.buf, t.grant)
    ensures TxInv(t.(dataQ := t.dataQ + [Item(Data(p), t.grant)], accepted := t.accepted + p, grant := 0), Quiet)
  {
    hide Trace.Bytes, Trace.End, Trace.Legal, Trace.Announced, Flatten, QueuedBytes, QueuedGrants;
    Empties();
    QueuePush(t.dataQ, Item(Data(p), t.grant));
    assert t.accepted <= t.accepted + p;
    assert !t.drop ==>
        Trace.Bytes(t.log) + HeldBytes(t.writer) + (QueuedBytes(t.dataQ) + p) ==
        Trace.Bytes(t.log) + HeldBytes(t.writer) + QueuedBytes(t.dataQ) + p;
  }

  lemma SendLifeKeeps(lim: Limits, g: Ledger, s: Stream)
    requires Pre(lim, g, s) && s.tx.writer == Ready && s.tx.lifeQ != [] && s.CanSend()
    ensures Good(lim, g, s, SendLife(g, s))
  {
    hide Trace.Bytes, Trace.End, Trace.Legal, Trace.Announced, Flatten, QueuedBytes, QueuedGrants;
    Append(s.tx.log, s.tx.lifeQ[0]);
    Pop(s.tx.lifeQ);
    SendLifeTx(s.tx, s.app);
    hide TxInv, RxInv, LedgerOk, RecvOk, SendOk;
    assert PayloadOf(s.tx.lifeQ[0]) == [] && Trace.Bytes(s.tx.log) + [] == Trace.Bytes(s.tx.log);
  }

  /** A lifecycle frame goes out ahead of queued DATA; a RESET is then the terminal frame. */
  lemma SendLifeTx(t: Tx, a: App)
    requires TxInv(t, a) && t.writer == Ready && t.lifeQ != []
    ensures var f := t.lifeQ[0];
            && !f.Data? && f != Fin
            && TxInv(t.(lifeQ := t.lifeQ[1..], log := t.log + [f],
                        writer := if EndingOf(f) != NotEnded then Noting else Ready), a)
  {
    hide Trace.Bytes, Trace.End, Trace.Legal, Trace.Announced, Flatten, QueuedBytes, QueuedGrants;
    Append(t.log, t.lifeQ[0]);
    Pop(t.lifeQ);
    assert t.lifeQ[0] in t.lifeQ && forall f :: f in t.lifeQ[1..] ==> f in t.lifeQ;
    assert Trace.Bytes(t.log) + [] == Trace.Bytes(t.log);
  }

  lemma NoteKeeps(lim: Limits, g: Ledger, s: Stream)
    requires Pre(lim, g, s) && s.tx.writer.Noting?
    ensures Good(lim, g, s, Note(g, s))
  {
    hide Trace.Bytes, Trace.End, Trace.Legal, Trace.Announced, Flatten, QueuedBytes, QueuedGrants;
    Empties();
  }

  lemma PopDataKeeps(lim: Limits, g: Ledger, s: Stream)
    requires Pre(lim, g, s) && s.tx.writer == Ready && s.tx.dataQ != []
    ensures Good(lim, g, s, PopData(g, s))
  {
    hide Trace.Bytes, Trace.End, Trace.Legal, Trace.Announced, Flatten, QueuedBytes, QueuedGrants;
    Empties();
    hide LedgerOk, RecvOk, TxInv;
    QueuePop(s.tx.dataQ);
    PopTx(s.tx, s.app);
    PopLedger(lim, g, s);
  }

  lemma PopLedger(lim: Limits, g: Ledger, s: Stream)
    requires Pre(lim, g, s) && s.tx.dataQ != []
    ensures LedgerOk(lim, Release(g, s.credit, s.tx.dataQ[0].reserved).g)
  {
    hide Trace.Bytes, Trace.End, Trace.Legal, Trace.Announced, Flatten, QueuedBytes, QueuedGrants;
    Empties();
    QueuePop(s.tx.dataQ);
  }

  lemma PopTx(t: Tx, a: App)
    requires TxInv(t, a) && t.writer == Ready && t.dataQ != []
    ensures var rest := t.(dataQ := t.dataQ[1..]);
            if t.drop && t.dataQ[0].frame.Data? then TxInv(rest, a) else TxInv(rest.(writer := Holding(t.dataQ[0])), a)
    ensures t.drop ==> t.dataQ[0].frame.Data?
  {
    hide Trace.Bytes, Trace.End, Trace.Legal, Trace.Announced, Flatten, QueuedBytes, QueuedGrants;
    Empties();
    var q := t.dataQ;
    QueuePop(q);
    PopPlace(t, a);
    assert q[0] in q && forall it :: it in q[1..] ==> it in q;
    assert Trace.Bytes(t.log) + [] + QueuedBytes(q) == Trace.Bytes(t.log) + PayloadOf(q[0].frame) + QueuedBytes(q[1..]);
  }

  lemma PopPlace(t: Tx, a: App)
    requires TerminalPlace(t, a) && t.writer == Ready && t.dataQ != [] && t.drop == (t.terminal == ByReset)
    requires forall it :: it in t.dataQ ==> it.frame.Data? || it.frame.Fin?
    ensures t.drop ==> t.dataQ[0].frame.Data?
    ensures var rest := t.(dataQ := t.dataQ[1..]);
            if t.drop then TerminalPlace(rest, a)
            else !OnWire(t) && TerminalPlace(rest.(writer := Holding(t.dataQ[0])), a)
  {
    hide Trace.End;
    var q := t.dataQ;
    if LastIsFin(q) {
      assert |q| > 1 ==> q[0] == q[..|q| - 1][0] && q[1..][..|q| - 2] == q[..|q| - 1][1..];
    } else {
      assert AllData(q[1..]);
    }
  }

  lemma SendHeldKeeps(lim: Limits, g: Ledger, s: Stream)
    requires Pre(lim, g, s) && s.tx.writer.Holding? && s.CanSend()
    ensures Good(lim, g, s, SendHeld(g, s, s.tx.writer.item))
  {
    hide Trace.Bytes, Trace.End, Trace.Legal, Trace.Announced, Flatten, QueuedBytes, QueuedGrants;
    Empties();
    Append(s.tx.log, s.tx.writer.item.frame);
  }

  lemma WriterStopKeeps(lim: Limits, g: Ledger, s: Stream)
    requires Pre(lim, g, s) && Enabled(s, AWriterStop)
    ensures Good(lim, g, s, WriterStop(g, s))
  {
    hide Trace.Bytes, Trace.End, Trace.Legal, Trace.Announced, Flatten, QueuedBytes, QueuedGrants;
    Empties();
  }

  lemma MaybeRetireKeeps(lim: Limits, g: Ledger, s: Stream)
    requires Pre(lim, g, s) && s.life.due
    ensures Good(lim, g, s, MaybeRetire(g, s))
  {
    hide Trace.Bytes, Trace.End, Trace.Legal, Trace.Announced, Flatten, QueuedBytes, QueuedGrants;
    Empties();
  }

  lemma LadderKeeps(lim: Limits, g: Ledger, s: Stream)
    requires Pre(lim, g, s)
    ensures s.life.closeDue ==> Good(lim, g, s, CloseChannel(g, s))
    ensures s.life.phase == Dropped ==> Good(lim, g, s, Report(lim, g, s))
  {
    hide Trace.Bytes, Trace.End, Trace.Legal, Trace.Announced, Flatten, QueuedBytes, QueuedGrants, RxInv, TxInv;
  }

  lemma DropKeeps(lim: Limits, g: Ledger, s: Stream)
    requires Pre(lim, g, s) && s.life.phase == Fired
    ensures Good(lim, g, s, DropCredit(g, s))
  {
    hide Trace.Bytes, Trace.End, Trace.Legal, Trace.Announced, Flatten, QueuedBytes, QueuedGrants, RxInv, TxInv;
  }

  /** Every step, enabled and with a decoded input, keeps the stream's invariant and moves the
      connection's counters by exactly what it moves in the stream. */
  lemma DoKeeps(lim: Limits, g: Ledger, s: Stream, a: Act)
    requires Pre(lim, g, s) && Enabled(s, a) && InputOk(a)
    ensures Good(lim, g, s, Do(lim, g, s, a))
  {
    hide Pre, Good, Inv, Covered;
    match a
    case ARecv(f) => RecvFrameKeeps(lim, g, s, f);
    case ABuffer => BufferKeeps(lim, g, s);
    case ADiscard => DiscardKeeps(lim, g, s);
    case AClosed => ClosedKeeps(lim, g, s);
    case ARead(room) => ReadKeeps(lim, g, s, room);
    case AConsume => ConsumeStepKeeps(lim, g, s);
    case ACancelRead(c) => CancelReadKeeps(lim, g, s, c);
    case ACancelMark => CancelMarkKeeps(lim, g, s);
    case ACloseWrite => ChooseFinKeeps(lim, g, s);
    case AQueueFin => QueueFinKeeps(lim, g, s);
    case AShutdown => ChooseFinKeeps(lim, g, s);
    case AShutdownPoll => QueueFinKeeps(lim, g, s);
    case AResetWrite(c) => ResetWriteKeeps(lim, g, s, c);
    case AWriteCheck(buf) => WriteCheckKeeps(lim, g, s, buf);
    case AWriteReserve => WriteReserveKeeps(lim, g, s);
    case AWriteQueue => WriteQueueKeeps(lim, g, s);
    case ADropHandle => DropHandleKeeps(lim, g, s);
    case AStopDone => StopDoneKeeps(lim, g, s);
    case AWriterEnd => WriterEndKeeps(lim, g, s);
    case ASendLife => SendLifeKeeps(lim, g, s);
    case APopData => PopDataKeeps(lim, g, s);
    case ASendHeld => SendHeldKeeps(lim, g, s);
    case ANote => NoteKeeps(lim, g, s);
    case AWriterStop => WriterStopKeeps(lim, g, s);
    case AMaybeRetire => MaybeRetireKeeps(lim, g, s);
    case ACloseChannel => LadderKeeps(lim, g, s);
    case ADropCredit => DropKeeps(lim, g, s);
    case AReport => LadderKeeps(lim, g, s);
  }

  lemma RecvFrameKeeps(lim: Limits, g: Ledger, s: Stream, f: Frame)
    requires Pre(lim, g, s) && s.rx.handler == Idle && FrameOk(f)
    ensures Good(lim, g, s, RecvFrame(g, s, f))
  {
    hide Pre, Good;
    match f
    case Data(p) => RecvDataKeeps(lim, g, s, p);
    case Fin => RecvFinKeeps(lim, g, s);
    case Reset(c) => RecvResetKeeps(lim, g, s, c);
    case StopSending(c) => RecvStopKeeps(lim, g, s, c);
    case MaxStreamData(v) => RecvLimitKeeps(lim, g, s, v);
  }

  lemma WriteCheckKeeps(lim: Limits, g: Ledger, s: Stream, buf: seq<byte>)
    requires Pre(lim, g, s) && Enabled(s, AWriteCheck(buf))
    ensures Good(lim, g, s, WriteCheck(g, s, buf))
  {
    hide Trace.Bytes, Trace.End, Trace.Legal, Trace.Announced, Flatten, QueuedBytes, QueuedGrants;
  }

  lemma ReservedNat(lim: Limits, peerInit: int, s: Stream)
    requires Inv(lim, peerInit, s)
    ensures 0 <= Reserved(s)
  {
  }

  lemma NewStreamInv(lim: Limits, peerInit: int, inbound: bool)
    requires LimitsOk(lim) && 0 <= peerInit <= MAX_OFFSET
    ensures Inv(lim, peerInit, NewStream(lim, inbound))
    ensures Unread(NewStream(lim, inbound)) == 0 && Reserved(NewStream(lim, inbound)) == 0
  {
  }

  /** HELLO opens every stream's window at once. */
  lemma HelloKeeps(lim: Limits, peerInit: int, s: Stream)
    requires Inv(lim, 0, s) && 0 <= peerInit
    ensures Inv(lim, peerInit, s)
  {
    hide Trace.Bytes, Trace.End, Trace.Legal, Trace.Announced, Flatten, QueuedBytes, QueuedGrants;
  }
}
