/** The blocking write call: split at the frame limit and at the credit boundary, one frame a
    turn. What everyone else does to the connection's credit meanwhile is a script: some steps
    before the turn's reservation and some before its frame is sent. */
module WriteLoop {
  import opened Basics
  import opened Wire
  import opened Trace
  import opened CreditEngine
  import opened Flow

  /** What the write finds when it is about to send. */
  datatype Status = Clear | PeerStopped | WriteClosed | ChannelClosed | SendFailed

  datatype Turn = Turn(before: seq<Op>, during: seq<Op>, status: Status)

  /** `Waiting`: the script ends with the call still blocked. */
  datatype Outcome = Finished | Failed(why: Status) | NoCredit | Waiting

  /** Only this call reserves, commits or releases for its stream, and the stream stays live. */
  predicate Foreign(op: Op, id: nat) {
    match op
    case Poll(j, _) => j != id
    case Commit(j, _) => j != id
    case Release(j, _) => j != id
    case Drop(j) => j != id
    case _ => true
  }

  /** Steps the engine does not allow, or that are this call's own, do not happen. */
  function Others(f: FlowState, id: nat, ops: seq<Op>): FlowState
    decreases |ops|
  {
    if ops == [] then f
    else Others(if Foreign(ops[0], id) && Allowed(f, ops[0]) then CreditEngine.Step(f, ops[0]).0 else f, id, ops[1..])
  }

  /** The stream's side of the ledger. */
  ghost predicate SameSent(f: FlowState, f': FlowState, id: nat) {
    && id in f.streams && id in f'.streams
    && f'.streams[id].send.sent == f.streams[id].send.sent
    && f'.streams[id].send.reserved == f.streams[id].send.reserved
  }

  lemma ForeignStep(f: FlowState, id: nat, op: Op)
    requires CreditEngine.Inv(f) && id in f.streams && Foreign(op, id) && Allowed(f, op)
    ensures CreditEngine.Inv(CreditEngine.Step(f, op).0) && SameSent(f, CreditEngine.Step(f, op).0, id)
  {
    StepKeeps(f, op);
    NewIdIsNew(f);
    hide *;
    ForeignSame(f, id, op);
  }

  lemma NewIdIsNew(f: FlowState)
    requires CreditEngine.Inv(f)
    ensures f.nextId + 1 !in f.streams
  {
  }

  lemma ForeignSame(f: FlowState, id: nat, op: Op)
    requires id in f.streams && f.nextId + 1 !in f.streams && Foreign(op, id)
    ensures SameSent(f, CreditEngine.Step(f, op).0, id)
  {
    hide ReserveSlot, PeerStreamOpened, PeerStreamRetired, RaiseMaxData, RaiseMaxStreams;
    if op.Consume? { ConsumeSame(f, id, op.id, op.n); }
    hide OnConsumed;
  }

  lemma ConsumeSame(f: FlowState, id: nat, j: nat, n: nat)
    requires id in f.streams
    ensures SameSent(f, CreditEngine.Step(f, Consume(j, n)).0, id)
  {
  }

  lemma {:induction false} OthersKeep(f: FlowState, id: nat, ops: seq<Op>)
    requires CreditEngine.Inv(f) && id in f.streams
    ensures CreditEngine.Inv(Others(f, id, ops)) && SameSent(f, Others(f, id, ops), id)
    decreases |ops|
  {
    hide CreditEngine.Inv, CreditEngine.Step;
    if ops != [] {
      if Foreign(ops[0], id) && Allowed(f, ops[0]) {
        ForeignStep(f, id, ops[0]);
        OthersKeep(CreditEngine.Step(f, ops[0]).0, id, ops[1..]);
      } else {
        OthersKeep(f, id, ops[1..]);
      }
    }
  }

  /** The grant, its frame's passage and the commit or release, as one turn's effect. */
  lemma GrantTaken(f: FlowState, id: nat, want: nat)
    requires CreditEngine.Inv(f) && id in f.streams
    ensures var (f', r) := CreditEngine.Step(f, Poll(id, want));
            && CreditEngine.Inv(f') && id in f'.streams && r.Polled?
            && f'.streams[id].send.sent == f.streams[id].send.sent
            && (r.grant.Granted? ==> 1 <= r.grant.n <= want)
            && f'.streams[id].send.reserved == f.streams[id].send.reserved + (if r.grant.Granted? then r.grant.n else 0)
            && (r.grant.Refused? <==> f'.g.failed || f'.streams[id].send.failed)
            && 0 <= f.streams[id].send.reserved
  {
    StepKeeps(f, Poll(id, want));
    hide CreditEngine.Inv;
  }

  lemma GrantReturned(f: FlowState, id: nat, n: nat)
    requires CreditEngine.Inv(f) && id in f.streams && n <= f.streams[id].send.reserved
    ensures var c := CreditEngine.Step(f, Commit(id, n)).0;
            && CreditEngine.Inv(c) && id in c.streams
            && c.streams[id].send.sent == f.streams[id].send.sent + n
            && c.streams[id].send.reserved == f.streams[id].send.reserved - n
    ensures var c := CreditEngine.Step(f, Release(id, n)).0;
            && CreditEngine.Inv(c) && id in c.streams
            && c.streams[id].send.sent == f.streams[id].send.sent
            && c.streams[id].send.reserved == f.streams[id].send.reserved - n
  {
    StepKeeps(f, Commit(id, n));
    StepKeeps(f, Release(id, n));
    hide CreditEngine.Inv;
  }

  /** What came of a call: its frames, and the answer to each request for credit. */
  datatype Played = Played(f: FlowState, frames: seq<Frame>, asked: seq<Grant>, out: Outcome)
  {
    function After(frames: seq<Frame>, asked: seq<Grant>): Played {
      this.(frames := frames + this.frames, asked := asked + this.asked)
    }
  }

  /** The call, turn by turn. */
  function Play(f: FlowState, id: nat, p: seq<byte>, script: seq<Turn>): Played
    decreases |script|
  {
    if p == [] then Played(f, [], [], Finished)
    else if script == [] then Played(f, [], [], Waiting)
    else
      var (g, r) := CreditEngine.Step(Others(f, id, script[0].before), Poll(id, Min(|p|, MAX_FRAME_PAYLOAD)));
      match r.grant
      case Refused => Played(g, [], [r.grant], NoCredit)
      case Parked => Play(g, id, p, script[1..]).After([], [r.grant])
      case Granted(n) =>
        var h := Others(g, id, script[0].during);
        if script[0].status != Clear
        then Played(CreditEngine.Step(h, Release(id, n)).0, [], [r.grant], Failed(script[0].status))
        else Play(CreditEngine.Step(h, Commit(id, n)).0, id, p[n..], script[1..]).After([Data(p[..n])], [r.grant])
  }

  /** Each turn that is granted credit is granted a full frame or all that is left of the buffer, or
      uses up the stream's window or the connection's; each that is not finds one of them used up, or a
      failure. */
  lemma TurnsAreWhole(f: FlowState, id: nat, p: seq<byte>, script: seq<Turn>)
    requires CreditEngine.Inv(f) && id in f.streams && p != [] && script != []
    ensures Play(f, id, p, script).asked != []
    ensures var m := Others(f, id, script[0].before);
            var g := CreditEngine.Step(m, Poll(id, Min(|p|, MAX_FRAME_PAYLOAD))).0;
            id in m.streams && id in g.streams &&
            match Play(f, id, p, script).asked[0]
            case Granted(n) => n == Min(|p|, 16383) || StreamAvail(g.g, g.streams[id]) == 0 || ConnAvail(g.g) == 0
            case Parked => StreamAvail(m.g, m.streams[id]) <= 0 || ConnAvail(m.g) <= 0
            case Refused => m.g.failed || m.streams[id].send.failed
  {
    OthersKeep(f, id, script[0].before);
    var m := Others(f, id, script[0].before);
    hide CreditEngine.Inv, Others;
    TurnIs(m, id, Min(|p|, MAX_FRAME_PAYLOAD));
    hide CreditEngine.Step;
  }

  lemma TurnIs(m: FlowState, id: nat, want: nat)
    requires id in m.streams && want >= 1
    ensures var (g, r) := CreditEngine.Step(m, Poll(id, want));
            && id in g.streams && r.Polled?
            && match r.grant
               case Granted(n) => n == want || StreamAvail(g.g, g.streams[id]) == 0 || ConnAvail(g.g) == 0
               case Parked => StreamAvail(m.g, m.streams[id]) <= 0 || ConnAvail(m.g) <= 0
               case Refused => m.g.failed || m.streams[id].send.failed
  {
    GrantIsWhole(m.g, m.At(id), want);
    ParkedExactly(m.g, m.At(id), want);
    hide StreamAvail, ConnAvail, GrantSize;
  }

  /** The frames carry a prefix of `p`, each 1 to MAX_FRAME_PAYLOAD bytes; the count returned is
      what was committed, on every way out; nothing stays reserved. One turn takes one answer,
      and each grant sends a frame: all that can keep the call waiting is finding no credit. */
  method Write(start: FlowState, id: nat, p: seq<byte>, script: seq<Turn>)
    returns (f: FlowState, written: nat, frames: seq<Frame>, asked: seq<Grant>, out: Outcome)
    requires CreditEngine.Inv(start) && id in start.streams
    ensures Played(f, frames, asked, out) == Play(start, id, p, script)
    ensures CreditEngine.Inv(f) && id in f.streams
    ensures written <= |p| && Bytes(frames) == p[..written]
    ensures forall k :: 0 <= k < |frames| ==> frames[k].Data? && FrameOk(frames[k])
    ensures f.streams[id].send.sent == start.streams[id].send.sent + written
    ensures f.streams[id].send.reserved == start.streams[id].send.reserved
    ensures out == Finished <==> written == |p|
    ensures out == NoCredit ==> f.g.failed || f.streams[id].send.failed
    ensures out.Failed? ==> out.why != Clear && asked != [] && |asked| <= |script| && out.why == script[|asked| - 1].status
    ensures forall k :: 0 <= k < |asked| && k < |script| && asked[k].Granted? ==>
      script[k].status == Clear || (k == |asked| - 1 && out.Failed?)
    ensures |frames| <= written
    ensures out == Waiting ==> |script| == |asked| == |frames| + Parks(asked)
  {
    NoParks();
    hide CreditEngine.Inv, CreditEngine.Step, Others, Bytes, Play, Parks, Played.After;
    f, written, frames, asked := start, 0, [], [];
    var turn := 0;
    NoBytes(p);
    assert p[0..] == p && script[0..] == script;
    Unplayed(Play(start, id, p, script));
    while written < |p|
      invariant CreditEngine.Inv(f) && id in f.streams
      invariant written <= |p| && Bytes(frames) == p[..written]
      invariant forall k :: 0 <= k < |frames| ==> frames[k].Data? && FrameOk(frames[k])
      invariant f.streams[id].send.sent == start.streams[id].send.sent + written
      invariant f.streams[id].send.reserved == start.streams[id].send.reserved
      invariant |frames| <= written && turn == |asked| == |frames| + Parks(asked) <= |script|
      invariant forall k :: 0 <= k < |asked| && asked[k].Granted? ==> script[k].status == Clear
      invariant Play(start, id, p, script) == Play(f, id, p[written..], script[turn..]).After(frames, asked)
      decreases |script| - turn
    {
      PlayedOn(f, id, p[written..], script[turn..], frames, asked);
      if turn == |script| {
        return f, written, frames, asked, Waiting;
      }
      assert script[turn..][0] == script[turn] && script[turn..][1..] == script[turn + 1..];
      OthersKeep(f, id, script[turn].before);
      f := Others(f, id, script[turn].before);
      var want := Min(|p| - written, MAX_FRAME_PAYLOAD);
      GrantTaken(f, id, want);
      var (f1, r) := CreditEngine.Step(f, Poll(id, want));
      f := f1;
      ParksPush(asked, r.grant);
      asked := asked + [r.grant];
      match r.grant {
        case Refused =>
          return f, written, frames, asked, NoCredit;
        case Parked =>
        case Granted(n) =>
          OthersKeep(f, id, script[turn].during);
          f := Others(f, id, script[turn].during);
          GrantReturned(f, id, n);
          if script[turn].status != Clear {
            f := CreditEngine.Step(f, Release(id, n)).0;
            return f, written, frames, asked, Failed(script[turn].status);
          }
          f := CreditEngine.Step(f, Commit(id, n)).0;
          NextChunk(frames, p, written, n);
          frames := frames + [Data(p[written..written + n])];
          assert p[written..][n..] == p[written + n..] && p[written..][..n] == p[written..written + n];
          written := written + n;
      }
      turn := turn + 1;
    }
    out := Finished;
    PlayedOn(f, id, p[written..], script[turn..], frames, asked);
  }

  function Parks(asked: seq<Grant>): nat {
    if asked == [] then 0 else Parks(asked[..|asked| - 1]) + if asked[|asked| - 1].Parked? then 1 else 0
  }

  lemma NoParks()
    ensures Parks([]) == 0
  {
  }

  lemma ParksPush(asked: seq<Grant>, r: Grant)
    ensures Parks(asked + [r]) == Parks(asked) + if r.Parked? then 1 else 0
  {
    assert (asked + [r])[..|asked|] == asked;
  }

  lemma Unplayed(r: Played)
    ensures r.After([], []) == r
  {
  }

  /** One unfolding of the call, after what has been done. */
  lemma PlayedOn(f: FlowState, id: nat, p: seq<byte>, script: seq<Turn>, frames: seq<Frame>, asked: seq<Grant>)
    ensures p == [] ==> Play(f, id, p, script).After(frames, asked) == Played(f, frames, asked, Finished)
    ensures p != [] && script == [] ==> Play(f, id, p, script).After(frames, asked) == Played(f, frames, asked, Waiting)
    ensures p != [] && script != [] ==>
      var (g, r) := CreditEngine.Step(Others(f, id, script[0].before), Poll(id, Min(|p|, MAX_FRAME_PAYLOAD)));
      && r.Polled?
      && match r.grant
         case Refused => Play(f, id, p, script).After(frames, asked) == Played(g, frames, asked + [r.grant], NoCredit)
         case Parked => Play(f, id, p, script).After(frames, asked) == Play(g, id, p, script[1..]).After(frames, asked + [r.grant])
         case Granted(n) =>
           n <= |p| &&
           var h := Others(g, id, script[0].during);
           if script[0].status != Clear
           then Play(f, id, p, script).After(frames, asked) ==
                Played(CreditEngine.Step(h, Release(id, n)).0, frames, asked + [r.grant], Failed(script[0].status))
           else Play(f, id, p, script).After(frames, asked) ==
                Play(CreditEngine.Step(h, Commit(id, n)).0, id, p[n..], script[1..]).After(frames + [Data(p[..n])], asked + [r.grant])
  {
    hide Others;
    if p != [] && script != [] {
      var (g, r) := CreditEngine.Step(Others(f, id, script[0].before), Poll(id, Min(|p|, MAX_FRAME_PAYLOAD)));
      hide CreditEngine.Step;
      if r.grant.Parked? {
        AfterTwice(Play(g, id, p, script[1..]), frames, [], asked, [r.grant]);
      } else if r.grant.Granted? && script[0].status == Clear {
        var n := r.grant.n;
        AfterTwice(Play(CreditEngine.Step(Others(g, id, script[0].during), Commit(id, n)).0, id, p[n..], script[1..]),
                   frames, [Data(p[..n])], asked, [r.grant]);
      }
    }
  }

  lemma AfterTwice(r: Played, frames: seq<Frame>, more: seq<Frame>, asked: seq<Grant>, also: seq<Grant>)
    ensures r.After(more, also).After(frames, asked) == r.After(frames + more, asked + also)
  {
    assert frames + (more + r.frames) == (frames + more) + r.frames;
    assert asked + (also + r.asked) == (asked + also) + r.asked;
  }

  lemma NoBytes(p: seq<byte>)
    ensures Bytes([]) == p[..0]
  {
  }

  lemma NextChunk(frames: seq<Frame>, p: seq<byte>, written: nat, n: nat)
    requires written + n <= |p| && Bytes(frames) == p[..written]
    ensures Bytes(frames + [Data(p[written..written + n])]) == p[..written + n]
  {
    Append(frames, Data(p[written..written + n]));
    assert p[..written] + p[written..written + n] == p[..written + n];
  }
}
