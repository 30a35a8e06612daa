/** What a sequence of frames in one direction of one stream says. */
module Trace {
  import opened Basics
  import opened Wire

  /** How a write half has ended. */
  datatype Ending = NotEnded | ByFin | ByReset

  function PayloadOf(f: Frame): seq<byte> {
    if f.Data? then f.payload else []
  }

  function EndingOf(f: Frame): Ending {
    match f
    case Fin => ByFin
    case Reset(_) => ByReset
    case _ => NotEnded
  }

  function LimitOf(f: Frame): nat {
    if f.MaxStreamData? then f.limit else 0
  }

  /** The stream bytes carried, in order. */
  function Bytes(log: seq<Frame>): seq<byte> {
    if log == [] then [] else Bytes(log[..|log| - 1]) + PayloadOf(log[|log| - 1])
  }

  /** The last terminal frame. */
  function End(log: seq<Frame>): Ending {
    if log == [] then NotEnded
    else if EndingOf(log[|log| - 1]) != NotEnded then EndingOf(log[|log| - 1])
    else End(log[..|log| - 1])
  }

  /** Largest stream credit announced, 0 if none. */
  function Announced(log: seq<Frame>): nat {
    if log == [] then 0 else Max(Announced(log[..|log| - 1]), LimitOf(log[|log| - 1]))
  }

  /** Leaving out STOP_SENDING and MAX_STREAM_DATA: DATA* then at most one FIN or RESET. */
  predicate Legal(log: seq<Frame>) {
    log == [] ||
    (var f := log[|log| - 1];
     Legal(log[..|log| - 1]) &&
     (f.Data? || EndingOf(f) != NotEnded ==> End(log[..|log| - 1]) == NotEnded))
  }

  /** The same rule read off positions: nothing of the write half follows its terminal frame. */
  ghost predicate EndsOnce(log: seq<Frame>) {
    forall i, j :: 0 <= i < j < |log| && EndingOf(log[i]) != NotEnded ==>
      !log[j].Data? && EndingOf(log[j]) == NotEnded
  }

  lemma {:induction false} EndIsATerminal(log: seq<Frame>)
    ensures End(log) == NotEnded <==> forall i :: 0 <= i < |log| ==> EndingOf(log[i]) == NotEnded
  {
    if log != [] {
      var init := log[..|log| - 1];
      EndIsATerminal(init);
      assert forall i :: 0 <= i < |init| ==> log[i] == init[i];
      assert log[|log| - 1] in log;
      if EndingOf(log[|log| - 1]) == NotEnded {
        assert End(log) == End(init);
        if forall i :: 0 <= i < |init| ==> EndingOf(init[i]) == NotEnded {
          assert forall i :: 0 <= i < |log| ==> i == |log| - 1 || log[i] == init[i];
        }
      }
    }
  }

  lemma {:induction false} LegalMeansEndsOnce(log: seq<Frame>)
    ensures Legal(log) <==> EndsOnce(log)
  {
    if log != [] {
      var init := log[..|log| - 1];
      LegalMeansEndsOnce(init);
      EndIsATerminal(init);
      assert forall i :: 0 <= i < |init| ==> log[i] == init[i];
      if EndsOnce(log) {
        assert EndsOnce(init);
        if End(init) != NotEnded {
          var i :| 0 <= i < |init| && EndingOf(init[i]) != NotEnded;
          assert EndingOf(log[i]) != NotEnded;
        }
      }
    }
  }

  /** Appending one frame. */
  lemma Append(log: seq<Frame>, f: Frame)
    ensures Bytes(log + [f]) == Bytes(log) + PayloadOf(f)
    ensures End(log + [f]) == if EndingOf(f) != NotEnded then EndingOf(f) else End(log)
    ensures Announced(log + [f]) == Max(Announced(log), LimitOf(f))
    ensures Legal(log + [f]) <==>
      Legal(log) && (f.Data? || EndingOf(f) != NotEnded ==> End(log) == NotEnded)
  {
    assert (log + [f])[..|log|] == log;
  }

  lemma {:induction false} BytesConcat(a: seq<Frame>, b: seq<Frame>)
    ensures Bytes(a + b) == Bytes(a) + Bytes(b)
  {
    if b == [] {
      assert a + b == a;
    } else {
      var init, f := b[..|b| - 1], b[|b| - 1];
      assert b == init + [f] && a + b == (a + init) + [f];
      hide *;
      BytesConcat(a, init);
      Append(a + init, f);
      Append(init, f);
      Associative(Bytes(a), Bytes(init), PayloadOf(f));
    }
  }

  /** Taking the first frame off a queue. */
  lemma {:induction false} Pop(q: seq<Frame>)
    requires q != []
    ensures Announced(q) == Max(LimitOf(q[0]), Announced(q[1..]))
    ensures End(q) == if End(q[1..]) != NotEnded then End(q[1..]) else EndingOf(q[0])
    ensures Legal(q) ==> Legal(q[1..]) && (EndingOf(q[0]) != NotEnded ==> End(q[1..]) == NotEnded)
  {
    if |q| == 1 {
      assert q[1..] == [] && q[..0] == [];
    } else {
      var init := q[..|q| - 1];
      Pop(init);
      assert q[1..][..|q| - 2] == init[1..];
    }
  }

  lemma {:induction false} PrefixFacts(a: seq<Frame>, b: seq<Frame>)
    requires a <= b
    ensures Bytes(a) <= Bytes(b)
    ensures Announced(a) <= Announced(b)
    ensures Legal(b) ==> Legal(a)
    ensures Legal(b) && End(a) != NotEnded ==> End(b) == End(a) && Bytes(b) == Bytes(a)
  {
    if a != b {
      var init := b[..|b| - 1];
      assert a <= init;
      PrefixFacts(a, init);
      Append(init, b[|b| - 1]);
      assert b == init + [b[|b| - 1]];
    }
  }

  lemma {:induction false} AnnouncedBound(log: seq<Frame>)
    requires forall f :: f in log ==> FrameOk(f)
    ensures Announced(log) <= MAX_OFFSET
  {
    if log != [] {
      assert log[|log| - 1] in log;
      assert FrameOk(log[|log| - 1]);
      AnnouncedBound(log[..|log| - 1]);
    }
  }
}
