/** The stream frames and control messages of wire version 1, and their bytes. */
module Wire {
  import opened Basics

  const MAX_FRAME_SIZE := 16384
  const MAX_FRAME_PAYLOAD := MAX_FRAME_SIZE - 1
  const MAX_OFFSET := 0x3FFF_FFFF_FFFF_FFFF
  const U32_LIMIT := 0x1_0000_0000
  const WIRE_VERSION := 1

  /** A receiver's initial windows, announced in HELLO. */
  datatype Limits = Limits(maxStreamData: nat, maxData: nat, maxStreams: nat)

  datatype Frame =
    | Data(payload: seq<byte>)
    | Fin
    | Reset(code: nat)
    | StopSending(code: nat)
    | MaxStreamData(limit: nat)

  datatype Control =
    | Close(code: nat)
    | Hello(version: byte, limits: Limits)
    | MaxData(limit: nat)
    | MaxStreams(limit: nat)

  /** What the wire rules allow a frame to carry. */
  predicate FrameOk(f: Frame) {
    match f
    case Data(p) => 1 <= |p| <= MAX_FRAME_PAYLOAD
    case Fin => true
    case Reset(c) => c < U32_LIMIT
    case StopSending(c) => c < U32_LIMIT
    case MaxStreamData(v) => v <= MAX_OFFSET
  }

  predicate LimitsOk(l: Limits) {
    l.maxStreamData <= MAX_OFFSET && l.maxData <= MAX_OFFSET && l.maxStreams <= MAX_OFFSET
  }

  predicate ControlOk(m: Control) {
    match m
    case Close(c) => c < U32_LIMIT
    case Hello(_, l) => LimitsOk(l)
    case MaxData(v) => v <= MAX_OFFSET
    case MaxStreams(v) => v <= MAX_OFFSET
  }

  // ---- big-endian integers ----

  function Pow256(width: nat): nat {
    if width == 0 then 1 else 256 * Pow256(width - 1)
  }

  function PutInt(v: nat, width: nat): (s: seq<byte>)
    ensures |s| == width
  {
    if width == 0 then [] else PutInt(v / 256, width - 1) + [v % 256]
  }

  function GetInt(s: seq<byte>): nat {
    if s == [] then 0 else 256 * GetInt(s[..|s| - 1]) + s[|s| - 1]
  }

  lemma {:induction false} GetPut(v: nat, width: nat)
    requires v < Pow256(width)
    ensures GetInt(PutInt(v, width)) == v
  {
    if width > 0 {
      GetPut(v / 256, width - 1);
      var s := PutInt(v, width);
      assert s[..|s| - 1] == PutInt(v / 256, width - 1);
    }
  }

  lemma {:induction false} PutGet(s: seq<byte>)
    ensures GetInt(s) < Pow256(|s|)
    ensures PutInt(GetInt(s), |s|) == s
  {
    if s != [] {
      PutGet(s[..|s| - 1]);
    }
  }

  lemma Widths()
    ensures Pow256(4) == U32_LIMIT
    ensures MAX_OFFSET < Pow256(8)
  {
    assert Pow256(2) == 0x1_0000;
    assert Pow256(4) == 256 * (256 * Pow256(2));
    assert Pow256(6) == 256 * (256 * Pow256(4));
    assert Pow256(8) == 256 * (256 * Pow256(6));
  }

  // ---- stream frames ----

  function EncodeFrame(f: Frame): seq<byte> {
    match f
    case Data(p) => [0] + p
    case Fin => [1]
    case Reset(c) => [2] + PutInt(c, 4)
    case StopSending(c) => [3] + PutInt(c, 4)
    case MaxStreamData(v) => [4] + PutInt(v, 8)
  }

  function ParseFrame(data: seq<byte>): Result<Frame> {
    if data == [] then Err("empty data-channel message")
    else if |data| > MAX_FRAME_SIZE then Err("frame exceeds the maximum size")
    else
      var payload := data[1..];
      match data[0]
      case 0 =>
        if payload == [] then Err("empty DATA frame") else Ok(Data(payload))
      case 1 =>
        if payload != [] then Err("FIN with payload") else Ok(Fin)
      case 2 =>
        if |payload| != 4 then Err("RESET payload must be 4 bytes") else Ok(Reset(GetInt(payload)))
      case 3 =>
        if |payload| != 4 then Err("STOP_SENDING payload must be 4 bytes") else Ok(StopSending(GetInt(payload)))
      case 4 =>
        if |payload| != 8 then Err("MAX_STREAM_DATA payload must be 8 bytes")
        else if GetInt(payload) > MAX_OFFSET then Err("MAX_STREAM_DATA above MAX_OFFSET")
        else Ok(MaxStreamData(GetInt(payload)))
      case _ => Err("unknown frame type")
  }

  lemma FrameRoundTrip(f: Frame)
    requires FrameOk(f)
    ensures |EncodeFrame(f)| <= MAX_FRAME_SIZE
    ensures ParseFrame(EncodeFrame(f)) == Ok(f)
  {
    Widths();
    var b := EncodeFrame(f);
    match f
    case Data(p) => assert b[1..] == p;
    case Fin =>
    case Reset(c) => GetPut(c, 4); assert b[1..] == PutInt(c, 4);
    case StopSending(c) => GetPut(c, 4); assert b[1..] == PutInt(c, 4);
    case MaxStreamData(v) => GetPut(v, 8); assert b[1..] == PutInt(v, 8);
  }

  /** An accepted message is the one encoding of the frame it is read as. */
  lemma FrameCanonical(data: seq<byte>)
    requires ParseFrame(data).Ok?
    ensures FrameOk(ParseFrame(data).value)
    ensures EncodeFrame(ParseFrame(data).value) == data
  {
    Widths();
    PutGet(data[1..]);
    assert data == [data[0]] + data[1..];
  }

  // ---- control messages ----

  function EncodeControl(m: Control): seq<byte> {
    match m
    case Close(c) => [0] + PutInt(c, 4)
    case Hello(v, l) => [1, v] + PutInt(l.maxStreamData, 8) + PutInt(l.maxData, 8) + PutInt(l.maxStreams, 8)
    case MaxData(v) => [2] + PutInt(v, 8)
    case MaxStreams(v) => [3] + PutInt(v, 8)
  }

  function DecodeControl(data: seq<byte>): Result<Control> {
    if data == [] then Err("empty control message")
    else
      match data[0]
      case 0 =>
        if |data| != 5 then Err("CONNECTION_CLOSE must be 5 bytes") else Ok(Close(GetInt(data[1..5])))
      case 1 =>
        if |data| != 26 then Err("HELLO must be 26 bytes")
        else
          var l := Limits(GetInt(data[2..10]), GetInt(data[10..18]), GetInt(data[18..26]));
          if LimitsOk(l) then Ok(Hello(data[1], l)) else Err("HELLO credit above MAX_OFFSET")
      case 2 =>
        if |data| != 9 then Err("MAX_DATA must be 9 bytes")
        else if GetInt(data[1..9]) > MAX_OFFSET then Err("MAX_DATA above MAX_OFFSET")
        else Ok(MaxData(GetInt(data[1..9])))
      case 3 =>
        if |data| != 9 then Err("MAX_STREAMS must be 9 bytes")
        else if GetInt(data[1..9]) > MAX_OFFSET then Err("MAX_STREAMS above MAX_OFFSET")
        else Ok(MaxStreams(GetInt(data[1..9])))
      case _ => Err("unknown control message type")
  }

  lemma ControlRoundTrip(m: Control)
    requires ControlOk(m)
    ensures DecodeControl(EncodeControl(m)) == Ok(m)
  {
    Widths();
    var b := EncodeControl(m);
    match m
    case Close(c) => GetPut(c, 4); assert b[1..5] == PutInt(c, 4);
    case Hello(v, l) => HelloFields(v, l);
    case MaxData(v) => GetPut(v, 8); assert b[1..9] == PutInt(v, 8);
    case MaxStreams(v) => GetPut(v, 8); assert b[1..9] == PutInt(v, 8);
  }

  lemma HelloFields(v: byte, l: Limits)
    requires LimitsOk(l)
    ensures var b := EncodeControl(Hello(v, l));
            && |b| == 26 && b[0] == 1 && b[1] == v
            && GetInt(b[2..10]) == l.maxStreamData
            && GetInt(b[10..18]) == l.maxData
            && GetInt(b[18..26]) == l.maxStreams
  {
    Widths();
    GetPut(l.maxStreamData, 8);
    GetPut(l.maxData, 8);
    GetPut(l.maxStreams, 8);
    var b := EncodeControl(Hello(v, l));
    assert b[2..10] == PutInt(l.maxStreamData, 8);
    assert b[10..18] == PutInt(l.maxData, 8);
    assert b[18..26] == PutInt(l.maxStreams, 8);
  }

  /** An accepted message is the one encoding of the control message it is read as. */
  lemma ControlCanonical(data: seq<byte>)
    requires DecodeControl(data).Ok?
    ensures ControlOk(DecodeControl(data).value)
    ensures EncodeControl(DecodeControl(data).value) == data
  {
    Widths();
    if data[0] == 1 {
      PutGet(data[2..10]);
      PutGet(data[10..18]);
      PutGet(data[18..26]);
      assert data == [data[0], data[1]] + data[2..10] + data[10..18] + data[18..26];
    } else {
      PutGet(data[1..]);
      assert data == [data[0]] + data[1..];
      assert data[0] == 0 ==> data[1..5] == data[1..];
      assert data[0] != 0 ==> data[1..9] == data[1..];
    }
  }

  // ---- the bytes themselves ----

  /** Four bytes from `i` on, the most significant first. */
  function Word(b: seq<byte>, i: nat): nat
    requires i + 4 <= |b|
  {
    0x100_0000 * (b[i] as int) + 0x1_0000 * (b[i + 1] as int) + 0x100 * (b[i + 2] as int) + b[i + 3]
  }

  function Long(b: seq<byte>, i: nat): nat
    requires i + 8 <= |b|
  {
    0x1_0000_0000 * Word(b, i) + Word(b, i + 4)
  }

  lemma WordIs(s: seq<byte>)
    requires |s| == 4
    ensures GetInt(s) == Word(s, 0)
  {
    var a, b, c := s[..3], s[..2], s[..1];
    assert a[..2] == b && b[..1] == c && c[..0] == [];
    assert GetInt(c) == s[0];
    assert GetInt(b) == 256 * GetInt(c) + s[1];
    assert GetInt(a) == 256 * GetInt(b) + s[2];
  }

  lemma LongIs(s: seq<byte>)
    requires |s| == 8
    ensures GetInt(s) == Long(s, 0)
  {
    var a, b, c, d := s[..7], s[..6], s[..5], s[..4];
    assert a[..6] == b && b[..5] == c && c[..4] == d;
    WordIs(d);
    assert GetInt(c) == 256 * GetInt(d) + s[4];
    assert GetInt(b) == 256 * GetInt(c) + s[5];
    assert GetInt(a) == 256 * GetInt(b) + s[6];
    assert GetInt(s) == 256 * GetInt(a) + s[7];
  }

  lemma SliceIs(b: seq<byte>, i: nat, n: nat)
    requires i + n <= |b|
    ensures n == 4 ==> GetInt(b[i..i + 4]) == Word(b, i)
    ensures n == 8 ==> GetInt(b[i..i + 8]) == Long(b, i)
  {
    if n == 4 { WordIs(b[i..i + 4]); } else if n == 8 { LongIs(b[i..i + 8]); }
  }

  /** The stream frames of wire version 1, byte by byte. */
  predicate FrameIs(b: seq<byte>, f: Frame) {
    match f
    case Data(p) => 2 <= |b| <= 16384 && b[0] == 0x00 && b[1..] == p
    case Fin => b == [0x01]
    case Reset(c) => |b| == 5 && b[0] == 0x02 && Word(b, 1) == c
    case StopSending(c) => |b| == 5 && b[0] == 0x03 && Word(b, 1) == c
    case MaxStreamData(v) => |b| == 9 && b[0] == 0x04 && Long(b, 1) == v <= 0x3FFF_FFFF_FFFF_FFFF
  }

  /** A message is read as `f`, and `f` is written as it, if and only if those are its bytes. */
  lemma FrameBytes(b: seq<byte>, f: Frame)
    ensures ParseFrame(b) == Ok(f) <==> FrameIs(b, f)
    ensures FrameOk(f) ==> (EncodeFrame(f) == b <==> FrameIs(b, f))
  {
    FrameParsed(b, f);
    hide ParseFrame, EncodeFrame, FrameIs;
    if FrameOk(f) { FrameRoundTrip(f); }
    if ParseFrame(b).Ok? { FrameCanonical(b); }
  }

  lemma FrameParsed(b: seq<byte>, f: Frame)
    ensures ParseFrame(b) == Ok(f) <==> FrameIs(b, f)
  {
    if |b| == 5 {
      SliceIs(b, 1, 4);
      assert b[1..] == b[1..5];
    } else if |b| == 9 {
      SliceIs(b, 1, 8);
      assert b[1..] == b[1..9];
    }
    hide GetInt, Word, Long;
  }

  /** The control messages, byte by byte: HELLO carries the stream window, the connection window and
      the stream count, in that order. */
  predicate ControlIs(b: seq<byte>, m: Control) {
    match m
    case Close(c) => |b| == 5 && b[0] == 0x00 && Word(b, 1) == c
    case Hello(v, l) =>
      && |b| == 26 && b[0] == 0x01 && b[1] == v
      && Long(b, 2) == l.maxStreamData <= 0x3FFF_FFFF_FFFF_FFFF
      && Long(b, 10) == l.maxData <= 0x3FFF_FFFF_FFFF_FFFF
      && Long(b, 18) == l.maxStreams <= 0x3FFF_FFFF_FFFF_FFFF
    case MaxData(v) => |b| == 9 && b[0] == 0x02 && Long(b, 1) == v <= 0x3FFF_FFFF_FFFF_FFFF
    case MaxStreams(v) => |b| == 9 && b[0] == 0x03 && Long(b, 1) == v <= 0x3FFF_FFFF_FFFF_FFFF
  }

  lemma ControlBytes(b: seq<byte>, m: Control)
    ensures DecodeControl(b) == Ok(m) <==> ControlIs(b, m)
    ensures ControlOk(m) ==> (EncodeControl(m) == b <==> ControlIs(b, m))
  {
    ControlParsed(b, m);
    hide DecodeControl, EncodeControl, ControlIs;
    if ControlOk(m) { ControlRoundTrip(m); }
    if DecodeControl(b).Ok? { ControlCanonical(b); }
  }

  lemma ControlParsed(b: seq<byte>, m: Control)
    ensures DecodeControl(b) == Ok(m) <==> ControlIs(b, m)
  {
    if |b| == 5 {
      SliceIs(b, 1, 4);
    } else if |b| == 9 {
      SliceIs(b, 1, 8);
    } else if |b| == 26 {
      SliceIs(b, 2, 8);
      SliceIs(b, 10, 8);
      SliceIs(b, 18, 8);
    }
    hide GetInt, Word, Long;
  }

  // ---- encoders that fill a buffer in place ----

  /** Writes `v` big-endian at `at`, leaving the rest of the buffer alone. */
  method PutUint64(out: array<byte>, at: nat, v: nat)
    requires at + 8 <= out.Length && v < Pow256(8)
    modifies out
    ensures out[..] == old(out[..at]) + PutInt(v, 8) + old(out[at + 8..])
  {
    var i, rest := 8, v;
    while i > 0
      invariant 0 <= i <= 8
      invariant PutInt(v, 8) == PutInt(rest, i) + out[at + i..at + 8]
      invariant out[..at] == old(out[..at]) && out[at + 8..] == old(out[at + 8..])
    {
      i := i - 1;
      ghost var tail := out[at + i + 1..at + 8];
      out[at + i] := rest % 256;
      assert out[at + i..at + 8] == [rest % 256] + tail;
      rest := rest / 256;
      assert PutInt(rest, i) + ([out[at + i]] + tail) == (PutInt(rest, i) + [out[at + i]]) + tail;
    }
    assert out[..] == out[..at] + out[at..at + 8] + out[at + 8..];
  }

  method EncodeHello(l: Limits, version: byte := WIRE_VERSION) returns (out: array<byte>)
    requires LimitsOk(l)
    ensures fresh(out) && out[..] == EncodeControl(Hello(version, l))
  {
    Widths();
    out := new byte[26](_ => 0);
    out[0] := 1;
    out[1] := version;
    PutUint64(out, 2, l.maxStreamData);
    PutUint64(out, 10, l.maxData);
    PutUint64(out, 18, l.maxStreams);
    hide PutInt, Pow256;
    assert out[..2] == [1, version];
  }
}
