/** The wire format: a stream is a concatenation of frames, and parsing a stream
    is a pure function of its bytes. */
module Framing {
  import opened Header

  datatype Frame = Frame(kind: byte, payload: seq<byte>)

  function Encode(f: Frame): (s: seq<byte>)
    ensures |s| == HEADER_SIZE + |f.payload|
  {
    [f.kind] + SizeBytes(|f.payload|) + f.payload
  }

  function EncodeAll(fs: seq<Frame>): seq<byte> {
    if fs == [] then [] else Encode(fs[0]) + EncodeAll(fs[1..])
  }

  /** The frames of one kind, in order. */
  function OfKind(kind: byte, fs: seq<Frame>): seq<Frame> {
    if fs == [] then []
    else
      var last := fs[|fs| - 1];
      OfKind(kind, fs[..|fs| - 1]) + if last.kind == kind then [last] else []
  }

  lemma OfKindSnoc(kind: byte, fs: seq<Frame>, f: Frame)
    ensures OfKind(kind, fs + [f]) == OfKind(kind, fs) + if f.kind == kind then [f] else []
  {
    assert (fs + [f])[..|fs|] == fs;
  }

  lemma {:induction false} OfKindPrefix(kind: byte, a: seq<Frame>, b: seq<Frame>)
    requires a <= b
    ensures OfKind(kind, a) <= OfKind(kind, b)
  {
    if a != b {
      assert a <= b[..|b| - 1];
      OfKindPrefix(kind, a, b[..|b| - 1]);
    }
  }

  /** What a receiver with a buffer of `cap` bytes makes of a stream: the complete
      frames in it, the bytes left over, and whether it stopped because a header
      announced a frame larger than the buffer. */
  datatype Parsed = Parsed(frames: seq<Frame>, rest: seq<byte>, tooBig: bool)

  function Parse(s: seq<byte>, cap: nat): Parsed
    decreases |s|
  {
    if |s| < HEADER_SIZE then
      Parsed([], s, false)
    else if HEADER_SIZE + GetSize(s) > cap then
      Parsed([], s, true)
    else if |s| < HEADER_SIZE + GetSize(s) then
      Parsed([], s, false)
    else
      var end := HEADER_SIZE + GetSize(s);
      var p := Parse(s[end..], cap);
      Parsed([Frame(s[0], s[HEADER_SIZE..end])] + p.frames, p.rest, p.tooBig)
  }

  /** The bytes on the wire: one of type, three of payload size with the most significant
      first, and the payload. */
  lemma OnTheWire(f: Frame)
    requires |f.payload| < SIZE_LIMIT
    ensures var b := Encode(f);
      && |b| == 4 + |f.payload| && b[0] == f.kind && b[4..] == f.payload
      && (b[1] as int) * 0x1_0000 + (b[2] as int) * 0x100 + b[3] as int == |f.payload|
    ensures Encode(Frame(PING, [])) == [3, 0, 0, 0] && Encode(Frame(PONG, [])) == [4, 0, 0, 0]
    ensures CLIENT_TO_SERVER_USER == 1 && SERVER_TO_CLIENT_USER == 2
    ensures SizeBytes(0x01_0203) == [1, 2, 3]
  {
    var n := |f.payload|;
    GetSizeOfSizeBytes(f.kind, n, f.payload);
    assert Encode(f)[4..] == f.payload;
    assert [PING] + SizeBytes(0) + [] == [3, 0, 0, 0];
    assert [PONG] + SizeBytes(0) + [] == [4, 0, 0, 0];
  }

  /** A frame that a receiver with this buffer can take. */
  predicate Fits(f: Frame, cap: nat) {
    |f.payload| < SIZE_LIMIT && HEADER_SIZE + |f.payload| <= cap
  }

  lemma EncodeAllAppend(a: seq<Frame>, b: seq<Frame>)
    ensures EncodeAll(a + b) == EncodeAll(a) + EncodeAll(b)
  {
    if a == [] {
      assert a + b == b;
    } else {
      assert (a + b)[1..] == a[1..] + b;
      EncodeAllAppend(a[1..], b);
    }
  }

  lemma EncodeAllSnoc(a: seq<Frame>, f: Frame)
    ensures EncodeAll(a + [f]) == EncodeAll(a) + Encode(f)
  {
    EncodeAllAppend(a, [f]);
    assert EncodeAll([f]) == Encode(f);
  }

  /** The stream starts with a whole frame that fits the buffer. */
  predicate StartsWithFrame(s: seq<byte>, cap: nat) {
    && |s| >= HEADER_SIZE
    && HEADER_SIZE + GetSize(s) <= cap
    && HEADER_SIZE + GetSize(s) <= |s|
  }

  lemma ParseWhole(s: seq<byte>, cap: nat)
    requires StartsWithFrame(s, cap) && |s| == HEADER_SIZE + GetSize(s)
    ensures Parse(s, cap) == Parsed([Frame(s[0], s[HEADER_SIZE..])], [], false)
  {
    assert s[|s|..] == [] && s[HEADER_SIZE..|s|] == s[HEADER_SIZE..];
  }

  lemma ParseTooBig(s: seq<byte>, cap: nat)
    requires |s| >= HEADER_SIZE && HEADER_SIZE + GetSize(s) > cap
    ensures Parse(s, cap) == Parsed([], s, true)
  {
  }

  lemma StartsWithSameFrame(a: seq<byte>, b: seq<byte>, cap: nat)
    requires StartsWithFrame(a, cap)
    ensures StartsWithFrame(a + b, cap)
    ensures var end := HEADER_SIZE + GetSize(a);
      && HEADER_SIZE + GetSize(a + b) == end
      && (a + b)[end..] == a[end..] + b
      && Frame((a + b)[0], (a + b)[HEADER_SIZE..end]) == Frame(a[0], a[HEADER_SIZE..end])
  {
    var end := HEADER_SIZE + GetSize(a);
    assert forall i :: 0 <= i < |a| ==> (a + b)[i] == a[i];
    assert (a + b)[HEADER_SIZE..end] == a[HEADER_SIZE..end];
  }

  /** `Parse` resumed from what an earlier `Parse` left over. */
  function Resume(p: Parsed, b: seq<byte>, cap: nat): Parsed {
    if p.tooBig then Parsed(p.frames, p.rest + b, true)
    else
      var q := Parse(p.rest + b, cap);
      Parsed(p.frames + q.frames, q.rest, q.tooBig)
  }

  lemma ResumeAfterFrame(f: Frame, q: Parsed, b: seq<byte>, cap: nat)
    ensures var r := Resume(q, b, cap);
      Resume(Parsed([f] + q.frames, q.rest, q.tooBig), b, cap) == Parsed([f] + r.frames, r.rest, r.tooBig)
  {
    if !q.tooBig {
      var r := Parse(q.rest + b, cap);
      assert ([f] + q.frames) + r.frames == [f] + (q.frames + r.frames);
    }
  }

  /** Parsing can be suspended anywhere and resumed on the unparsed remainder,
      which is what makes reassembly independent of how a stream is chunked. */
  lemma {:induction false} ParseAppend(a: seq<byte>, b: seq<byte>, cap: nat)
    ensures Parse(a + b, cap) == Resume(Parse(a, cap), b, cap)
    decreases |a|
  {
    if StartsWithFrame(a, cap) {
      var end := HEADER_SIZE + GetSize(a);
      ParseAppend(a[end..], b, cap);
      StartsWithSameFrame(a, b, cap);
      ResumeAfterFrame(Frame(a[0], a[HEADER_SIZE..end]), Parse(a[end..], cap), b, cap);
    } else {
      assert Parse(a, cap).frames == [] && Parse(a, cap).rest == a;
      if Parse(a, cap).tooBig {
        assert GetSize(a + b) == GetSize(a);
      } else {
        var p := Parse(a + b, cap);
        assert [] + p.frames == p.frames;
      }
    }
  }

  /** A longer stream never changes what has already been dispatched. */
  lemma ParseMonotone(a: seq<byte>, s: seq<byte>, cap: nat)
    requires a <= s
    ensures Parse(a, cap).frames <= Parse(s, cap).frames
  {
    ParseAppend(a, s[|a|..], cap);
    assert a + s[|a|..] == s;
  }

  lemma ParseOne(f: Frame, tail: seq<byte>, cap: nat)
    requires |f.payload| < SIZE_LIMIT
    ensures var s := Encode(f) + tail;
      if Fits(f, cap) then var p := Parse(tail, cap); Parse(s, cap) == Parsed([f] + p.frames, p.rest, p.tooBig)
      else Parse(s, cap) == Parsed([], s, true)
  {
    var s := Encode(f) + tail;
    var end := HEADER_SIZE + |f.payload|;
    GetSizeOfSizeBytes(f.kind, |f.payload|, f.payload + tail);
    assert s == [f.kind] + SizeBytes(|f.payload|) + (f.payload + tail);
    assert s[end..] == tail;
    assert s[HEADER_SIZE..end] == f.payload;
  }

  /** The frames a receiver gets before the first one its buffer cannot hold. */
  function FittingPrefix(fs: seq<Frame>, cap: nat): (r: seq<Frame>)
    ensures r <= fs
    ensures forall f :: f in r ==> Fits(f, cap)
    ensures |r| < |fs| ==> !Fits(fs[|r|], cap)
  {
    if fs == [] || !Fits(fs[0], cap) then [] else [fs[0]] + FittingPrefix(fs[1..], cap)
  }

  /** Round trip for every list of frames, including those with a frame that the
      receiver has to refuse. */
  lemma {:induction false} ParseOfEncodeAll(fs: seq<Frame>, cap: nat)
    requires forall f :: f in fs ==> |f.payload| < SIZE_LIMIT
    ensures var p := Parse(EncodeAll(fs), cap);
      && p.frames == FittingPrefix(fs, cap)
      && (p.frames == fs ==> p.rest == [] && !p.tooBig)
      && (p.frames != fs ==> p.tooBig)
  {
    if fs != [] {
      ParseOne(fs[0], EncodeAll(fs[1..]), cap);
      ParseOfEncodeAll(fs[1..], cap);
    }
  }

  /** The size limit is exact: a frame comes back as it was sent, from a buffer
      large enough for it, exactly when its payload is below 2^24 bytes. */
  lemma FrameSurvivesIffBelowLimit(f: Frame, cap: nat)
    requires HEADER_SIZE + |f.payload| <= cap
    ensures Parse(Encode(f), cap) == Parsed([f], [], false) <==> |f.payload| < SIZE_LIMIT
  {
    var s := Encode(f);
    assert s + [] == s;
    if |f.payload| < SIZE_LIMIT {
      ParseOne(f, [], cap);
    } else {
      assert GetSize(s) < SIZE_LIMIT <= |f.payload|;
    }
  }

  /** In-order delivery over a reliable byte stream: whatever part of the encoded
      frames has arrived, the frames dispatched are a prefix of those sent. */
  lemma DeliveredArePrefix(sent: seq<Frame>, wire: seq<byte>, received: seq<byte>, cap: nat)
    requires forall f :: f in sent ==> |f.payload| < SIZE_LIMIT
    requires received <= wire <= EncodeAll(sent)
    ensures Parse(received, cap).frames <= sent
  {
    ParseMonotone(received, EncodeAll(sent), cap);
    ParseOfEncodeAll(sent, cap);
  }

  /** Nothing is held back: once the bytes of the first frames have arrived, all
      of them have been dispatched unless one was too large for the buffer. */
  lemma ArrivedAreDelivered(sent: seq<Frame>, received: seq<byte>, cap: nat, n: nat)
    requires n <= |sent|
    requires forall f :: f in sent[..n] ==> Fits(f, cap)
    requires EncodeAll(sent[..n]) <= received
    ensures sent[..n] <= Parse(received, cap).frames
  {
    ParseOfEncodeAll(sent[..n], cap);
    ParseMonotone(EncodeAll(sent[..n]), received, cap);
  }

  // ----- bytes carried over from one connection to the next -----

  /** Frames that a server writes: user messages and pongs. */
  predicate FromServer(fs: seq<Frame>) {
    forall f :: f in fs ==> |f.payload| < SIZE_LIMIT && (f.kind == SERVER_TO_CLIENT_USER || f == Frame(PONG, []))
  }

  function Pongs(n: nat): (fs: seq<Frame>)
    ensures FromServer(fs) && |fs| == n
  {
    seq(n, _ => Frame(PONG, []))
  }

  lemma {:induction false} PongsLength(n: nat)
    ensures |EncodeAll(Pongs(n))| == HEADER_SIZE * n
  {
    if n > 0 {
      PongsLength(n - 1);
      assert Pongs(n)[1..] == Pongs(n - 1);
    }
  }

  lemma PongsParse(n: nat, cap: nat)
    requires cap >= HEADER_SIZE
    ensures Parse(EncodeAll(Pongs(n)), cap).frames == Pongs(n)
  {
    ParseOfEncodeAll(Pongs(n), cap);
    assert forall f :: f in Pongs(n) ==> Fits(f, cap);
  }

  /** A few bytes of a header, completed by those of a pong, announce a frame of which the
      pong is too little. */
  lemma PongBehindHeader(rest: seq<byte>, cap: nat)
    requires cap >= HEADER_SIZE && 0 < |rest| < HEADER_SIZE
    ensures Parse(rest + EncodeAll(Pongs(1)), cap).frames != Pongs(1)
  {
    var pong := Encode(Frame(PONG, []));
    assert EncodeAll(Pongs(1)) == pong && pong == [PONG, 0, 0, 0];
    var s := rest + pong;
    assert |rest| == 1 ==> s[1] == PONG;
    assert |rest| == 2 ==> s[2] == PONG;
    assert |rest| == 3 ==> s[3] == PONG;
    assert HEADER_SIZE + GetSize(s) > |s|;
  }

  /** Pongs behind the beginning of a payload end up in it. */
  lemma PongsBehindPayload(rest: seq<byte>, cap: nat, n: nat)
    requires cap >= HEADER_SIZE && |rest| >= HEADER_SIZE && Parse(rest, cap) == Parsed([], rest, false)
    requires |rest| + HEADER_SIZE * n >= HEADER_SIZE + GetSize(rest)
    ensures Parse(rest + EncodeAll(Pongs(n)), cap).frames != Pongs(n)
  {
    PongsLength(n);
    var s := rest + EncodeAll(Pongs(n));
    assert GetSize(s) == GetSize(rest) > 0;
    assert |Parse(s, cap).frames[0].payload| == GetSize(rest);
  }

  /** A client that starts on a new connection with bytes of an old one in its buffer gets
      the frames that the server writes, whatever they are, exactly when there are no such
      bytes. */
  lemma CarriedOverIffEmpty(rest: seq<byte>, cap: nat)
    requires cap >= HEADER_SIZE && Parse(rest, cap) == Parsed([], rest, false)
    ensures rest == [] <==>
        forall fs :: FromServer(fs) ==> Parse(rest + EncodeAll(fs), cap).frames == Parse(EncodeAll(fs), cap).frames
  {
    if rest == [] {
      forall fs | FromServer(fs) ensures Parse(rest + EncodeAll(fs), cap).frames == Parse(EncodeAll(fs), cap).frames {
        assert rest + EncodeAll(fs) == EncodeAll(fs);
      }
    } else if |rest| < HEADER_SIZE {
      PongBehindHeader(rest, cap);
      PongsParse(1, cap);
      assert FromServer(Pongs(1));
    } else {
      var n := GetSize(rest);
      PongsBehindPayload(rest, cap, n);
      PongsParse(n, cap);
      assert FromServer(Pongs(n));
    }
  }
}
