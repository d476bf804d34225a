/** AMQP frames (AMQP 0-9-1 section 4.2.3) and the splitting of octets into whole frames. */
module Frames {
  import opened Bytes
  import opened Buffers

  const MAX_FRAME_SIZE: nat := 150000
  const FRAME_HEADER: nat := 7
  const FRAME_OVERHEAD: nat := 8
  const FRAME_END: Byte := 206   // 0xCE

  datatype Frame = Frame(kind: Byte, channel: nat, payload: seq<Byte>)

  /** `Incomplete` is a `false` return; `Oversize` and `BadEnd` are exceptions. */
  datatype Decoded = Complete(frame: Frame, size: nat) | Incomplete | Oversize | BadEnd

  predicate Representable(f: Frame) {
    f.channel < Pow256(2) && |f.payload| < Pow256(4)
  }

  function EncodeFrame(f: Frame): (bs: seq<Byte>)
    ensures |bs| == FRAME_OVERHEAD + |f.payload|
  {
    [f.kind] + BigEndian(f.channel, 2) + BigEndian(|f.payload|, 4) + f.payload + [FRAME_END]
  }

  /** The size a frame header announces, overhead included. */
  function DeclaredSize(bs: seq<Byte>): (n: nat)
    requires |bs| >= FRAME_HEADER
    ensures n >= FRAME_OVERHEAD
  {
    FRAME_OVERHEAD + ToUnsigned(bs[3..7])
  }

  function DecodeFrame(bs: seq<Byte>): (r: Decoded)
    ensures r.Complete? ==> FRAME_OVERHEAD <= r.size <= |bs| && r.size == FRAME_OVERHEAD + |r.frame.payload|
  {
    if |bs| < FRAME_OVERHEAD then Incomplete
    else
      var size := DeclaredSize(bs);
      if size > |bs| then (if size > MAX_FRAME_SIZE then Oversize else Incomplete)
      else if bs[size - 1] != FRAME_END then BadEnd
      else Complete(Frame(bs[0], ToUnsigned(bs[1..3]), bs[FRAME_HEADER..size - 1]), size)
  }

  method DecodeAt(mem: array<Byte>, at: nat, length: nat) returns (r: Decoded)
    requires at + length <= mem.Length
    ensures r == DecodeFrame(mem[at..at + length])
  {
    hide ToUnsigned;
    if length < FRAME_OVERHEAD {
      return Incomplete;
    }
    SubSlice(mem[..], at, length, 1, 3);
    SubSlice(mem[..], at, length, 3, 7);
    var kind := mem[at];
    var channel := ToUnsigned(mem[at + 1..at + 3]);
    var payloadLength := ToUnsigned(mem[at + 3..at + 7]);
    if FRAME_OVERHEAD + payloadLength > length {
      if FRAME_OVERHEAD + payloadLength > MAX_FRAME_SIZE {
        return Oversize;
      }
      return Incomplete;
    }
    var end := FRAME_HEADER + payloadLength;
    if mem[at + end] != FRAME_END {
      return BadEnd;
    }
    SubSlice(mem[..], at, length, FRAME_HEADER, end);
    r := Complete(Frame(kind, channel, mem[at + FRAME_HEADER..at + end]), FRAME_OVERHEAD + payloadLength);
  }

  /** Writes a frame unless it is too large; the caller answers for the room. */
  method EncodeAt(output: array<Byte>, at: nat, f: Frame) returns (ok: bool, written: nat)
    requires at + FRAME_OVERHEAD + |f.payload| <= output.Length
    modifies output
    ensures ok == (|f.payload| + FRAME_OVERHEAD <= MAX_FRAME_SIZE)
    ensures ok ==> written == |EncodeFrame(f)| && output[..] == Splice(old(output[..]), at, EncodeFrame(f))
    ensures !ok ==> written == 0 && output[..] == old(output[..])
  {
    hide BigEndian, Splice;
    written := 0;
    if |f.payload| + FRAME_OVERHEAD > MAX_FRAME_SIZE {
      return false, 0;
    }
    ghost var before := output[..];
    var b := new Buffer(output, at, FRAME_OVERHEAD + |f.payload|);
    var _ := b.WriteIn([f.kind]);
    var _ := b.WriteIn(BigEndian(f.channel, 2));
    SpliceAdjacent(before, at, [f.kind], BigEndian(f.channel, 2));
    var _ := b.WriteIn(BigEndian(|f.payload|, 4));
    SpliceAdjacent(before, at, [f.kind] + BigEndian(f.channel, 2), BigEndian(|f.payload|, 4));
    var _ := b.WriteIn(f.payload);
    SpliceAdjacent(before, at, [f.kind] + BigEndian(f.channel, 2) + BigEndian(|f.payload|, 4), f.payload);
    var _ := b.WriteIn([FRAME_END]);
    SpliceAdjacent(before, at, [f.kind] + BigEndian(f.channel, 2) + BigEndian(|f.payload|, 4) + f.payload, [FRAME_END]);
    ok, written := true, b.offset;
  }

  lemma {:induction false} DecodeEncodedFrame(f: Frame, tail: seq<Byte>)
    requires Representable(f)
    ensures DecodeFrame(EncodeFrame(f) + tail) == Complete(f, |EncodeFrame(f)|)
  {
    hide BigEndian, ToUnsigned, Pow256;
    var bs := EncodeFrame(f) + tail;
    UnsignedOfBigEndian(f.channel, 2);
    UnsignedOfBigEndian(|f.payload|, 4);
    assert bs[1..3] == BigEndian(f.channel, 2);
    assert bs[3..7] == BigEndian(|f.payload|, 4);
    assert bs[7..7 + |f.payload|] == f.payload;
  }

  lemma {:induction false} EncodeDecodedFrame(bs: seq<Byte>)
    requires DecodeFrame(bs).Complete?
    ensures var r := DecodeFrame(bs); Representable(r.frame) && EncodeFrame(r.frame) == bs[..r.size]
  {
    hide BigEndian, ToUnsigned, Pow256;
    var r := DecodeFrame(bs);
    BigEndianOfUnsigned(bs[1..3]);
    BigEndianOfUnsigned(bs[3..7]);
    assert bs[..r.size] == [bs[0]] + bs[1..3] + bs[3..7] + bs[7..r.size - 1] + [bs[r.size - 1]];
  }

  // ----- splitting

  /** The whole frames at the front of some octets, or an exception on the way. */
  datatype Split = Split(frames: seq<Frame>, used: nat) | Threw

  function Ahead(f: Frame, size: nat, rest: Split): (r: Split) {
    if rest.Split? then Split([f] + rest.frames, size + rest.used) else Threw
  }

  function SplitFrames(bs: seq<Byte>): (r: Split)
    ensures r.Split? ==> r.used <= |bs|
    decreases |bs|
  {
    match DecodeFrame(bs)
    case Complete(f, size) => Ahead(f, size, SplitFrames(bs[size..]))
    case Incomplete => Split([], 0)
    case _ => Threw
  }

  lemma SplitStep(bs: seq<Byte>, f: Frame, size: nat)
    requires DecodeFrame(bs) == Complete(f, size)
    ensures SplitFrames(bs) == Ahead(f, size, SplitFrames(bs[size..]))
  {
  }

  function EncodeAll(fs: seq<Frame>): (bs: seq<Byte>) {
    if fs == [] then [] else EncodeFrame(fs[0]) + EncodeAll(fs[1..])
  }

  /**
   * Whole frames of at most the maximum size, perhaps followed by the beginning of one
   * more such frame: what a well-behaved peer has sent at any moment.
   */
  predicate FrameStream(bs: seq<Byte>)
    decreases |bs|
  {
    |bs| >= FRAME_OVERHEAD ==>
      var size := DeclaredSize(bs);
      && size <= MAX_FRAME_SIZE
      && (size <= |bs| ==> bs[size - 1] == FRAME_END && FrameStream(bs[size..]))
  }

  /** What was not used never amounts to a frame of the maximum size. */
  lemma {:induction false} LeftoverIsShort(bs: seq<Byte>)
    ensures var r := SplitFrames(bs); r.Split? ==> |bs| - r.used < MAX_FRAME_SIZE
    decreases |bs|
  {
    hide ToUnsigned;
    var d := DecodeFrame(bs);
    if d.Complete? {
      LeftoverIsShort(bs[d.size..]);
    }
  }

  lemma {:induction false} StreamSplits(bs: seq<Byte>)
    requires FrameStream(bs)
    ensures SplitFrames(bs).Split?
    decreases |bs|
  {
    hide ToUnsigned;
    var d := DecodeFrame(bs);
    if d.Complete? {
      StreamSplits(bs[d.size..]);
    }
  }

  /** A frame complete in `a` decodes the same in `a + b`. */
  lemma {:induction false} DecodeIgnoresWhatFollows(a: seq<Byte>, b: seq<Byte>)
    requires |a| >= FRAME_OVERHEAD
    ensures DeclaredSize(a + b) == DeclaredSize(a)
    ensures DeclaredSize(a) <= |a| ==> DecodeFrame(a + b) == DecodeFrame(a)
  {
    hide ToUnsigned;
    assert (a + b)[3..7] == a[3..7] && (a + b)[1..3] == a[1..3];
    if DeclaredSize(a) <= |a| {
      assert (a + b)[7..DeclaredSize(a) - 1] == a[7..DeclaredSize(a) - 1];
    }
  }

  /** In a stream the front is a whole frame within the limit, or nothing can be split off yet. */
  lemma StreamStep(bs: seq<Byte>)
    ensures FrameStream(bs) && !DecodeFrame(bs).Complete? ==> SplitFrames(bs) == Split([], 0)
    ensures DecodeFrame(bs).Complete? ==>
      var size := DecodeFrame(bs).size;
      FrameStream(bs) <==> size <= MAX_FRAME_SIZE && FrameStream(bs[size..])
  {
    hide DeclaredSize;
  }

  /** A stream cut short is a stream, and its first frame is the same if the cut left it whole. */
  lemma {:induction false} StreamCut(a: seq<Byte>, b: seq<Byte>)
    requires FrameStream(a + b)
    ensures DecodeFrame(a).Complete? ==> DecodeFrame(a + b) == DecodeFrame(a)
    ensures !DecodeFrame(a).Complete? ==> FrameStream(a)
  {
    hide DeclaredSize;
    if |a| >= FRAME_OVERHEAD {
      DecodeIgnoresWhatFollows(a, b);
    }
  }

  /** Splitting `a + b` continues where splitting `a` stopped. */
  lemma {:induction false} SplitResumes(a: seq<Byte>, b: seq<Byte>)
    requires FrameStream(a + b)
    ensures FrameStream(a)
    ensures var s := SplitFrames(a);
      && s.Split?
      && FrameStream(a[s.used..] + b)
      && SplitFrames(a + b) == After(s, SplitFrames(a[s.used..] + b))
    decreases |a|
  {
    hide DecodeFrame, FrameStream, SplitFrames;
    StreamStep(a);
    StreamStep(a + b);
    StreamCut(a, b);
    var d := DecodeFrame(a);
    if d.Complete? {
      var n := d.size;
      assert (a + b)[n..] == a[n..] + b;
      SplitResumes(a[n..], b);
      SplitStep(a, d.frame, n);
      SplitStep(a + b, d.frame, n);
      var s := SplitFrames(a[n..]);
      assert a[n..][s.used..] == a[n + s.used..];
      AheadAfter(d.frame, n, s, SplitFrames(a[n + s.used..] + b));
    } else {
      assert a[0..] == a;
      AfterNothing(SplitFrames(a + b));
    }
  }

  /** One split followed by another of what the first left over. */
  function After(s: Split, rest: Split): (r: Split)
    requires s.Split?
  {
    if rest.Split? then Split(s.frames + rest.frames, s.used + rest.used) else Threw
  }

  lemma AheadAfter(f: Frame, size: nat, s: Split, rest: Split)
    requires s.Split?
    ensures Ahead(f, size, After(s, rest)) == After(Ahead(f, size, s), rest)
  {
    if rest.Split? {
      assert [f] + (s.frames + rest.frames) == [f] + s.frames + rest.frames;
    }
  }

  lemma AfterNothing(s: Split)
    ensures After(Split([], 0), s) == s
  {
    if s.Split? {
      assert [] + s.frames == s.frames;
    }
  }

  /** The octets used are exactly the encodings of the frames found. */
  lemma {:induction false} SplitIsWhole(bs: seq<Byte>)
    requires SplitFrames(bs).Split?
    ensures var s := SplitFrames(bs); bs[..s.used] == EncodeAll(s.frames) && forall f :: f in s.frames ==> Representable(f)
    decreases |bs|
  {
    hide EncodeFrame, DecodeFrame, Representable;
    var s := SplitFrames(bs);
    var d := DecodeFrame(bs);
    if d.Complete? {
      var t := SplitFrames(bs[d.size..]);
      EncodeDecodedFrame(bs);
      SplitIsWhole(bs[d.size..]);
      assert bs[..s.used] == bs[..d.size] + bs[d.size..][..t.used];
      assert ([d.frame] + t.frames)[1..] == t.frames;
    }
  }

  /** What a split leaves over contains no whole frame. */
  lemma {:induction false} LeftoverHasNoFrame(bs: seq<Byte>)
    requires SplitFrames(bs).Split?
    ensures SplitFrames(bs[SplitFrames(bs).used..]) == Split([], 0)
    decreases |bs|
  {
    hide DecodeFrame;
    var d := DecodeFrame(bs);
    if d.Complete? {
      var t := SplitFrames(bs[d.size..]);
      LeftoverHasNoFrame(bs[d.size..]);
      assert bs[d.size..][t.used..] == bs[d.size + t.used..];
    } else {
      assert bs[0..] == bs;
    }
  }

  lemma EncodeAllStep(f: Frame, fs: seq<Frame>)
    ensures EncodeAll([f] + fs) == EncodeFrame(f) + EncodeAll(fs)
  {
    hide EncodeFrame;
    assert ([f] + fs)[1..] == fs;
  }

  lemma {:induction false} EncodeAllConcat(a: seq<Frame>, b: seq<Frame>)
    ensures EncodeAll(a + b) == EncodeAll(a) + EncodeAll(b)
  {
    if a == [] {
      assert a + b == b;
    } else {
      hide EncodeFrame, EncodeAll;
      EncodeAllConcat(a[1..], b);
      assert a == [a[0]] + a[1..];
      EncodeAllStep(a[0], a[1..]);
      EncodeAllStep(a[0], a[1..] + b);
      ConcatAssociates([a[0]], a[1..], b);
      ConcatAssociates(EncodeFrame(a[0]), EncodeAll(a[1..]), EncodeAll(b));
    }
  }

  /** Taking whole frames off the front of a stream leaves a stream. */
  lemma {:induction false} StreamBehindFrames(fs: seq<Frame>, tail: seq<Byte>)
    requires forall f :: f in fs ==> Representable(f)
    requires FrameStream(EncodeAll(fs) + tail)
    ensures FrameStream(tail)
  {
    hide EncodeFrame, DecodeFrame, Representable, FrameStream;
    if fs == [] {
      assert EncodeAll(fs) + tail == tail;
    } else {
      var rest := EncodeAll(fs[1..]) + tail;
      assert EncodeAll(fs) + tail == EncodeFrame(fs[0]) + rest;
      DecodeEncodedFrame(fs[0], rest);
      StreamStep(EncodeFrame(fs[0]) + rest);
      assert (EncodeFrame(fs[0]) + rest)[|EncodeFrame(fs[0])|..] == rest;
      StreamBehindFrames(fs[1..], tail);
    }
  }

  lemma {:induction false} SplitEncodedFrames(fs: seq<Frame>, tail: seq<Byte>)
    requires forall f :: f in fs ==> Representable(f)
    ensures SplitFrames(EncodeAll(fs) + tail) == After(Split(fs, |EncodeAll(fs)|), SplitFrames(tail))
  {
    hide EncodeFrame, DecodeFrame, Representable;
    if fs == [] {
      assert EncodeAll(fs) + tail == tail;
      AfterNothing(SplitFrames(tail));
    } else {
      hide EncodeAll, SplitFrames;
      var f, others := fs[0], fs[1..];
      var n, rest, bs := |EncodeFrame(f)|, EncodeAll(others) + tail, EncodeAll(fs) + tail;
      assert fs == [f] + others;
      EncodeAllStep(f, others);
      ConcatAssociates(EncodeFrame(f), EncodeAll(others), tail);
      DecodeEncodedFrame(f, rest);
      assert bs[n..] == rest;
      SplitEncodedFrames(others, tail);
      SplitStep(bs, f, n);
      AheadAfter(f, n, Split(others, |EncodeAll(others)|), SplitFrames(tail));
    }
  }

  /** No other sequence of whole frames at the front of `bs` is longer. */
  lemma {:induction false} SplitIsLongest(bs: seq<Byte>, fs: seq<Frame>)
    requires SplitFrames(bs).Split?
    requires forall f :: f in fs ==> Representable(f)
    requires EncodeAll(fs) <= bs
    ensures |EncodeAll(fs)| <= SplitFrames(bs).used
    ensures fs <= SplitFrames(bs).frames
  {
    hide EncodeFrame, DecodeFrame, Representable;
    if fs != [] {
      var tail := bs[|EncodeFrame(fs[0])|..];
      assert bs == EncodeFrame(fs[0]) + tail;
      DecodeEncodedFrame(fs[0], tail);
      assert EncodeAll(fs[1..]) <= tail;
      SplitIsLongest(tail, fs[1..]);
    }
  }
}
