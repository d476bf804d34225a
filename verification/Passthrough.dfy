/** An open connection fed in arbitrary pieces behaves as if it had been fed all at once. */
module Passthrough {
  import opened Bytes
  import opened Frames
  import opened ConnectorModel
  import opened PacketModel

  datatype Fed = Fed(forwarded: seq<seq<Byte>>, held: seq<Byte>, frames: nat, bytes: nat) | FeedThrew

  function Concat(chunks: seq<seq<Byte>>): seq<Byte> {
    if chunks == [] then [] else chunks[0] + Concat(chunks[1..])
  }

  /** Each read is processed behind what the one before left over. */
  function Feed(c: Conn, flow: Flow, info: SessionInfo, held: seq<Byte>, chunks: seq<seq<Byte>>): Fed
    decreases |chunks|
  {
    if chunks == [] then Fed([], held, 0, 0)
    else
      match Process(c, flow, info, held + chunks[0])
      case Refused(_, _) => FeedThrew
      case Processed(c', ingressWrite, egressWrite, held', frames, passed) =>
        match Feed(c', flow, info, held', chunks[1..])
        case FeedThrew => FeedThrew
        case Fed(forwarded, last, n, m) =>
          Fed([if flow.Ingress? then egressWrite else ingressWrite] + forwarded, last, frames + n, passed + m)
  }

  lemma CutInTwo(a: seq<Byte>, b: seq<Byte>, i: nat, j: nat)
    requires i <= |a| && i + j <= |a| + |b|
    ensures (a + b)[..i + j] == a[..i] + (a[i..] + b)[..j]
    ensures (a + b)[i + j..] == (a[i..] + b)[j..]
  {
  }

  /**
   * For any stream of frames within the maximum size, perhaps ending in a partial frame,
   * and any way it is cut into reads: nothing throws, the forwarded slices together are
   * the whole frames of the stream, the rest is held, and the frame and byte counts are
   * those of processing it in one go.
   */
  lemma {:induction false} ReadsDoNotMatter(c: Conn, flow: Flow, info: SessionInfo, held: seq<Byte>, chunks: seq<seq<Byte>>)
    requires c.state.Open?
    requires FrameStream(held + Concat(chunks)) && SplitFrames(held) == Split([], 0)
    ensures var r, stream := Feed(c, flow, info, held, chunks), held + Concat(chunks);
      var s := SplitFrames(stream);
      && s.Split? && r.Fed?
      && Concat(r.forwarded) == stream[..s.used]
      && r.held == stream[s.used..]
      && r.frames == |s.frames|
      && r.bytes == s.used
    decreases |chunks|
  {
    hide FrameStream, SplitFrames, Process;
    var stream := held + Concat(chunks);
    if chunks == [] {
      assert stream == held;
    } else {
      var a, b := held + chunks[0], Concat(chunks[1..]);
      assert stream == a + b;
      SplitResumes(a, b);
      LeftoverHasNoFrame(a);
      OpenPassesThrough(c, flow, info, a);
      var s, t := SplitFrames(a), SplitFrames(a[SplitFrames(a).used..] + b);
      ReadsDoNotMatter(c, flow, info, a[s.used..], chunks[1..]);
      CutInTwo(a, b, s.used, t.used);
      var rest := Feed(c, flow, info, a[s.used..], chunks[1..]);
      assert ([a[..s.used]] + rest.forwarded)[1..] == rest.forwarded;
    }
  }

  /**
   * Without the bound on the frame size reads do matter: a frame is accepted however it is
   * cut exactly when it is no larger than the maximum.
   */
  lemma CutAnywhereIffWithinMaximum(f: Frame)
    requires Representable(f)
    ensures SplitFrames(EncodeFrame(f)) == Split([f], |EncodeFrame(f)|)
    ensures |EncodeFrame(f)| <= MAX_FRAME_SIZE <==>
      forall k :: 0 <= k <= |EncodeFrame(f)| ==> SplitFrames(EncodeFrame(f)[..k]).Split?
  {
    var bs, n := EncodeFrame(f), |EncodeFrame(f)|;
    hide EncodeFrame, ToUnsigned, Representable;
    assert bs + [] == bs;
    DecodeEncodedFrame(f, []);
    assert bs[n..] == [];
    forall k | 0 <= k < n
      ensures SplitFrames(bs[..k]).Split? <==> k < FRAME_OVERHEAD || n <= MAX_FRAME_SIZE
    {
      if k >= FRAME_OVERHEAD {
        DecodeIgnoresWhatFollows(bs[..k], bs[k..]);
        assert bs[..k] + bs[k..] == bs;
      }
    }
    assert bs[..n] == bs;
    if n > MAX_FRAME_SIZE {
      assert !SplitFrames(bs[..FRAME_OVERHEAD]).Split?;
    }
  }
}
