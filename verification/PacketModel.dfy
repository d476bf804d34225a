/**
 * One pass over what has been read from a socket: the protocol header or whole frames are
 * taken off the front, methods go to the connector until the connection is open, and from
 * then on whole frames are passed through untouched.
 */
module PacketModel {
  import opened Bytes
  import opened Frames
  import opened Methods
  import opened ConnectorModel

  const PROTOCOL_HEADER_LENGTH: nat := 8

  /** `ShortMethod`: a method frame without room for the class and method numbers. */
  datatype Refusal = BadFrame | ConnectorFailed(error: Failure) | ShortMethod

  /**
   * What goes to the client, to the broker, and what stays for the next read. A pass that ends
   * in an exception may have taken memory for replies before.
   */
  datatype Processed =
    | Processed(conn: Conn, ingressWrite: seq<Byte>, egressWrite: seq<Byte>, held: seq<Byte>, frames: nat, passed: nat)
    | Refused(why: Refusal, replies: nat)

  function ToReceived(payload: seq<Byte>): Received
    requires |payload| >= 4
  {
    Received(ToUnsigned(payload[..2]), ToUnsigned(payload[2..4]), payload[4..])
  }

  /** Where the connector's out-buffer goes. */
  function Write(c: Conn): (seq<Byte>, seq<Byte>) {
    if c.toIngress then (c.out, []) else ([], c.out)
  }

  type Writes = (seq<Byte>, seq<Byte>)

  datatype Taken = Taken(conn: Conn, w: Writes) | NotTaken(why: Refusal)

  /** One whole frame: only a connection method before the open state means anything. */
  function TakeFrame(c: Conn, flow: Flow, info: SessionInfo, f: Frame, w: Writes): Taken {
    if f.kind != 1 || c.state.Open? then Taken(c, w)
    else if |f.payload| < 4 then NotTaken(ShortMethod)
    else
      var m := ToReceived(f.payload);
      if m.classId != CONNECTION_CLASS then Taken(c, w)
      else
        match ReceiveMethod(c, m, flow, info)
        case Thrown(error) => NotTaken(ConnectorFailed(error))
        case Next(c') => Taken(c', Write(c'))
  }

  /** The loop over whole frames; `passed` is not known before it ends. */
  function TakeFrames(c: Conn, flow: Flow, info: SessionInfo, bs: seq<Byte>, w: Writes, frames: nat): (r: Processed)
    decreases |bs|
  {
    match DecodeFrame(bs)
    case Incomplete => Processed(c, w.0, w.1, bs, frames, 0)
    case Oversize => Refused(BadFrame, c.replies)
    case BadEnd => Refused(BadFrame, c.replies)
    case Complete(f, size) =>
      match TakeFrame(c, flow, info, f, w)
      case NotTaken(why) => Refused(why, c.replies)
      case Taken(c', w') => TakeFrames(c', flow, info, bs[size..], w', frames + 1)
  }

  lemma TakeStep(c: Conn, flow: Flow, info: SessionInfo, bs: seq<Byte>, w: Writes, frames: nat)
    ensures var d := DecodeFrame(bs);
      TakeFrames(c, flow, info, bs, w, frames) ==
        if d.Incomplete? then Processed(c, w.0, w.1, bs, frames, 0)
        else if !d.Complete? then Refused(BadFrame, c.replies)
        else
          var t := TakeFrame(c, flow, info, d.frame, w);
          if t.NotTaken? then Refused(t.why, c.replies) else TakeFrames(t.conn, flow, info, bs[d.size..], t.w, frames + 1)
  {
    hide DecodeFrame, TakeFrame;
  }

  /** Once open, what was consumed is passed on, whatever the connector had queued. */
  function PassThrough(r: Processed, flow: Flow, bs: seq<Byte>): Processed
    requires r.Processed? ==> |r.held| <= |bs|
  {
    if r.Processed? && r.conn.state.Open? then
      var n := |bs| - |r.held|;
      var r := r.(passed := n);
      if flow.Ingress? then r.(egressWrite := bs[..n], ingressWrite := [])
      else r.(egressWrite := [], ingressWrite := bs[..n])
    else r
  }

  lemma {:induction false} TakenIsSuffix(c: Conn, flow: Flow, info: SessionInfo, bs: seq<Byte>, w: Writes, frames: nat)
    ensures var r := TakeFrames(c, flow, info, bs, w, frames);
      r.Processed? ==>
        && |r.held| <= |bs|
        && r.held == bs[|bs| - |r.held|..]
        && |r.held| < MAX_FRAME_SIZE
    decreases |bs|
  {
    hide TakeFrame, ToUnsigned;
    var d := DecodeFrame(bs);
    if d.Complete? {
      var t := TakeFrame(c, flow, info, d.frame, w);
      if t.Taken? {
        TakenIsSuffix(t.conn, flow, info, bs[d.size..], t.w, frames + 1);
      }
    }
  }

  function Process(c: Conn, flow: Flow, info: SessionInfo, bs: seq<Byte>): (r: Processed) {
    if c.state.AwaitingProtocolHeader? then
      if |bs| < PROTOCOL_HEADER_LENGTH then Processed(c, [], [], bs, 0, 0)
      else
        match ReceiveHeader(c, bs)
        case Thrown(error) => Refused(ConnectorFailed(error), c.replies)
        case Next(c') => Processed(c', Write(c').0, Write(c').1, [], 0, 0)
    else
      TakenIsSuffix(c, flow, info, bs, ([], []), 0);
      PassThrough(TakeFrames(c, flow, info, bs, ([], []), 0), flow, bs)
  }

  /** In every state, what is held back is shorter than the largest frame. */
  lemma HeldIsShort(c: Conn, flow: Flow, info: SessionInfo, bs: seq<Byte>)
    ensures var r := Process(c, flow, info, bs); r.Processed? ==> |r.held| < MAX_FRAME_SIZE && |r.held| <= |bs|
  {
    hide TakeFrames, ReceiveHeader;
    TakenIsSuffix(c, flow, info, bs, ([], []), 0);
  }

  lemma {:induction false} OpenTakes(c: Conn, flow: Flow, info: SessionInfo, bs: seq<Byte>, w: Writes, frames: nat)
    requires c.state.Open?
    ensures var s := SplitFrames(bs);
      TakeFrames(c, flow, info, bs, w, frames) ==
        if s.Threw? then Refused(BadFrame, c.replies) else Processed(c, w.0, w.1, bs[s.used..], frames + |s.frames|, 0)
    decreases |bs|
  {
    hide ReceiveMethod, ToReceived, DecodeFrame;
    var d := DecodeFrame(bs);
    if d.Complete? {
      OpenTakes(c, flow, info, bs[d.size..], w, frames + 1);
      var s := SplitFrames(bs[d.size..]);
      if s.Split? {
        assert bs[d.size..][s.used..] == bs[d.size + s.used..];
      }
    }
  }

  /**
   * While open, processing is splitting: the connector is left alone, the whole frames go
   * to the other side as they are, the rest is held.
   */
  lemma OpenPassesThrough(c: Conn, flow: Flow, info: SessionInfo, bs: seq<Byte>)
    requires c.state.Open?
    ensures var s := SplitFrames(bs);
      Process(c, flow, info, bs) ==
        if s.Threw? then Refused(BadFrame, c.replies)
        else if flow.Ingress? then Processed(c, [], bs[..s.used], bs[s.used..], |s.frames|, s.used)
        else Processed(c, bs[..s.used], [], bs[s.used..], |s.frames|, s.used)
  {
    hide TakeFrames, SplitFrames;
    OpenTakes(c, flow, info, bs, ([], []), 0);
  }

  /**
   * The read that opens the connection passes all of its whole frames through, so the
   * broker's own OpenOk takes the place of the synthesized one.
   */
  lemma OpeningPassesThrough(c: Conn, flow: Flow, info: SessionInfo, bs: seq<Byte>)
    requires !c.state.AwaitingProtocolHeader?
    requires Process(c, flow, info, bs).Processed? && Process(c, flow, info, bs).conn.state.Open?
    ensures var r := Process(c, flow, info, bs);
      && (if flow.Ingress? then r.egressWrite else r.ingressWrite) + r.held == bs
      && (if flow.Ingress? then r.ingressWrite else r.egressWrite) == []
      && r.passed == |bs| - |r.held|
  {
    hide TakeFrames;
    TakenIsSuffix(c, flow, info, bs, ([], []), 0);
  }

  lemma ShortIsIncomplete(bs: seq<Byte>)
    requires |bs| < FRAME_OVERHEAD
    ensures DecodeFrame(bs) == Incomplete
  {
  }

  /** Whatever the methods did to the connector, the frames taken are those of the split, and no whole one is left. */
  lemma {:induction false} TakenSplits(c: Conn, flow: Flow, info: SessionInfo, bs: seq<Byte>, w: Writes, frames: nat)
    ensures var r := TakeFrames(c, flow, info, bs, w, frames); var s := SplitFrames(bs);
      r.Processed? ==>
        && s.Split? && s.used == |bs| - |r.held| && frames + |s.frames| == r.frames
        && SplitFrames(r.held) == Split([], 0)
    decreases |bs|
  {
    hide TakeFrames, TakeFrame, DecodeFrame;
    TakeStep(c, flow, info, bs, w, frames);
    var d := DecodeFrame(bs);
    if d.Complete? {
      var t := TakeFrame(c, flow, info, d.frame, w);
      if t.Taken? {
        TakenSplits(t.conn, flow, info, bs[d.size..], t.w, frames + 1);
        SplitStep(bs, d.frame, d.size);
      }
    }
  }

  /** What a pass holds back contains no whole frame, and while open it counts and passes on all the others. */
  lemma PassSplits(c: Conn, flow: Flow, info: SessionInfo, bs: seq<Byte>)
    requires Process(c, flow, info, bs).Processed?
    ensures var r := Process(c, flow, info, bs); var s := SplitFrames(bs);
      && SplitFrames(r.held) == Split([], 0)
      && |r.held| <= |bs| && r.held == bs[|bs| - |r.held|..]
      && (r.conn.state.Open? ==> s.Split? && s.used == r.passed == |bs| - |r.held| && |s.frames| == r.frames)
  {
    hide TakeFrames, SplitFrames, Send;
    TakenSplits(c, flow, info, bs, ([], []), 0);
    TakenIsSuffix(c, flow, info, bs, ([], []), 0);
    if c.state.AwaitingProtocolHeader? {
      FewSplitNothing(if |bs| < PROTOCOL_HEADER_LENGTH then bs else []);
    }
  }

  lemma FewSplitNothing(bs: seq<Byte>)
    requires |bs| < FRAME_OVERHEAD
    ensures SplitFrames(bs) == Split([], 0)
  {
  }

  lemma HeaderDoesNotOpen(c: Conn, flow: Flow, info: SessionInfo, bs: seq<Byte>)
    requires c.state.AwaitingProtocolHeader?
    ensures var r := Process(c, flow, info, bs); r.Processed? ==> !r.conn.state.Open?
  {
    hide Transmit;
  }

  lemma PassIsCounted(c: Conn, flow: Flow, info: SessionInfo, bs: seq<Byte>)
    requires !c.state.AwaitingProtocolHeader?
    ensures var r := Process(c, flow, info, bs);
      r.Processed? && r.conn.state.Open? ==> |r.held| <= |bs| && r.passed == |bs| - |r.held|
  {
    hide TakeFrames;
    TakenIsSuffix(c, flow, info, bs, ([], []), 0);
  }

  // ----- memory for replies

  /** How often memory for replies had been taken when the pass was over. */
  function RepliesAfter(r: Processed): nat {
    if r.Processed? then r.conn.replies else r.replies
  }

  lemma MethodTakesMemory(c: Conn, m: Received, flow: Flow, info: SessionInfo)
    requires ReceiveMethod(c, m, flow, info).Next?
    ensures var r := ReceiveMethod(c, m, flow, info).conn;
      c.replies <= r.replies && (r.out != [] ==> c.replies < r.replies)
  {
    hide Transmit, Ascii, InjectIdent, Mismatch, Undecodable, DecodeStartOk, DecodeStart, DecodeTune, DecodeOpen, DecodeClose;
    if c.state.ClientCloseSent? || c.state.ServerCloseSent? {
      hide ReceiveStartOk, ReceiveTuneOk, ReceiveOpen, ReceiveStart, ReceiveTune, ReceiveOpenOk;
    } else {
      hide ReceiveAfterClientClose, ReceiveAfterServerClose;
    }
  }

  /** The count never falls, and what there is to write, short of the open state, lies in memory taken by this pass. */
  lemma {:induction false} FramesTakeMemory(c: Conn, flow: Flow, info: SessionInfo, bs: seq<Byte>, w: Writes, n: nat, before: nat)
    requires before <= c.replies && (w != ([], []) ==> before < c.replies)
    ensures var r := TakeFrames(c, flow, info, bs, w, n);
      && before <= RepliesAfter(r)
      && (r.Processed? && (r.ingressWrite != [] || r.egressWrite != []) ==> before < r.conn.replies)
    decreases |bs|
  {
    hide TakeFrames, DecodeFrame, ReceiveMethod, ToReceived;
    TakeStep(c, flow, info, bs, w, n);
    var d := DecodeFrame(bs);
    if d.Complete? {
      var t := TakeFrame(c, flow, info, d.frame, w);
      if t.Taken? {
        if d.frame.kind == 1 && !c.state.Open? && |d.frame.payload| >= 4 && ToReceived(d.frame.payload).classId == CONNECTION_CLASS {
          MethodTakesMemory(c, ToReceived(d.frame.payload), flow, info);
        }
        FramesTakeMemory(t.conn, flow, info, bs[d.size..], t.w, n + 1, before);
      }
    }
  }

  lemma PassTakesMemory(c: Conn, flow: Flow, info: SessionInfo, bs: seq<Byte>)
    ensures var r := Process(c, flow, info, bs);
      && c.replies <= RepliesAfter(r)
      && (r.Processed? && !r.conn.state.Open? && !r.conn.state.Error? && (c.state.AwaitingProtocolHeader? ==> c.out == []) ==>
            (r.ingressWrite != [] || r.egressWrite != [] ==> c.replies < r.conn.replies))
  {
    hide TakeFrames, Transmit;
    FramesTakeMemory(c, flow, info, bs, ([], []), 0, c.replies);
  }
}
