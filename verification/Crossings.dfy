/** Which side a read is answered to, said of the connector and of the frames that were read. */
module Crossings {
  import opened Bytes
  import opened FieldValues
  import opened Frames
  import opened Methods
  import opened ConnectorModel
  import opened ConnectorRuns
  import opened Handshake
  import opened PacketModel
  import opened Options
  import opened SessionModel
  import opened SessionRuns

  // ----- said of the connector

  lemma {:induction false} FramesWrite(c: Conn, flow: Flow, info: SessionInfo, bs: seq<Byte>, w: Writes, n: nat)
    requires w == ([], []) || w == Write(c)
    ensures var r := TakeFrames(c, flow, info, bs, w, n);
      r.Processed? ==> (r.ingressWrite, r.egressWrite) == ([], []) || (r.ingressWrite, r.egressWrite) == Write(r.conn)
    decreases |bs|
  {
    hide TakeFrames, DecodeFrame, ReceiveMethod, ToReceived;
    TakeStep(c, flow, info, bs, w, n);
    var d := DecodeFrame(bs);
    if d.Complete? {
      var t := TakeFrame(c, flow, info, d.frame, w);
      if t.Taken? {
        FramesWrite(t.conn, flow, info, bs[d.size..], t.w, n + 1);
      }
    }
  }

  /** Short of the open state, a response goes to the side the connector names. */
  lemma ResponseSide(c: Conn, flow: Flow, info: SessionInfo, bs: seq<Byte>)
    requires Process(c, flow, info, bs).Processed? && !Process(c, flow, info, bs).conn.state.Open?
    ensures var r := Process(c, flow, info, bs);
      && (WriteFor(r, flow).Some? ==> WriteFor(r, flow).value == (if r.conn.toIngress then Ingress else Egress) && r.conn.out != [])
      && (r.ingressWrite == [] || r.egressWrite == [])
  {
    hide TakeFrames, Transmit;
    FramesWrite(c, flow, info, bs, ([], []), 0);
  }

  /**
   * Being aligned, said of the connector: an answer short of the open state is for the side that
   * was read, except that a closing session may answer the other one when no passthrough write
   * is in flight there; and no reply is in flight when memory is taken for another.
   */
  lemma AlignedIsSameSide(s: Session, h: Happening)
    requires Enabled(s, h) && h.Read? && !(h.flow.Ingress? && h.paused)
    ensures var r := Answer(s, h);
      Aligned(s, h) <==>
      && (r.Processed? && !r.conn.state.Open? && WriteFor(r, h.flow).Some? ==>
            || r.conn.toIngress == h.flow.Ingress?
            || (Closing(r.conn.state) && NoPooled(if h.flow.Ingress? then s.egress else s.ingress)))
      && (s.conn.replies < RepliesAfter(r) ==> Quiet(s))
  {
    hide Process, Quiet, NoPooled;
    var filled := Filled(s, h.flow, h.available, h.chunk);
    var r := Answer(s, h);
    if r.Processed? {
      if r.conn.state.Open? {
        OpenWritesAlong(filled.conn, h.flow, h.info, Of(filled, h.flow).held);
      } else {
        ResponseSide(filled.conn, h.flow, h.info, Of(filled, h.flow).held);
      }
    }
  }

  lemma ClosingMethodAnswer(c: Conn, m: Received, info: SessionInfo)
    requires Closing(c.state)
    ensures var r := ReceiveMethod(c, m, Egress, info); r.Next? ==> r.conn.out == [] || !r.conn.toIngress
  {
    hide Transmit, Ascii;
  }

  /** While closing, too, the broker is answered alone. */
  lemma {:induction false} ClosingFramesAnswer(c: Conn, info: SessionInfo, bs: seq<Byte>, w: Writes, n: nat)
    requires Closing(c.state) && w.0 == []
    ensures var r := TakeFrames(c, Egress, info, bs, w, n); r.Processed? ==> r.ingressWrite == []
    decreases |bs|
  {
    hide TakeFrames, DecodeFrame, ReceiveMethod, ToReceived;
    TakeStep(c, Egress, info, bs, w, n);
    var d := DecodeFrame(bs);
    if d.Complete? {
      var t := TakeFrame(c, Egress, info, d.frame, w);
      if t.Taken? {
        if d.frame.kind == 1 && |d.frame.payload| >= 4 {
          MethodStaysClosing(c, ToReceived(d.frame.payload), Egress, info);
          ClosingMethodAnswer(c, ToReceived(d.frame.payload), info);
        }
        ClosingFramesAnswer(t.conn, info, bs[d.size..], t.w, n + 1);
      }
    }
  }

  lemma ClosingPassAnswers(c: Conn, info: SessionInfo, bs: seq<Byte>)
    requires Closing(c.state) && Process(c, Egress, info, bs).Processed?
    ensures Process(c, Egress, info, bs).ingressWrite == [] && !Process(c, Egress, info, bs).conn.state.Open?
  {
    hide TakeFrames;
    ClosingFramesAnswer(c, info, bs, ([], []), 0);
    FramesStayClosing(c, Egress, info, bs, ([], []), 0);
  }

  /** What the broker sends is answered to the broker, if at all, in every state. */
  lemma BrokerNeverCrosses(s: Session, h: Happening)
    requires Safe(s) && Enabled(s, h) && h.Read? && h.flow.Egress?
    ensures !Crosses(s, h)
  {
    hide Process, Stage, SplitFrames, SideSafe;
    var filled := Filled(s, h.flow, h.available, h.chunk);
    var r := Answer(s, h);
    if r.Processed? {
      if r.conn.state.Open? {
        OpenWritesAlong(filled.conn, h.flow, h.info, Of(filled, h.flow).held);
      } else if Closing(s.conn.state) {
        ClosingPassAnswers(filled.conn, h.info, Of(filled, h.flow).held);
      } else {
        PassAnswers(filled.conn, h.flow, h.info, Of(filled, h.flow).held);
      }
    }
  }

  /** Short of closing, then, every read of the broker's is aligned. */
  lemma BrokerReadsAligned(s: Session, h: Happening)
    requires Safe(s) && !Closing(s.conn.state) && Enabled(s, h) && h.Read? && h.flow.Egress?
    ensures Aligned(s, h)
  {
    hide Process, SplitFrames, Crosses;
    BrokerNeverCrosses(s, h);
    assert s.egress.writes == [] && s.connected;
  }

  /** Only a client's read crosses; short of closing, only in the last steps towards the broker. */
  lemma CrossingAnswer(s: Session, h: Happening)
    requires Safe(s) && Enabled(s, h) && Crosses(s, h)
    ensures h.Read? && h.flow.Ingress? && !h.paused && TakesReply(s, h)
    ensures var r := Answer(s, h);
      && r.Processed? && r.ingressWrite == [] && r.egressWrite != [] && !r.conn.state.Open? && !r.conn.state.Error?
      && |r.conn.vhost| <= SHORT_STRING_LIMIT && (Closing(r.conn.state) <==> Closing(s.conn.state))
      && (!Closing(s.conn.state) ==> r.conn.state.StartOkSent? || r.conn.state.OpenSent?)
  {
    if h.flow.Egress? {
      BrokerNeverCrosses(s, h);
    }
    var filled := Filled(s, h.flow, h.available, h.chunk);
    var r, c, bs := Answer(s, h), filled.conn, Of(filled, Ingress).held;
    assert ConnSafe(c, false) && c == s.conn && r == Process(c, Ingress, h.info, bs);
    hide Process, Stage, Filled, Safe;
    if r.conn.state.Open? {
      OpenWritesAlong(c, Ingress, h.info, bs);
    } else {
      ResponseSide(c, Ingress, h.info, bs);
      PassAdvances(c, Ingress, h.info, bs);
      PassTakesMemory(c, Ingress, h.info, bs);
      if !Closing(c.state) {
        PassAnswers(c, Ingress, h.info, bs);
      }
    }
  }

  /**
   * Which of a client's methods are answered to the broker: a Start while the broker's is
   * awaited, if the StartOk fits, and a Tune while the broker's is awaited.
   */
  lemma AnsweredToBrokerIff(c: Conn, m: Received, info: SessionInfo)
    requires 0 <= Stage(c.state) < 7 && |c.vhost| <= SHORT_STRING_LIMIT && ReceiveMethod(c, m, Ingress, info).Next?
    ensures var r := ReceiveMethod(c, m, Ingress, info).conn;
      (r.out != [] && !r.toIngress) <==>
      (c.state.AwaitingConnection? && FitsFrame(StartOkMethod(InjectIdent(c.startOk, info)))) || c.state.StartOkSent?
  {
    hide Transmit, EncodeFrame, FitsFrame, ResponseFrame, Ascii, InjectIdent, Mismatch, Undecodable,
      DecodeStartOk, DecodeStart, DecodeTune, DecodeOpen, DecodeClose;
    TransmittedIffFits(StartOkMethod(InjectIdent(c.startOk, info)));
    TuneOkAndOpenFit(c.tuneOk, c.vhost);
    TransmittedIffFits(TuneOkMethod(c.tuneOk));
    TransmittedIffFits(OpenMethod(c.vhost));
  }

  // ----- said of the frames of a client's read

  predicate IsConnectionMethod(f: Frame) {
    f.kind == 1 && |f.payload| >= 4 && ToReceived(f.payload).classId == CONNECTION_CLASS
  }

  /** How many connection methods there are among some frames. */
  function ConnectionMethods(fs: seq<Frame>): nat {
    if fs == [] then 0 else (if IsConnectionMethod(fs[0]) then 1 else 0) + ConnectionMethods(fs[1..])
  }

  /** The client's StartOk as it is stored once the read is over, before the identity is appended. */
  function Absorbed(c: Conn, fs: seq<Frame>): StartOk {
    if !c.state.StartSent? || fs == [] then c.startOk
    else if !IsConnectionMethod(fs[0]) then Absorbed(c, fs[1..])
    else
      var r := DecodeStartOk(ToReceived(fs[0].payload).payload);
      if r.Ok? then Absorb(c.startOk, r.value) else c.startOk
  }

  /** One method accepted takes the handshake one step on, until the broker's OpenOk is awaited. */
  lemma MethodCounts(c: Conn, m: Received, info: SessionInfo)
    requires 1 <= Stage(c.state) < 7 && |c.vhost| <= SHORT_STRING_LIMIT && ReceiveMethod(c, m, Ingress, info).Next?
    ensures var r := ReceiveMethod(c, m, Ingress, info).conn;
      && |r.vhost| <= SHORT_STRING_LIMIT
      && (Stage(c.state) <= 5 ==> Stage(r.state) == Stage(c.state) + 1)
      && (Stage(c.state) == 6 ==> r.state.Open? || r.state.OpenSent?)
      && r.startOk == (if c.state.StartSent? then Absorb(c.startOk, DecodeStartOk(m.payload).value)
                       else if c.state.AwaitingConnection? then InjectIdent(c.startOk, info) else c.startOk)
      && (c.state.StartSent? ==> DecodeStartOk(m.payload).Ok?)
  {
    hide Transmit, Ascii, InjectIdent, Absorb, Mismatch, Undecodable, DecodeStartOk, DecodeStart, DecodeTune, DecodeOpen, DecodeClose;
    if DecodeOpen(m.payload).Ok? {
      DecodedOpenIsShort(m.payload);
    }
  }

  /** What the frames of a read come to. */
  ghost predicate Comes(c: Conn, info: SessionInfo, w: Writes, fs: seq<Frame>, r: Processed)
    requires r.Processed?
  {
    var st, k := Stage(c.state), ConnectionMethods(fs);
    && (k == 0 ==> r.conn == c && (r.ingressWrite, r.egressWrite) == w)
    && (r.conn.state.Open? && st < 7 ==> st + k >= 7)
    && (st >= 5 ==> r.conn.startOk == c.startOk)
    && (k > 0 && st <= 4 && st + k >= 5 ==> r.conn.startOk == InjectIdent(Absorbed(c, fs), info))
    && (k > 0 && !r.conn.state.Open? ==>
          (r.egressWrite != [] <==> st + k == 6 || (st + k == 5 && FitsFrame(StartOkMethod(r.conn.startOk)))))
  }

  lemma MethodComes(c: Conn, info: SessionInfo, w: Writes, f: Frame, rest: seq<Frame>, r: Processed)
    requires 1 <= Stage(c.state) < 7 && |c.vhost| <= SHORT_STRING_LIMIT && r.Processed? && IsConnectionMethod(f)
    requires var t := ReceiveMethod(c, ToReceived(f.payload), Ingress, info); t.Next? && Comes(t.conn, info, Write(t.conn), rest, r)
    ensures Comes(c, info, w, [f] + rest, r)
  {
    hide ReceiveMethod, FitsFrame, InjectIdent, DecodeStartOk, Absorb, ToReceived;
    var m := ToReceived(f.payload);
    var t := ReceiveMethod(c, m, Ingress, info).conn;
    MethodCounts(c, m, info);
    AnsweredToBrokerIff(c, m, info);
    assert ([f] + rest)[1..] == rest;
    if !t.state.StartSent? {
      assert Absorbed(t, rest) == t.startOk;
    }
  }

  lemma {:induction false} FramesCome(c: Conn, info: SessionInfo, bs: seq<Byte>, w: Writes, n: nat)
    requires 1 <= Stage(c.state) && |c.vhost| <= SHORT_STRING_LIMIT && TakeFrames(c, Ingress, info, bs, w, n).Processed?
    ensures SplitFrames(bs).Split? && Comes(c, info, w, SplitFrames(bs).frames, TakeFrames(c, Ingress, info, bs, w, n))
    decreases |bs|
  {
    hide TakeFrames, DecodeFrame, ReceiveMethod, ToReceived, Comes, SplitFrames;
    TakeStep(c, Ingress, info, bs, w, n);
    TakenSplits(c, Ingress, info, bs, w, n);
    var d := DecodeFrame(bs);
    var r := TakeFrames(c, Ingress, info, bs, w, n);
    if d.Complete? {
      var f := d.frame;
      var t := TakeFrame(c, Ingress, info, f, w);
      MethodTaken(c, Ingress, info, f, w);
      FramesCome(t.conn, info, bs[d.size..], t.w, n + 1);
      var rest := SplitFrames(bs[d.size..]).frames;
      SplitStep(bs, f, d.size);
      if IsConnectionMethod(f) && !c.state.Open? {
        MethodComes(c, info, w, f, rest, r);
      } else {
        OtherComes(c, info, w, f, rest, r);
      }
    } else {
      NothingComes(c, info, w, r);
      SplitOfNothing(bs);
    }
  }

  lemma OtherComes(c: Conn, info: SessionInfo, w: Writes, f: Frame, rest: seq<Frame>, r: Processed)
    requires r.Processed? && Comes(c, info, w, rest, r) && (c.state.Open? || !IsConnectionMethod(f))
    ensures Comes(c, info, w, [f] + rest, r)
  {
    hide FitsFrame, InjectIdent, ToReceived;
    assert ([f] + rest)[1..] == rest;
  }

  lemma NothingComes(c: Conn, info: SessionInfo, w: Writes, r: Processed)
    requires r.Processed? && r.conn == c && (r.ingressWrite, r.egressWrite) == w
    ensures Comes(c, info, w, [], r)
  {
  }

  lemma SplitOfNothing(bs: seq<Byte>)
    requires DecodeFrame(bs).Incomplete?
    ensures SplitFrames(bs) == Split([], 0)
  {
  }

  /**
   * Exactly when a client's read is answered to the broker, short of closing: when its connection
   * methods take the handshake as far as the StartOk, and that fits a frame, or exactly as far as
   * the TuneOk and Open. Every method accepted is one step.
   */
  lemma ClientReadCrossesIff(s: Session, h: Happening)
    requires Safe(s) && !Closing(s.conn.state) && Enabled(s, h) && h.Read? && h.flow.Ingress? && !h.paused && Answer(s, h).Processed?
    ensures var fs := SplitFrames(s.ingress.held + h.chunk); var st := Stage(s.conn.state);
      Crosses(s, h) <==>
      && st >= 1 && fs.Split? && ConnectionMethods(fs.frames) > 0
      && var reached := st + ConnectionMethods(fs.frames);
         reached == 6 || (reached == 5 && FitsFrame(StartOkMethod(InjectIdent(Absorbed(s.conn, fs.frames), h.info))))
  {
    var bs, r := s.ingress.held + h.chunk, Answer(s, h);
    AnswerOf(s, h);
    hide Process, SplitFrames, Filled, Answer, FitsFrame, InjectIdent, SideSafe, TakeFrames, ConnectionMethods, Absorbed;
    if Stage(s.conn.state) == 0 {
      HeaderNeverCrosses(s.conn, h.info, bs);
    } else {
      PassComes(s.conn, h.info, bs);
      if r.conn.state.Open? {
        OpenWritesAlong(s.conn, Ingress, h.info, bs);
      } else {
        ResponseSide(s.conn, Ingress, h.info, bs);
      }
    }
  }

  lemma AnswerOf(s: Session, h: Happening)
    requires Enabled(s, h) && h.Read? && h.flow.Ingress?
    ensures Answer(s, h) == Process(s.conn, Ingress, h.info, s.ingress.held + h.chunk)
  {
    hide Process;
  }

  lemma HeaderNeverCrosses(c: Conn, info: SessionInfo, bs: seq<Byte>)
    requires c.state.AwaitingProtocolHeader? && c.out == [] && Process(c, Ingress, info, bs).Processed?
    ensures var r := Process(c, Ingress, info, bs); r.egressWrite == [] && !r.conn.state.Open?
  {
    hide Transmit;
  }

  lemma PassComes(c: Conn, info: SessionInfo, bs: seq<Byte>)
    requires 1 <= Stage(c.state) && |c.vhost| <= SHORT_STRING_LIMIT && Process(c, Ingress, info, bs).Processed?
    ensures SplitFrames(bs).Split?
    ensures var fs := SplitFrames(bs).frames; var r := Process(c, Ingress, info, bs); var reached := Stage(c.state) + ConnectionMethods(fs);
      && (ConnectionMethods(fs) == 0 ==> r.egressWrite == [] || r.conn.state.Open?)
      && (r.conn.state.Open? ==> reached >= 7)
      && (ConnectionMethods(fs) > 0 && !r.conn.state.Open? ==>
            (r.egressWrite != [] <==>
               reached == 6 || (reached == 5 && FitsFrame(StartOkMethod(InjectIdent(Absorbed(c, fs), info))))))
  {
    hide TakeFrames, SplitFrames, FitsFrame, InjectIdent, Absorbed, ConnectionMethods;
    FramesCome(c, info, bs, ([], []), 0);
  }
}
