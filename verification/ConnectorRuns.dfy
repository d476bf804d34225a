/** Whole runs of the connector: how it closes, what it queues, how it comes to be open. */
module ConnectorRuns {
  import opened Bytes
  import opened FieldValues
  import opened FieldWriter
  import opened Frames
  import opened Methods
  import opened ConnectorModel

  // ----- closing

  predicate Closing(s: State) {
    s.ClientCloseSent? || s.ServerCloseSent? || s.Closed?
  }

  /** How far a close has got. */
  function Progress(s: State): nat {
    if s.ClientCloseSent? then 0 else if s.ServerCloseSent? then 1 else 2
  }

  predicate EndsClose(e: Event) {
    e.MethodReceived? && e.flow.Egress? && (e.m.methodId == CLOSE_ID || e.m.methodId == CLOSE_OK_ID)
  }

  /** The client answers the close it was sent, or crosses it with its own. */
  predicate Confirms(e: Event) {
    e.MethodReceived? && e.flow.Ingress? && (e.m.methodId == CLOSE_ID || e.m.methodId == CLOSE_OK_ID)
  }

  /** Nothing in a Close or a CloseOk can run the encoder into its assertion. */
  lemma CloseNeverAborts(m: Method)
    requires m.CloseMethod? || m.CloseOkMethod?
    ensures !Transmit(m).Aborts?
  {
    hide EncodePart, BigEndian;
    NoTableNeverAborts(PartsOf(m), MAX_FRAME_SIZE);
  }

  lemma {:induction false} NoTableNeverAborts(ps: seq<Part>, room: nat)
    requires forall p :: p in ps ==> !p.Properties?
    ensures !FateOfParts(ps, room).Aborted?
  {
    if ps != [] && FateOfPart(ps[0], room).Written? {
      NoTableNeverAborts(ps[1..], room - |EncodePart(ps[0])|);
    }
  }

  /** One method during a close: no exception, no way back, and only the broker ends it. */
  lemma CloseStep(c: Conn, e: Event)
    requires Closing(c.state) && e.MethodReceived?
    ensures var r := Apply(c, e);
      && r.Next?
      && Closing(r.conn.state)
      && Progress(c.state) <= Progress(r.conn.state)
      && (r.conn.state.Closed? <==> c.state.Closed? || (EndsClose(e) && (c.state.ServerCloseSent? || e.m.methodId == CLOSE_ID)))
      && (c.state.ClientCloseSent? ==> (r.conn.state.ServerCloseSent? <==> Confirms(e)))
      && (c.state.Closed? ==> r.conn == c.(out := []))
  {
    hide Transmit, Ascii;
    CloseNeverAborts(CloseOkMethod);
    CloseNeverAborts(CloseMethod(SetReply(c.close, REPLY_SUCCESS, Ascii("OK"), 0, 0)));
  }

  /**
   * Once closing has begun, under any interleaving of methods from both sides: the run
   * goes on without exceptions, the close only advances, and if it is complete then the
   * broker sent a Close or CloseOk.
   */
  lemma {:induction false} CloseOnlyAdvances(c: Conn, es: seq<Event>)
    requires Closing(c.state) && forall e :: e in es ==> e.MethodReceived?
    ensures var r := Run(c, es);
      && r.Next?
      && Closing(r.conn.state)
      && Progress(c.state) <= Progress(r.conn.state)
      && (!c.state.Closed? && r.conn.state.Closed? ==> exists e :: e in es && EndsClose(e))
      && (c.state.Closed? && es != [] ==> r.conn == c.(out := []))
  {
    hide Apply, EndsClose;
    if es != [] {
      var n := |es| - 1;
      CloseOnlyAdvances(c, es[..n]);
      CloseStep(Run(c, es[..n]).conn, es[n]);
      assert es[n] in es;
    }
  }

  /** With this message the close is over: the broker's Close, or its CloseOk once the client has confirmed. */
  predicate Completes(es: seq<Event>, j: nat)
    requires j < |es|
  {
    EndsClose(es[j]) && (es[j].m.methodId == CLOSE_ID || exists i :: 0 <= i < j && Confirms(es[i]))
  }

  /**
   * Exactly when a close is over, whatever the order of the messages: when the broker has sent a
   * Close, or a CloseOk after the client confirmed.
   */
  lemma {:induction false} ClosedIff(c: Conn, es: seq<Event>)
    requires c.state.ClientCloseSent? && forall e :: e in es ==> e.MethodReceived?
    ensures var r := Run(c, es);
      && r.Next?
      && (r.conn.state.Closed? <==> exists j :: 0 <= j < |es| && Completes(es, j))
      && (r.conn.state.ServerCloseSent? ==> exists i :: 0 <= i < |es| && Confirms(es[i]))
      && (r.conn.state.ClientCloseSent? ==> forall i :: 0 <= i < |es| ==> !Confirms(es[i]))
      && Closing(r.conn.state)
  {
    if es != [] {
      var n := |es| - 1;
      var front := es[..n];
      ClosedIff(c, front);
      var before := Run(c, front).conn;
      assert es[n] in es;
      CloseStep(before, es[n]);
      hide Apply, EndsClose, Confirms;
      assert Run(c, es) == Apply(before, es[n]);
      forall j | 0 <= j < n ensures Completes(front, j) == Completes(es, j) {
        assert forall i :: 0 <= i < j ==> front[i] == es[i];
        assert front[j] == es[j];
      }
      if before.state.Closed? {
        var j :| 0 <= j < n && Completes(front, j);
        assert Completes(es, j);
      }
      assert Completes(es, n) <==> EndsClose(es[n]) && (es[n].m.methodId == CLOSE_ID || exists i :: 0 <= i < n && Confirms(front[i]));
    }
  }

  // ----- the out-buffer

  /** The methods a session event queues, in order; nothing for an event that throws. */
  function Queued(c: Conn, e: Event): seq<Method> {
    match e
    case Header(_) => if c.state.AwaitingProtocolHeader? then [StartMethod(c.synthesizedStart)] else []
    case MethodReceived(m, flow, info) =>
      (match c.state
       case StartSent => [TuneMethod(c.synthesizedTune)]
       case AwaitingConnection => [StartOkMethod(InjectIdent(c.startOk, info))]
       case StartOkSent => [TuneOkMethod(c.tuneOk), OpenMethod(c.vhost)]
       case OpenSent => if m.methodId == OPEN_OK_ID then [OpenOkMethod] else []
       case ClientCloseSent =>
         if flow.Egress? then (if m.methodId == CLOSE_ID then [CloseOkMethod] else [])
         else if m.methodId == CLOSE_ID || m.methodId == CLOSE_OK_ID
         then [CloseMethod(SetReply(c.close, REPLY_SUCCESS, Ascii("OK"), 0, 0))]
         else []
       case ServerCloseSent => if m.methodId == CLOSE_ID then [CloseOkMethod] else []
       case _ => [])
    case CloseSynthesized(_) => [CloseMethod(SetReply(c.close, REPLY_SUCCESS, Ascii("OK"), 0, 0))]
    case CloseErrorSynthesized(_) =>
      [CloseMethod(SetReply(c.close, CHANNEL_ERROR, Ascii("ERROR: Expected CloseOk reply"), 0, 0))]
    case CustomCloseSynthesized(_, code, text, classId, methodId) =>
      [CloseMethod(SetReply(c.close, code, text, classId, methodId))]
    case _ => []
  }

  /** Events that leave frames, and only frames, in the out-buffer. */
  predicate Responds(c: Conn, e: Event) {
    match e
    case Header(bytes) =>
      c.state.AwaitingProtocolHeader? && c.out == [] && (bytes == PROTOCOL_HEADER || bytes == LEGACY_PROTOCOL_HEADER)
    case MethodReceived(_, _, _) => true
    case CloseSynthesized(_) => true
    case CloseErrorSynthesized(_) => true
    case CustomCloseSynthesized(_, _, _, _, _) => true
    case _ => false
  }

  /** The side all of an event's responses are for. */
  function SideOf(c: Conn, e: Event): bool {
    match e
    case Header(_) => true
    case MethodReceived(m, flow, _) =>
      (match c.state
       case StartSent => true
       case OpenSent => true
       case ServerCloseSent => flow.Ingress?
       case _ => false)
    case CloseSynthesized(toIngress) => toIngress
    case CloseErrorSynthesized(toIngress) => toIngress
    case CustomCloseSynthesized(toIngress, _, _, _, _) => toIngress
    case _ => false
  }

  function ResponseFrame(m: Method): Frame {
    Frame(1, 0, EncodeMethod(m))
  }

  function ResponseFrames(ms: seq<Method>): (fs: seq<Frame>)
    ensures |fs| == |ms|
    ensures forall i :: 0 <= i < |ms| ==> fs[i] == ResponseFrame(ms[i])
  {
    if ms == [] then [] else [ResponseFrame(ms[0])] + ResponseFrames(ms[1..])
  }

  predicate FitsFrame(m: Method) {
    |EncodeMethod(m)| + FRAME_OVERHEAD <= MAX_FRAME_SIZE && forall p :: p in PartsOf(m) ==> EncodablePart(p)
  }

  /** A response is put on the wire, as one frame of type 1 on channel 0, exactly when it fits. */
  lemma TransmittedIffFits(m: Method)
    ensures Transmit(m).Transmitted? <==> FitsFrame(m)
    ensures FitsFrame(m) ==> Transmit(m) == Transmitted(EncodeFrame(ResponseFrame(m)))
  {
    hide FateOfParts, EncodeParts, EncodablePart, EncodeFrame;
    FateOfPartsExact(PartsOf(m), MAX_FRAME_SIZE);
  }

  lemma EncodeShort(fs: seq<Frame>)
    requires |fs| <= 2
    ensures EncodeAll(fs) ==
      if |fs| == 0 then [] else if |fs| == 1 then EncodeFrame(fs[0]) else EncodeFrame(fs[0]) + EncodeFrame(fs[1])
  {
    hide EncodeFrame;
    if |fs| > 0 {
      assert EncodeAll(fs) == EncodeFrame(fs[0]) + EncodeAll(fs[1..]);
    }
  }

  /** The out-buffer is exactly the encodings of the queued responses, for one side. */
  lemma QueuedIsSent(c: Conn, e: Event)
    requires Responds(c, e) && Apply(c, e).Next?
    requires forall m :: m in Queued(c, e) ==> FitsFrame(m)
    ensures var r := Apply(c, e).conn;
      && r.out == EncodeAll(ResponseFrames(Queued(c, e)))
      && (Queued(c, e) != [] ==> r.toIngress == SideOf(c, e))
  {
    hide Transmit, FitsFrame, EncodeFrame, ResponseFrame, EncodeAll, ResponseFrames, ReceiveMethod, Ascii, InjectIdent;
    var ms := Queued(c, e);
    EncodeShort(ResponseFrames(ms));
    forall m | m in ms
      ensures Transmit(m) == Transmitted(EncodeFrame(ResponseFrame(m)))
    {
      TransmittedIffFits(m);
    }
    if e.MethodReceived? {
      MethodQueues(c, e.m, e.flow, e.info);
    }
  }

  /** The octets that go out for a row of methods, each of which is transmitted. */
  function Octets(ms: seq<Method>): seq<Byte>
    requires forall m :: m in ms ==> Transmit(m).Transmitted?
  {
    if |ms| == 0 then [] else if |ms| == 1 then Transmit(ms[0]).bytes else Transmit(ms[0]).bytes + Transmit(ms[1]).bytes
  }

  lemma MethodQueues(c: Conn, m: Received, flow: Flow, info: SessionInfo)
    requires ReceiveMethod(c, m, flow, info).Next?
    requires forall q :: q in Queued(c, MethodReceived(m, flow, info)) ==> Transmit(q).Transmitted?
    ensures var r := ReceiveMethod(c, m, flow, info).conn; var ms := Queued(c, MethodReceived(m, flow, info));
      && r.out == Octets(ms)
      && (ms != [] ==> r.toIngress == SideOf(c, MethodReceived(m, flow, info)))
  {
    hide Transmit, DecodeStartOk, DecodeStart, DecodeTune, DecodeOpen, DecodeClose, Ascii, InjectIdent;
  }

  lemma {:induction false} FramesReadBack(ms: seq<Method>)
    requires forall m :: m in ms ==> FitsFrame(m) && WellFormedMethod(m)
    ensures var bs := EncodeAll(ResponseFrames(ms)); var s := SplitFrames(bs);
      && s == Split(ResponseFrames(ms), |bs|)
      && forall i :: 0 <= i < |ms| ==>
           && s.frames[i].kind == 1 && s.frames[i].channel == 0
           && DecodeMethod(s.frames[i].payload).Ok?
           && DecodeMethod(s.frames[i].payload).value == ms[i]
  {
    hide DecodeMethod, EncodeMethod, EncodeFrame, SplitFrames, WellFormedMethod, PartsOf;
    var fs := ResponseFrames(ms);
    forall i | 0 <= i < |ms|
      ensures Representable(fs[i]) && DecodeMethod(fs[i].payload).Ok? && DecodeMethod(fs[i].payload).value == ms[i]
    {
      assert FitsFrame(ms[i]) && WellFormedMethod(ms[i]);
      DecodeEncodedMethod(ms[i]);
    }
    NothingSplits();
    SplitEncodedFrames(fs, []);
    assert EncodeAll(fs) + [] == EncodeAll(fs) && fs + [] == fs;
  }

  lemma NothingSplits()
    ensures SplitFrames([]) == Split([], 0)
  {
  }

  /** The out-buffer an event leaves is exactly its responses, framed, all for one side. */
  ghost predicate HoldsQueued(c: Conn, e: Event)
    requires Apply(c, e).Next?
  {
    var ms, r := Queued(c, e), Apply(c, e).conn; var s := SplitFrames(r.out);
    && s == Split(ResponseFrames(ms), |r.out|)
    && (forall i :: 0 <= i < |ms| ==>
          && s.frames[i].kind == 1 && s.frames[i].channel == 0
          && DecodeMethod(s.frames[i].payload).Ok?
          && DecodeMethod(s.frames[i].payload).value == ms[i])
    && (ms != [] ==> r.toIngress == SideOf(c, e))
  }

  lemma OutBufferHoldsQueued(c: Conn, e: Event)
    requires Responds(c, e) && Apply(c, e).Next?
    requires forall m :: m in Queued(c, e) ==> FitsFrame(m) && WellFormedMethod(m)
    ensures HoldsQueued(c, e)
  {
    hide Apply, Queued, Responds, SideOf, FitsFrame, DecodeMethod, EncodeAll, SplitFrames, WellFormedMethod;
    QueuedIsSent(c, e);
    FramesReadBack(Queued(c, e));
  }

  /** The client's TuneOk and Open always fit on their way to the broker. */
  lemma TuneOkAndOpenFit(t: Tune, vhost: seq<Byte>)
    requires |vhost| <= SHORT_STRING_LIMIT
    ensures FitsFrame(TuneOkMethod(t)) && FitsFrame(OpenMethod(vhost))
  {
    hide BigEndian;
    var ps, qs := PartsOf(TuneOkMethod(t)), PartsOf(OpenMethod(vhost));
    FiveParts(ps);
    FiveParts(qs);
  }

  lemma FiveParts(ps: seq<Part>)
    requires |ps| == 5
    ensures |EncodeParts(ps)| == |EncodePart(ps[0])| + |EncodePart(ps[1])| + |EncodePart(ps[2])|
                                 + |EncodePart(ps[3])| + |EncodePart(ps[4])|
  {
    hide EncodePart;
    assert |EncodeParts(ps)| == |EncodePart(ps[0])| + |EncodeParts(ps[1..])|;
    assert |EncodeParts(ps[1..])| == |EncodePart(ps[1])| + |EncodeParts(ps[1..][1..])|;
    assert ps[1..][1..] == ps[2..];
    assert |EncodeParts(ps[2..])| == |EncodePart(ps[2])| + |EncodeParts(ps[2..][1..])|;
    assert ps[2..][1..] == ps[3..];
    assert |EncodeParts(ps[3..])| == |EncodePart(ps[3])| + |EncodeParts(ps[3..][1..])|;
    assert ps[3..][1..] == ps[4..];
  }

  // ----- is a Close answered?

  lemma CloseOkFits()
    ensures FitsFrame(CloseOkMethod)
  {
    hide BigEndian;
    var ps := PartsOf(CloseOkMethod);
    assert |EncodeParts(ps)| == |EncodePart(ps[0])| + |EncodeParts(ps[1..])|;
    assert ps[1..] == [Word(2, CLOSE_OK_ID)] && ps[1..][1..] == [];
  }

  /** The out-buffer holds one CloseOk and nothing else, for the side given. */
  predicate HoldsCloseOk(c: Conn, toIngress: bool) {
    c.out == EncodeFrame(ResponseFrame(CloseOkMethod)) && c.toIngress == toIngress
  }

  /**
   * A Close that does not end the session by an exception is answered with a CloseOk to its
   * sender exactly when the connector waits for the broker to close, or when it waits for the
   * client and the Close is the broker's. A client's Close while the connector waits for the
   * client's CloseOk is not: the Close synthesized next takes the place of the answer.
   */
  lemma CloseAnsweredIff(c: Conn, m: Received, flow: Flow, info: SessionInfo)
    requires m.methodId == CLOSE_ID && ReceiveMethod(c, m, flow, info).Next?
    ensures HoldsCloseOk(ReceiveMethod(c, m, flow, info).conn, flow.Ingress?) <==>
      c.state.ServerCloseSent? || (c.state.ClientCloseSent? && flow.Egress?)
  {
    hide Transmit, FitsFrame, EncodeFrame, ResponseFrame, Ascii, InjectIdent,
      DecodeStartOk, DecodeStart, DecodeTune, DecodeOpen, DecodeClose;
    CloseOkFits();
    TransmittedIffFits(CloseOkMethod);
    assert |EncodeFrame(ResponseFrame(CloseOkMethod))| > 0;
  }

  /** A close is begun, then the client sends a Close of its own. */
  function CrossingCloses(info: SessionInfo): seq<Event> {
    [CloseSynthesized(true), MethodReceived(Received(CONNECTION_CLASS, CLOSE_ID, []), Ingress, info)]
  }

  /** The client's Close is left unanswered: what is queued is one Close, for the broker. */
  lemma ClientCloseUnanswered(start: Start, tune: Tune, info: SessionInfo)
    ensures var r := Run(Initial(start, tune), CrossingCloses(info)); var close := Close(REPLY_SUCCESS, Ascii("OK"), 0, 0);
      && r.Next? && r.conn.state.ServerCloseSent?
      && !r.conn.toIngress && r.conn.out == EncodeFrame(ResponseFrame(CloseMethod(close)))
      && !HoldsCloseOk(r.conn, true)
  {
    hide Transmit, FitsFrame, EncodeFrame, ResponseFrame, Ascii;
    var init, es, close := Initial(start, tune), CrossingCloses(info), Close(REPLY_SUCCESS, Ascii("OK"), 0, 0);
    GracefulCloseFits();
    TransmittedIffFits(CloseMethod(close));
    CloseOkFits();
    TransmittedIffFits(CloseOkMethod);
    assert es[..1] == [es[0]] && es[..1][..0] == [];
    assert Run(init, es[..1]) == Apply(init, es[0]);
    assert Run(init, es) == Apply(Run(init, es[..1]).conn, es[1]);
  }

  lemma GracefulCloseFits()
    ensures FitsFrame(CloseMethod(Close(REPLY_SUCCESS, Ascii("OK"), 0, 0)))
  {
    hide BigEndian;
    var ps := PartsOf(CloseMethod(Close(REPLY_SUCCESS, Ascii("OK"), 0, 0)));
    assert |Ascii("OK")| == 2;
    FiveParts(ps[1..]);
    assert |EncodeParts(ps)| == |EncodePart(ps[0])| + |EncodeParts(ps[1..])|;
  }
}
