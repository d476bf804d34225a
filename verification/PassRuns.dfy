/**
 * What a pass over a read does, said in one go: the octets are split into frames, the connection
 * methods among them are given to the connector one after another until the connection is open,
 * and what the connector then holds is written, whole, to the side it is for.
 */
module PassRuns {
  import opened Bytes
  import opened FieldValues
  import opened Frames
  import opened Methods
  import opened ConnectorModel
  import opened ConnectorRuns
  import Handshake
  import opened Responses
  import opened PacketModel
  import opened WireFormat

  /** The class and method numbers of a method, two octets each. */
  lemma NumbersRead(payload: seq<Byte>)
    requires |payload| >= 4
    ensures ToReceived(payload) == Received(Word16(payload[0], payload[1]), Word16(payload[2], payload[3]), payload[4..])
  {
    hide ToUnsigned;
    ReadShort(payload[0], payload[1]);
    ReadShort(payload[2], payload[3]);
    assert payload[..2] == [payload[0], payload[1]] && payload[2..4] == [payload[2], payload[3]];
  }

  // ----- runs, from the front

  lemma {:induction false} RunFromFront(c: Conn, e: Event, es: seq<Event>)
    ensures Run(c, [e] + es) == if Apply(c, e).Next? then Run(Apply(c, e).conn, es) else Apply(c, e)
    decreases |es|
  {
    hide Apply;
    var all := [e] + es;
    if es == [] {
      assert all == [e] && all[..0] == [];
      assert Run(c, all[..0]) == Next(c);
    } else {
      RunFromFront(c, e, es[..|es| - 1]);
      assert all[..|all| - 1] == [e] + es[..|es| - 1];
    }
  }

  lemma {:induction false} RunConcat(c: Conn, a: seq<Event>, b: seq<Event>)
    requires Run(c, a).Next?
    ensures Run(c, a + b) == Run(Run(c, a).conn, b)
    decreases |b|
  {
    hide Apply;
    if b == [] {
      assert a + b == a;
    } else {
      RunConcat(c, a, b[..|b| - 1]);
      assert (a + b)[..|a + b| - 1] == a + b[..|b| - 1];
    }
  }

  // ----- what is given to the connector

  /** A method of the connection class. */
  predicate Concerns(f: Frame) {
    f.kind == 1 && |f.payload| >= 4 && Word16(f.payload[0], f.payload[1]) == 10
  }

  /** The connection methods among some frames, in order. */
  function MethodsIn(fs: seq<Frame>, flow: Flow, info: SessionInfo): seq<Event> {
    if fs == [] then []
    else
      var p, rest := fs[0].payload, MethodsIn(fs[1..], flow, info);
      if Concerns(fs[0]) then [MethodReceived(Received(10, Word16(p[2], p[3]), p[4..]), flow, info)] + rest else rest
  }

  /** Method frames have room for their numbers. */
  predicate Numbered(fs: seq<Frame>) {
    forall f :: f in fs ==> f.kind == 1 ==> |f.payload| >= 4
  }

  /** They are given to it until one is refused or opens the connection. */
  function Given(c: Conn, es: seq<Event>): (given: seq<Event>)
    ensures given <= es
    decreases |es|
  {
    if c.state.Open? || es == [] then []
    else
      match Apply(c, es[0])
      case Thrown(_) => [es[0]]
      case Next(c') => [es[0]] + Given(c', es[1..])
  }

  /** All that a read gives to the connector. */
  function EventsOf(c: Conn, flow: Flow, info: SessionInfo, bs: seq<Byte>): seq<Event> {
    if c.state.AwaitingProtocolHeader? then (if |bs| < 8 then [] else [Header(bs)])
    else
      var s := SplitFrames(bs);
      if s.Split? then Given(c, MethodsIn(s.frames, flow, info)) else []
  }

  /** The octets the connector holds go to the side they are for, and none to the other. */
  predicate WritesOut(c: Conn, ingressWrite: seq<Byte>, egressWrite: seq<Byte>) {
    if c.toIngress then ingressWrite == c.out && egressWrite == [] else ingressWrite == [] && egressWrite == c.out
  }

  lemma TakenFrame(c: Conn, flow: Flow, info: SessionInfo, f: Frame, rest: seq<Frame>, w: Writes)
    requires f.kind == 1 ==> |f.payload| >= 4
    ensures var t, es := TakeFrame(c, flow, info, f, w), MethodsIn([f] + rest, flow, info);
      if c.state.Open? || !Concerns(f) then
        && t == Taken(c, w)
        && es == (if Concerns(f) then [MethodReceived(ToReceived(f.payload), flow, info)] else []) + MethodsIn(rest, flow, info)
      else
        var e := MethodReceived(ToReceived(f.payload), flow, info);
        && es == [e] + MethodsIn(rest, flow, info)
        && t == match Apply(c, e) case Next(c') => Taken(c', Write(c')) case Thrown(error) => NotTaken(ConnectorFailed(error))
  {
    hide ReceiveMethod, ToReceived;
    assert ([f] + rest)[1..] == rest;
    if |f.payload| >= 4 {
      NumbersRead(f.payload);
    }
  }

  /** The loop over whole frames is a run of the connector. */
  lemma {:induction false} FramesRun(c: Conn, flow: Flow, info: SessionInfo, bs: seq<Byte>, w: Writes, n: nat)
    requires var s := SplitFrames(bs); s.Split? && Numbered(s.frames)
    ensures var r, s := TakeFrames(c, flow, info, bs, w, n), SplitFrames(bs);
      var es := Given(c, MethodsIn(s.frames, flow, info)); var t := Run(c, es);
      && (t.Thrown? ==> r.Refused? && r.why == ConnectorFailed(t.error))
      && (t.Next? ==>
            && r.Processed? && r.conn == t.conn && r.held == bs[s.used..]
            && (if es == [] then (r.ingressWrite, r.egressWrite) == w else WritesOut(r.conn, r.ingressWrite, r.egressWrite)))
    decreases |bs|
  {
    hide TakeFrames, TakeFrame, DecodeFrame, Apply, Run, Concerns;
    TakeStep(c, flow, info, bs, w, n);
    var d := DecodeFrame(bs);
    if d.Complete? {
      var rest := bs[d.size..];
      var s' := SplitFrames(rest);
      SplitStep(bs, d.frame, d.size);
      assert SplitFrames(bs).frames == [d.frame] + s'.frames;
      assert d.frame in SplitFrames(bs).frames && forall f :: f in s'.frames ==> f in SplitFrames(bs).frames;
      TakenFrame(c, flow, info, d.frame, s'.frames, w);
      assert rest[s'.used..] == bs[d.size + s'.used..];
      var t := TakeFrame(c, flow, info, d.frame, w);
      if t.Taken? {
        FramesRun(t.conn, flow, info, rest, t.w, n + 1);
        NothingRuns(t.conn);
      }
      GivenStep(c, d.frame, s'.frames, flow, info);
    } else {
      NothingRuns(c);
      assert bs[0..] == bs;
    }
  }

  lemma NothingRuns(c: Conn)
    ensures Run(c, []) == Next(c)
  {
  }

  lemma GivenStep(c: Conn, f: Frame, rest: seq<Frame>, flow: Flow, info: SessionInfo)
    ensures MethodsIn([f] + rest, flow, info) ==
      (if Concerns(f) then [MethodReceived(ToReceived(f.payload), flow, info)] else []) + MethodsIn(rest, flow, info)
    ensures var es := MethodsIn(rest, flow, info);
      if c.state.Open? then Given(c, MethodsIn([f] + rest, flow, info)) == [] && Given(c, es) == []
      else if Concerns(f) then
        var e := MethodReceived(ToReceived(f.payload), flow, info);
        if Apply(c, e).Next? then
          && Given(c, [e] + es) == [e] + Given(Apply(c, e).conn, es)
          && Run(c, [e] + Given(Apply(c, e).conn, es)) == Run(Apply(c, e).conn, Given(Apply(c, e).conn, es))
        else Given(c, [e] + es) == [e] && Run(c, [e]) == Apply(c, e)
      else MethodsIn([f] + rest, flow, info) == es
  {
    hide Apply, Run, ToReceived;
    var es := MethodsIn(rest, flow, info);
    assert ([f] + rest)[1..] == rest;
    assert [] + es == es;
    if |f.payload| >= 4 {
      NumbersRead(f.payload);
    }
    if !c.state.Open? && Concerns(f) {
      var e := MethodReceived(ToReceived(f.payload), flow, info);
      assert ([e] + es)[0] == e && ([e] + es)[1..] == es;
      if Apply(c, e).Next? {
        RunFromFront(c, e, Given(Apply(c, e).conn, es));
      } else {
        RunFromFront(c, e, []);
        assert [e] + [] == [e];
      }
    }
  }

  /**
   * A whole pass. What it gives to the connector is a run of it; if that throws, so does the
   * pass. If it does not open the connection, everything the connector holds after the last
   * message is written to the side it is for and nothing to the other, and nothing at all if
   * there was no message.
   */
  lemma PassIsRun(c: Conn, flow: Flow, info: SessionInfo, bs: seq<Byte>)
    requires c.state.AwaitingProtocolHeader? || (SplitFrames(bs).Split? && Numbered(SplitFrames(bs).frames))
    ensures var r, es := Process(c, flow, info, bs), EventsOf(c, flow, info, bs); var t := Run(c, es);
      && (t.Thrown? ==> r.Refused? && r.why == ConnectorFailed(t.error))
      && (t.Next? ==>
            && r.Processed? && r.conn == t.conn
            && (!r.conn.state.Open? ==>
                  if es == [] then r.ingressWrite == r.egressWrite == [] else WritesOut(r.conn, r.ingressWrite, r.egressWrite)))
  {
    hide TakeFrames, Transmit, SplitFrames, Given, MethodsIn, Numbered;
    if c.state.AwaitingProtocolHeader? {
      if |bs| < 8 {
        NothingRuns(c);
      } else {
        RunFromFront(c, Header(bs), []);
        assert [Header(bs)] + [] == [Header(bs)];
        if ReceiveHeader(c, bs).Next? {
          NothingRuns(ReceiveHeader(c, bs).conn);
        }
      }
    } else {
      FramesRun(c, flow, info, bs, ([], []), 0);
    }
  }

  /** A read that cannot be split into frames is refused, whatever else is in it. */
  lemma UnsplittableRefused(c: Conn, flow: Flow, info: SessionInfo, bs: seq<Byte>)
    requires !c.state.AwaitingProtocolHeader? && SplitFrames(bs).Threw?
    ensures Process(c, flow, info, bs).Refused?
  {
    hide TakeFrames, SplitFrames;
    TakenSplits(c, flow, info, bs, ([], []), 0);
    TakenIsSuffix(c, flow, info, bs, ([], []), 0);
  }

  /**
   * Of several messages in one read only the last is answered: a client that sends its TuneOk right
   * behind its StartOk never sees the Tune.
   */
  lemma PipelinedTuneIsLost(c: Conn, info: SessionInfo, bs: seq<Byte>, startOk: Event, tuneOk: Event)
    requires c.state.StartSent? && SplitFrames(bs).Split? && Numbered(SplitFrames(bs).frames)
    requires EventsOf(c, Ingress, info, bs) == [startOk, tuneOk] && Handshake.Accepted(1, startOk) && Handshake.Accepted(2, tuneOk)
    requires Process(c, Ingress, info, bs).Processed?
    ensures var r := Process(c, Ingress, info, bs); r.conn.state.AwaitingOpen? && r.ingressWrite == r.egressWrite == []
  {
    hide Process, SplitFrames, Numbered, EventsOf, Transmit, DecodeStartOk, DecodeTune;
    PassIsRun(c, Ingress, info, bs);
    RunFromFront(c, startOk, [tuneOk]);
    assert [startOk] + [tuneOk] == [startOk, tuneOk];
    if Apply(c, startOk).Next? {
      RunFromFront(Apply(c, startOk).conn, tuneOk, []);
      assert [tuneOk] + [] == [tuneOk];
      if Apply(Apply(c, startOk).conn, tuneOk).Next? {
        NothingRuns(Apply(Apply(c, startOk).conn, tuneOk).conn);
      }
    }
  }

  // ----- messages of the proxy's own

  /** What is queued is one Close, with these fields, for the side given. */
  ghost predicate HoldsClose(c: Conn, toIngress: bool, code: int, text: seq<Byte>, classId: int, methodId: int)
    requires |text| < 256
  {
    c.toIngress == toIngress &&
    c.out == EncodeFrame(Frame(1, 0, [0, 10, 0, 50] + (Two(code) + Short(text) + Two(classId) + Two(methodId))))
  }

  lemma MessageSent(c: Conn, toIngress: bool, code: int, text: seq<Byte>, classId: int, methodId: int)
    requires |text| < 256
    ensures var r := SynthesizeMessage(c, toIngress, code, text, classId, methodId);
      && r.Next? && r.conn.state == c.state
      && HoldsClose(r.conn, toIngress, code, text, if classId != 0 then classId else c.close.classId,
                    if methodId != 0 then methodId else c.close.methodId)
  {
    var close := SetReply(c.close, code, text, classId, methodId);
    CloseFits(close);
    hide Transmit, EncodeFrame, EncodeMethod, EncodeBody, FitsFrame, Two, Short;
    TransmittedIffFits(CloseMethod(close));
    MethodWritten(CloseMethod(close));
    CloseWritten(close);
  }

  lemma CloseFits(close: Close)
    requires |close.text| < 256
    ensures FitsFrame(CloseMethod(close))
  {
    hide BigEndian;
    var ps := PartsOf(CloseMethod(close));
    FiveParts(ps[1..]);
    assert |EncodeParts(ps)| == |EncodePart(ps[0])| + |EncodeParts(ps[1..])|;
  }

  /** A graceful close: code 200, text "OK". The error after an unconfirmed one: code 504. */
  lemma ClosesSent(c: Conn, toIngress: bool)
    ensures var r := Apply(c, CloseSynthesized(toIngress));
      && r.Next? && HoldsClose(r.conn, toIngress, 200, [79, 75], c.close.classId, c.close.methodId)
      && (if toIngress then r.conn.state.ClientCloseSent? else r.conn.state.ServerCloseSent?)
    ensures |Ascii("ERROR: Expected CloseOk reply")| == 29
    ensures var r := Apply(c, CloseErrorSynthesized(toIngress));
      && r.Next? && r.conn.state == c.state
      && HoldsClose(r.conn, toIngress, 504, Ascii("ERROR: Expected CloseOk reply"), c.close.classId, c.close.methodId)
  {
    hide SynthesizeMessage, Ascii, HoldsClose;
    TextsOfCloses();
    MessageSent(c.(state := if toIngress then ClientCloseSent else ServerCloseSent), toIngress, 200, [79, 75], 0, 0);
    MessageSent(c, toIngress, 504, Ascii("ERROR: Expected CloseOk reply"), 0, 0);
  }

  lemma TextsOfCloses()
    ensures Ascii("OK") == [79, 75] && |Ascii("ERROR: Expected CloseOk reply")| == 29
  {
  }

  /** The close a broker sent instead of accepting is passed on to the client as it was. */
  lemma CustomCloseSent(c: Conn, toIngress: bool, code: int, text: seq<Byte>, classId: int, methodId: int)
    requires |text| < 256
    ensures var r := Apply(c, CustomCloseSynthesized(toIngress, code, text, classId, methodId));
      && r.Next? && r.conn.state == c.state
      && HoldsClose(r.conn, toIngress, code, text, if classId != 0 then classId else c.close.classId,
                    if methodId != 0 then methodId else c.close.methodId)
  {
    hide SynthesizeMessage, HoldsClose;
    MessageSent(c, toIngress, code, text, classId, methodId);
  }

  /** The protocol header, its older form, and what a client that sends neither is answered. */
  lemma HeadersAnswered(c: Conn, bs: seq<Byte>)
    requires c.state.AwaitingProtocolHeader?
    ensures var r := ReceiveHeader(c, bs); var amqp: seq<Byte> := [65, 77, 81, 80];
      && (r.Next? && r.conn.state.StartSent? ==> bs == amqp + [0, 0, 9, 1] || bs == amqp + [1, 1, 0, 9])
      && (bs != amqp + [0, 0, 9, 1] && bs != amqp + [1, 1, 0, 9] ==>
            r.Next? && r.conn.state.Error? && r.conn.toIngress && r.conn.out == amqp + [0, 0, 9, 1])
  {
    hide Transmit;
  }

  // ----- what is written reads back as the responses

  /** Written octets are exactly these methods, framed. */
  ghost predicate Carries(written: seq<Byte>, ms: seq<Method>) {
    var s := SplitFrames(written);
    && s.Split? && s.used == |written| && |s.frames| == |ms|
    && forall i :: 0 <= i < |ms| ==>
         && s.frames[i].kind == 1 && s.frames[i].channel == 0
         && DecodeMethod(s.frames[i].payload).Ok? && DecodeMethod(s.frames[i].payload).value == ms[i]
  }

  /**
   * In every state a connector can reach: a pass that does not open the connection, over a read
   * that gave it something to answer, writes the responses to the last message, whole, to their
   * side, and nothing to the other. What it writes splits with nothing left over into frames that
   * read back as these responses.
   */
  lemma PassWritesResponses(start: Start, tune: Tune, before: seq<Event>, c: Conn, flow: Flow, info: SessionInfo, bs: seq<Byte>)
    requires WellFormedMethod(StartMethod(start)) && WellFormedMethod(TuneMethod(tune))
    requires (forall e :: e in before ==> InRange(e)) && Run(Initial(start, tune), before) == Next(c)
    requires c.state.AwaitingProtocolHeader? || (SplitFrames(bs).Split? && Numbered(SplitFrames(bs).frames))
    requires var r := Process(c, flow, info, bs); r.Processed? && !r.conn.state.Open?
    requires EventsOf(c, flow, info, bs) != []
    ensures var r, es := Process(c, flow, info, bs), EventsOf(c, flow, info, bs);
      var t, e := Run(c, es[..|es| - 1]), es[|es| - 1];
      && t.Next? && Apply(t.conn, e) == Next(r.conn)
      && (Responds(t.conn, e) && (forall m :: m in Queued(t.conn, e) ==> FitsFrame(m)) ==>
            var ms := Queued(t.conn, e);
            && (ms == [] ==> r.ingressWrite == r.egressWrite == [])
            && (ms != [] ==>
                  if SideOf(t.conn, e) then Carries(r.ingressWrite, ms) && r.egressWrite == []
                  else Carries(r.egressWrite, ms) && r.ingressWrite == []))
  {
    hide Process, Apply, Responds, Queued, SideOf, FitsFrame, SplitFrames, DecodeMethod, Numbered, WellFormedMethod, InRange, Given, MethodsIn;
    PassIsRun(c, flow, info, bs);
    var r, es := Process(c, flow, info, bs), EventsOf(c, flow, info, bs);
    var front, e := es[..|es| - 1], es[|es| - 1];
    var t := Run(c, front);
    assert Run(c, es) == if t.Next? then Apply(t.conn, e) else t;
    PassMayRespond(c, flow, info, bs);
    if Responds(t.conn, e) && forall m :: m in Queued(t.conn, e) ==> FitsFrame(m) {
      RunConcat(Initial(start, tune), before, front);
      EventsInRange(c, flow, info, bs);
      assert forall x :: x in before + front + [e] ==> InRange(x);
      OutBufferHoldsResponses(start, tune, before + front, t.conn, e);
      HeldIsCarried(t.conn, e);
    }
  }

  lemma HeldIsCarried(c: Conn, e: Event)
    requires Apply(c, e).Next? && HoldsQueued(c, e)
    ensures Carries(Apply(c, e).conn.out, Queued(c, e))
    ensures Queued(c, e) != [] ==> Apply(c, e).conn.toIngress == SideOf(c, e)
    ensures Queued(c, e) == [] ==> Apply(c, e).conn.out == []
  {
    hide Apply, Queued, SideOf, DecodeMethod;
    if Queued(c, e) == [] {
      SplitIsWhole(Apply(c, e).conn.out);
      assert Apply(c, e).conn.out[..|Apply(c, e).conn.out|] == Apply(c, e).conn.out;
    }
  }

  lemma {:induction false} MethodsAreMethods(fs: seq<Frame>, flow: Flow, info: SessionInfo)
    ensures forall e :: e in MethodsIn(fs, flow, info) ==> e.MethodReceived?
  {
    if fs != [] {
      MethodsAreMethods(fs[1..], flow, info);
    }
  }

  lemma EventsInRange(c: Conn, flow: Flow, info: SessionInfo, bs: seq<Byte>)
    ensures forall e :: e in EventsOf(c, flow, info, bs) ==> InRange(e)
  {
    PassMayRespond(c, flow, info, bs);
    hide EventsOf;
  }

  lemma PassMayRespond(c: Conn, flow: Flow, info: SessionInfo, bs: seq<Byte>)
    ensures forall e :: e in EventsOf(c, flow, info, bs) ==> e.MethodReceived? || e == Header(bs)
  {
    var s := SplitFrames(bs);
    if s.Split? {
      MethodsAreMethods(s.frames, flow, info);
    }
    hide SplitFrames, MethodsIn;
  }
}
