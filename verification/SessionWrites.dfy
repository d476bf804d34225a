/** What is written to the two sockets: in every run, whole frames to the right side. */
module SessionWrites {
  import opened Bytes
  import opened Frames
  import opened Methods
  import opened ConnectorModel
  import opened ConnectorRuns
  import opened Handshake
  import opened Responses
  import opened PacketModel
  import opened Options
  import opened SessionModel
  import opened SessionRuns
  import opened SessionStreams

  /** Frames and nothing else. */
  predicate WholeFrames(bs: seq<Byte>) {
    var s := SplitFrames(bs); s.Split? && s.used == |bs|
  }

  lemma WholeTogether(a: seq<Byte>, b: seq<Byte>)
    requires WholeFrames(a) && WholeFrames(b)
    ensures WholeFrames(a + b)
  {
    hide SplitFrames, EncodeAll;
    SplitIsWhole(a);
    assert a[..|a|] == a;
    SplitEncodedFrames(SplitFrames(a).frames, b);
  }

  lemma FramesAreWhole(fs: seq<Frame>)
    requires forall f :: f in fs ==> Representable(f)
    ensures WholeFrames(EncodeAll(fs))
  {
    hide SplitFrames, EncodeAll;
    NothingSplits();
    SplitEncodedFrames(fs, []);
    assert EncodeAll(fs) + [] == EncodeAll(fs);
  }

  lemma NothingIsWhole()
    ensures WholeFrames([])
  {
  }

  // ----- what the connector holds

  lemma TransmittedIsWhole(m: Method)
    requires Transmit(m).Transmitted?
    ensures WholeFrames(Transmit(m).bytes) && Transmit(m).bytes != []
  {
    var f := Frame(1, 0, EncodeMethod(m));
    assert Transmit(m).bytes == EncodeFrame(f);
    LimitBelowWord();
    assert Pow256(2) > 0 && Representable(f);
    hide Transmit, EncodeMethod, EncodeFrame, WholeFrames, Representable;
    assert EncodeAll([f]) == EncodeFrame(f) by { EncodeShort([f]); }
    FramesAreWhole([f]);
  }

  lemma SentIsWhole(c: Conn, m: Method, toIngress: bool)
    requires WholeFrames(c.out) && Send(c, m, toIngress).Next?
    ensures WholeFrames(Send(c, m, toIngress).conn.out)
  {
    hide Transmit, WholeFrames;
    if Transmit(m).Transmitted? {
      TransmittedIsWhole(m);
      WholeTogether(c.out, Transmit(m).bytes);
    }
  }

  lemma CloseIsWhole(c: Conn, toIngress: bool, code: int, text: seq<Byte>, classId: int, methodId: int)
    requires SynthesizeMessage(c, toIngress, code, text, classId, methodId).Next?
    ensures WholeFrames(SynthesizeMessage(c, toIngress, code, text, classId, methodId).conn.out)
  {
    hide Transmit, WholeFrames, Send;
    NothingIsWhole();
    var close := SetReply(c.close, code, text, classId, methodId);
    SentIsWhole(c.(out := [], close := close), CloseMethod(close), toIngress);
  }

  /** Whatever it held before, after a method the connector holds whole frames. */
  lemma ClosingHoldsWhole(before: Conn, m: Received, flow: Flow, info: SessionInfo)
    requires before.state.ClientCloseSent? || before.state.ServerCloseSent?
    requires ReceiveMethod(before, m, flow, info).Next?
    ensures WholeFrames(ReceiveMethod(before, m, flow, info).conn.out)
  {
    hide Transmit, WholeFrames, Send, Ascii, SynthesizeMessage;
    NothingIsWhole();
    var c := before.(out := []);
    forall toIngress | Send(c, CloseOkMethod, toIngress).Next? ensures WholeFrames(Send(c, CloseOkMethod, toIngress).conn.out) {
      SentIsWhole(c, CloseOkMethod, toIngress);
    }
    forall d: Conn | SynthesizeClose(d, false).Next? ensures WholeFrames(SynthesizeClose(d, false).conn.out) {
      CloseIsWhole(d.(state := ServerCloseSent), false, REPLY_SUCCESS, Ascii("OK"), 0, 0);
    }
  }

  lemma MethodHoldsWhole(before: Conn, m: Received, flow: Flow, info: SessionInfo)
    requires ReceiveMethod(before, m, flow, info).Next?
    ensures WholeFrames(ReceiveMethod(before, m, flow, info).conn.out)
  {
    hide Transmit, WholeFrames, Send, InjectIdent, Absorb, Mismatch, Undecodable, DecodeStartOk, DecodeStart, DecodeTune, DecodeOpen,
      ReceiveAfterClientClose, ReceiveAfterServerClose;
    NothingIsWhole();
    var c := before.(out := []);
    match c.state
    case ClientCloseSent => ClosingHoldsWhole(before, m, flow, info);
    case ServerCloseSent => ClosingHoldsWhole(before, m, flow, info);
    case StartSent =>
      if DecodeStartOk(m.payload).Ok? {
        SentIsWhole(c.(startOk := Absorb(c.startOk, DecodeStartOk(m.payload).value)), TuneMethod(c.synthesizedTune), true);
      }
    case AwaitingConnection =>
      var s := InjectIdent(c.startOk, info);
      if Send(c.(startOk := s), StartOkMethod(s), false).Next? {
        SentIsWhole(c.(startOk := s), StartOkMethod(s), false);
      }
    case StartOkSent =>
      var tuned := Send(c, TuneOkMethod(c.tuneOk), false);
      if tuned.Next? {
        SentIsWhole(c, TuneOkMethod(c.tuneOk), false);
        if Send(tuned.conn, OpenMethod(tuned.conn.vhost), false).Next? {
          SentIsWhole(tuned.conn, OpenMethod(tuned.conn.vhost), false);
        }
      }
    case OpenSent =>
      if Send(c.(state := Open), OpenOkMethod, true).Next? {
        SentIsWhole(c.(state := Open), OpenOkMethod, true);
      }
    case _ =>
  }

  lemma {:induction false} FramesHoldWhole(c: Conn, flow: Flow, info: SessionInfo, bs: seq<Byte>, w: Writes, n: nat)
    requires WholeFrames(w.0) && WholeFrames(w.1)
    ensures var r := TakeFrames(c, flow, info, bs, w, n); r.Processed? ==> WholeFrames(r.ingressWrite) && WholeFrames(r.egressWrite)
    decreases |bs|
  {
    hide TakeFrames, DecodeFrame, ReceiveMethod, ToReceived, WholeFrames;
    TakeStep(c, flow, info, bs, w, n);
    var d := DecodeFrame(bs);
    if d.Complete? {
      var t := TakeFrame(c, flow, info, d.frame, w);
      if t.Taken? {
        if d.frame.kind == 1 && !c.state.Open? && |d.frame.payload| >= 4 && ToReceived(d.frame.payload).classId == CONNECTION_CLASS {
          MethodHoldsWhole(c, ToReceived(d.frame.payload), flow, info);
          NothingIsWhole();
        }
        FramesHoldWhole(t.conn, flow, info, bs[d.size..], t.w, n + 1);
      }
    }
  }

  /** The protocol header, or frames and nothing else. */
  predicate Proper(octets: seq<Byte>) {
    octets == PROTOCOL_HEADER || WholeFrames(octets)
  }

  predicate Fresh(c: Conn) {
    c.state.AwaitingProtocolHeader? ==> c.out == []
  }

  lemma HeaderHoldsProper(c: Conn, bs: seq<Byte>)
    requires c.state.AwaitingProtocolHeader? && c.out == [] && ReceiveHeader(c, bs).Next?
    ensures Proper(ReceiveHeader(c, bs).conn.out) && !ReceiveHeader(c, bs).conn.state.AwaitingProtocolHeader?
  {
    hide Transmit, WholeFrames;
    NothingIsWhole();
    if Send(c, StartMethod(c.synthesizedStart), true).Next? {
      SentIsWhole(c, StartMethod(c.synthesizedStart), true);
    }
  }

  lemma PassWritesProper(c: Conn, flow: Flow, info: SessionInfo, bs: seq<Byte>)
    requires Process(c, flow, info, bs).Processed? && Fresh(c)
    ensures var r := Process(c, flow, info, bs); Proper(r.ingressWrite) && Proper(r.egressWrite)
  {
    hide TakeFrames, ReceiveHeader, WholeFrames;
    NothingIsWhole();
    if c.state.AwaitingProtocolHeader? {
      if |bs| >= PROTOCOL_HEADER_LENGTH {
        HeaderHoldsProper(c, bs);
      }
    } else {
      FramesHoldWhole(c, flow, info, bs, ([], []), 0);
      TakenIsSuffix(c, flow, info, bs, ([], []), 0);
      var r := TakeFrames(c, flow, info, bs, ([], []), 0);
      if r.conn.state.Open? {
        PassedIsWhole(c, flow, info, bs);
      }
    }
  }

  lemma PassedIsWhole(c: Conn, flow: Flow, info: SessionInfo, bs: seq<Byte>)
    requires !c.state.AwaitingProtocolHeader? && TakeFrames(c, flow, info, bs, ([], []), 0).Processed?
    ensures var r := TakeFrames(c, flow, info, bs, ([], []), 0); |r.held| <= |bs| && WholeFrames(bs[..|bs| - |r.held|])
  {
    hide TakeFrames, SplitFrames;
    TakenSplits(c, flow, info, bs, ([], []), 0);
    TakenIsSuffix(c, flow, info, bs, ([], []), 0);
    SplitIsWhole(bs);
    FramesAreWhole(SplitFrames(bs).frames);
  }

  lemma {:induction false} FramesKeepFresh(c: Conn, flow: Flow, info: SessionInfo, bs: seq<Byte>, w: Writes, n: nat)
    requires !c.state.AwaitingProtocolHeader?
    ensures var r := TakeFrames(c, flow, info, bs, w, n); r.Processed? ==> !r.conn.state.AwaitingProtocolHeader?
    decreases |bs|
  {
    hide TakeFrames, DecodeFrame, ReceiveMethod, ToReceived;
    TakeStep(c, flow, info, bs, w, n);
    var d := DecodeFrame(bs);
    if d.Complete? {
      var t := TakeFrame(c, flow, info, d.frame, w);
      if t.Taken? {
        if d.frame.kind == 1 && !c.state.Open? && |d.frame.payload| >= 4 && ToReceived(d.frame.payload).classId == CONNECTION_CLASS {
          MethodKeepsFresh(c, ToReceived(d.frame.payload), flow, info);
        }
        FramesKeepFresh(t.conn, flow, info, bs[d.size..], t.w, n + 1);
      }
    }
  }

  lemma MethodKeepsFresh(c: Conn, m: Received, flow: Flow, info: SessionInfo)
    requires !c.state.AwaitingProtocolHeader? && ReceiveMethod(c, m, flow, info).Next?
    ensures !ReceiveMethod(c, m, flow, info).conn.state.AwaitingProtocolHeader?
  {
    hide Transmit, Ascii, InjectIdent, Absorb, Mismatch, Undecodable, DecodeStartOk, DecodeStart, DecodeTune, DecodeOpen;
  }

  lemma PassKeepsFresh(c: Conn, flow: Flow, info: SessionInfo, bs: seq<Byte>)
    requires Process(c, flow, info, bs).Processed? && Fresh(c)
    ensures Fresh(Process(c, flow, info, bs).conn)
  {
    hide TakeFrames, ReceiveHeader, WholeFrames;
    if c.state.AwaitingProtocolHeader? {
      if |bs| >= PROTOCOL_HEADER_LENGTH {
        HeaderHoldsProper(c, bs);
      }
    } else {
      FramesKeepFresh(c, flow, info, bs, ([], []), 0);
      TakenIsSuffix(c, flow, info, bs, ([], []), 0);
    }
  }

  // ----- what is in flight

  /** A reply goes to the side whose read it answers, octets passed on go to the other; all of it is proper. */
  predicate Addressed(w: Sending, flow: Flow) {
    && (w.mem.Pooled? <==> w.socket != flow)
    && Proper(w.octets)
  }

  predicate AllAddressed(side: Side, flow: Flow) {
    forall w :: w in side.writes ==> Addressed(w, flow)
  }

  ghost predicate Orderly(s: Session) {
    Streams(s) && AllAddressed(s.ingress, Ingress) && AllAddressed(s.egress, Egress) && Fresh(s.conn)
  }

  lemma PassAddresses(c: Conn, flow: Flow, info: SessionInfo, side: Side, reply: Option<nat>)
    requires Process(c, flow, info, side.held).Processed? && Fresh(c) && Housed(side)
    ensures var r := Process(c, flow, info, side.held);
      WriteFor(r, flow).Some? ==> Addressed(Sending(MemoryOf(r, side, reply), SocketOf(r), WriteOf(r)), WriteFor(r, flow).value)
  {
    hide Process, Proper;
    PassWritesProper(c, flow, info, side.held);
    if Process(c, flow, info, side.held).conn.state.Open? {
      OpenWritesAlong(c, flow, info, side.held);
    }
  }

  lemma BegunAddresses(s: Session, flow: Flow, to: Option<Flow>, w: Sending)
    requires AllAddressed(s.ingress, Ingress) && AllAddressed(s.egress, Egress) && (to.Some? ==> Addressed(w, to.value))
    ensures var s' := Begun(s, flow, to, w); AllAddressed(s'.ingress, Ingress) && AllAddressed(s'.egress, Egress)
  {
    hide Addressed;
  }

  lemma HandledAddresses(s: Session, flow: Flow, info: SessionInfo)
    requires AllAddressed(s.ingress, Ingress) && AllAddressed(s.egress, Egress) && Fresh(s.conn) && Housed(Of(s, flow))
    ensures var s' := Handled(s, flow, info); AllAddressed(s'.ingress, Ingress) && AllAddressed(s'.egress, Egress) && Fresh(s'.conn)
  {
    hide Process, Accounted, Begun, Reacquired, Kept, MemoryOf, WriteFor, SocketOf, WriteOf, Addressed;
    var side := Of(s, flow);
    var r := Process(s.conn, flow, info, side.held);
    PassConn(s, flow, info);
    if r.Processed? {
      HeldIsShort(s.conn, flow, info, side.held);
      PassKeepsFresh(s.conn, flow, info, side.held);
      var (reply, taken) := Reacquired(s.reply, s.pool, Growth(s.conn.replies, RepliesAfter(r)));
      var (kept, pool) := Kept(Accounted(side, r.conn.state, side.held, |r.held|), taken, r.held);
      KeptWrites(side, r.conn.state, taken, r.held);
      PassAddresses(s.conn, flow, info, side, reply);
      BegunAddresses(With(s, flow, kept).(conn := r.conn, reply := reply, pool := pool), flow, WriteFor(r, flow),
                     Sending(MemoryOf(r, side, reply), SocketOf(r), WriteOf(r)));
    }
  }

  /** One more write of a direction: to this socket, and these octets. */
  ghost predicate Begins(side: Side, side': Side, socket: Flow, octets: seq<Byte>) {
    exists mem :: side'.writes == side.writes + [Sending(mem, socket, octets)]
  }

  /**
   * What a pass has for the client goes to the client's socket, or else what it has for the broker
   * goes to the broker's, as one more write and as it is; if there is neither, the read goes on.
   */
  lemma PassBegins(s: Session, flow: Flow, info: SessionInfo)
    requires Process(s.conn, flow, info, Of(s, flow).held).Processed?
    ensures var r, s' := Process(s.conn, flow, info, Of(s, flow).held), Handled(s, flow, info);
      if r.ingressWrite == [] && r.egressWrite == [] then
        s'.ingress.writes == s.ingress.writes && s'.egress.writes == s.egress.writes && Of(s', flow).readers == Of(s, flow).readers + 1
      else
        var socket, octets := if r.ingressWrite != [] then Ingress else Egress, if r.ingressWrite != [] then r.ingressWrite else r.egressWrite;
        || (Begins(s.ingress, s'.ingress, socket, octets) && s'.egress.writes == s.egress.writes)
        || (Begins(s.egress, s'.egress, socket, octets) && s'.ingress.writes == s.ingress.writes)
  {
    hide Process, Accounted, Reacquired, Kept, MemoryOf;
    var side := Of(s, flow);
    var r := Process(s.conn, flow, info, side.held);
    var (reply, taken) := Reacquired(s.reply, s.pool, Growth(s.conn.replies, RepliesAfter(r)));
    HeldIsShort(s.conn, flow, info, side.held);
    KeptOtherwise(side, r.conn.state, taken, r.held);
    var w, s', to := Sending(MemoryOf(r, side, reply), SocketOf(r), WriteOf(r)), Handled(s, flow, info), WriteFor(r, flow);
    if to.Some? {
      assert Of(s', to.value).writes == Of(s, to.value).writes + [Sending(w.mem, w.socket, w.octets)];
      assert Begins(Of(s, to.value), Of(s', to.value), w.socket, w.octets);
    }
  }

  lemma KeptOtherwise(side: Side, state: State, pool: Pool, rest: seq<Byte>)
    requires |rest| <= |side.held|
    ensures var kept := Kept(Accounted(side, state, side.held, |rest|), pool, rest).0; kept.writes == side.writes && kept.readers == side.readers
  {
    hide SplitFrames;
  }

  /** Nothing of a paused client's is processed: the octets are held, and it is not read from again. */
  lemma PausedIsHeld(s: Session, h: Happening)
    requires Enabled(s, h) && h.Read? && h.flow.Ingress? && h.paused
    ensures var s' := Proceed(s, h);
      && s'.conn == s.conn && s'.egress == s.egress && s'.reply == s.reply && s'.ended == s.ended
      && s'.ingress.held == s.ingress.held + h.chunk && s'.ingress.writes == s.ingress.writes
      && s'.ingress.readers == s.ingress.readers - 1
  {
    if s.ingress.held == [] {
      assert [] + h.chunk == h.chunk;
    }
  }

  /** A broker that was reached is greeted with the protocol header. */
  lemma GreetingBegins(s: Session)
    requires Enabled(s, Connected)
    ensures var s' := Proceed(s, Connected);
      && Begins(s.egress, s'.egress, Egress, [65, 77, 81, 80, 0, 0, 9, 1]) && s'.ingress == s.ingress
      && s'.connected && s'.conn.state == s.conn.state
  {
    hide Reacquired;
    assert Proceed(s, Connected).egress.writes == s.egress.writes + [Sending(Reply(s.pool.issued), Egress, PROTOCOL_HEADER)];
  }

  lemma SynthesizedAddresses(s: Session, toIngress: bool, e: Event)
    requires AllAddressed(s.ingress, Ingress) && AllAddressed(s.egress, Egress)
    requires e == CloseSynthesized(toIngress) || (e == CloseErrorSynthesized(toIngress) && Fresh(s.conn))
    ensures var s' := Synthesized(s, e); AllAddressed(s'.ingress, Ingress) && AllAddressed(s'.egress, Egress) && Fresh(s'.conn)
  {
    SynthesizedClose(s, toIngress, e);
    if e.CloseSynthesized? {
      CloseIsWhole(s.conn.(state := if toIngress then ClientCloseSent else ServerCloseSent), toIngress, REPLY_SUCCESS, Ascii("OK"), 0, 0);
    } else {
      CloseIsWhole(s.conn, toIngress, CHANNEL_ERROR, Ascii("ERROR: Expected CloseOk reply"), 0, 0);
    }
    hide Synthesized, SynthesizeMessage, WholeFrames, Ascii;
  }

  lemma FailedAddresses(s: Session, flow: Flow)
    requires AllAddressed(s.ingress, Ingress) && AllAddressed(s.egress, Egress) && Fresh(s.conn)
    ensures var s' := Failed(s, flow); AllAddressed(s'.ingress, Ingress) && AllAddressed(s'.egress, Egress) && Fresh(s'.conn)
  {
    hide Synthesized, AllAddressed, Fresh;
    if !s.ended && flow.Ingress? && s.conn.state.ClientCloseSent? {
      SynthesizedAddresses(s, false, CloseSynthesized(false));
      SynthesizedAddresses(Synthesized(s, CloseSynthesized(false)), true, CloseErrorSynthesized(true));
    }
  }

  lemma DoneAddresses(s: Session, flow: Flow, index: nat, failed: bool)
    requires AllAddressed(s.ingress, Ingress) && AllAddressed(s.egress, Egress) && Fresh(s.conn) && index < |Of(s, flow).writes|
    ensures var s' := Completed(s, flow, index, failed);
      AllAddressed(s'.ingress, Ingress) && AllAddressed(s'.egress, Egress) && Fresh(s'.conn)
  {
    hide Failed, Addressed;
    var side := Of(s, flow);
    var rest := side.writes[..index] + side.writes[index + 1..];
    assert forall w :: w in rest ==> w in side.writes;
    var (released, pool) := if side.held == [] then Released(side, s.pool) else (side, s.pool);
    var t := With(s, flow, released.(writes := rest, readers := if failed then side.readers else side.readers + 1)).(pool := pool);
    if failed {
      FailedAddresses(t, flow);
    }
  }

  lemma ReadAddresses(s: Session, h: Happening)
    requires Orderly(s) && Enabled(s, h) && h.Read?
    ensures var s' := Proceed(s, h); AllAddressed(s'.ingress, Ingress) && AllAddressed(s'.egress, Egress) && Fresh(s'.conn)
  {
    hide Handled, Addressed, SideStreams;
    var f := Filled(s, h.flow, h.available, h.chunk);
    HandledAddresses(f, h.flow, h.info);
  }

  lemma StepIsOrderly(s: Session, h: Happening)
    requires Orderly(s) && Enabled(s, h)
    ensures Orderly(Proceed(s, h))
  {
    hide Streams, AllAddressed, Failed, Synthesized, Completed, Handled, Filled, Apply;
    StepStreams(s, h);
    match h
    case Read(_, _, _, _, _) => ReadAddresses(s, h);
    case WriteDone(flow, index, failed) => DoneAddresses(s, flow, index, failed);
    case ReadFailed(flow, fetching) =>
      var r := if fetching.Some? then Readied(s, flow, fetching.value) else s;
      var t := With(r, flow, Of(r, flow).(readers := Of(r, flow).readers - 1));
      SameWrites(s, t);
      FailedAddresses(t, flow);
    case Disconnect => SynthesizedAddresses(s, true, CloseSynthesized(true));
    case Connected => GreetedAddresses(s);
    case Blocked(flow, available) => SameWrites(s, Proceed(s, h));
    case Authorised(e) => AuthorisedFresh(s.conn, e);
    case Destroyed => SameWrites(s, Proceed(s, h));
  }

  lemma SameWrites(s: Session, t: Session)
    requires s.ingress.writes == t.ingress.writes && s.egress.writes == t.egress.writes
    requires AllAddressed(s.ingress, Ingress) && AllAddressed(s.egress, Egress)
    ensures AllAddressed(t.ingress, Ingress) && AllAddressed(t.egress, Egress)
  {
  }

  lemma AuthorisedFresh(c: Conn, e: Event)
    requires Fresh(c) && (e.SetCredentials? || e.SetAuthReason?)
    ensures Fresh(Apply(c, e).conn)
  {
  }

  lemma GreetedAddresses(s: Session)
    requires AllAddressed(s.ingress, Ingress) && AllAddressed(s.egress, Egress) && !s.conn.state.AwaitingProtocolHeader?
    ensures var s' := Greeted(s); AllAddressed(s'.ingress, Ingress) && AllAddressed(s'.egress, Egress) && Fresh(s'.conn)
  {
    hide WholeFrames, Reacquired;
  }

  lemma {:induction false} RunIsOrderly(s: Session, hs: seq<Happening>)
    requires Orderly(s) && Possible(s, hs)
    ensures Orderly(ProceedAll(s, hs))
    decreases |hs|
  {
    hide Enabled, Proceed, Orderly;
    if hs != [] {
      StepIsOrderly(s, hs[0]);
      RunIsOrderly(Proceed(s, hs[0]), hs[1..]);
    }
  }

  /**
   * In every run whatever, every write in flight is addressed as it should be: a reply goes to the
   * side that is read from, octets passed on go to the other side; and it carries the protocol
   * header, or whole frames with nothing left over.
   */
  lemma WritesAreAddressed(start: Start, tune: Tune, hs: seq<Happening>, flow: Flow, w: Sending)
    requires Possible(Started(start, tune), hs) && w in Of(ProceedAll(Started(start, tune), hs), flow).writes
    ensures Addressed(w, flow)
  {
    hide Enabled, Proceed, Streams, Addressed;
    var init := Started(start, tune);
    StartStreams(start, tune);
    RunIsOrderly(init, hs);
  }
}
