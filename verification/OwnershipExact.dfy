/** The memory behind a write stays owned in every continuation exactly when a step is harmless. */
module OwnershipExact {
  import opened Bytes
  import opened FieldValues
  import opened Frames
  import opened Methods
  import opened ConnectorModel
  import opened ConnectorRuns
  import opened Handshake
  import opened PacketModel
  import opened Options
  import opened SessionModel
  import opened SessionRuns
  import opened Crossings

  // ----- losing the memory of a write

  ghost predicate Fails(s: Session, hs: seq<Happening>) {
    Possible(s, hs) && AllAligned(s, hs) && !InFlightOwned(ProceedAll(s, hs))
  }

  /** Some aligned continuation gives back the memory behind a write in flight. */
  ghost predicate CanFail(s: Session) {
    exists hs :: Fails(s, hs)
  }

  lemma FailsNow(s: Session)
    requires !InFlightOwned(s)
    ensures CanFail(s)
  {
    hide InFlightOwned;
    assert Fails(s, []);
  }

  /** The memory behind every passthrough write in flight is owned. */
  ghost predicate PassthroughOwned(s: Session) {
    forall flow, w :: w in Of(s, flow).writes && w.mem.Pooled? ==>
      Of(s, flow).data == Some(w.mem.ticket) || Of(s, flow).spare == Some(w.mem.ticket)
  }

  ghost predicate Loses(s: Session, hs: seq<Happening>) {
    Possible(s, hs) && AllAligned(s, hs) && !PassthroughOwned(ProceedAll(s, hs))
  }

  /** More particularly, it is a passthrough write that loses its memory. */
  ghost predicate CanLose(s: Session) {
    exists hs :: Loses(s, hs)
  }

  lemma LosesLater(s: Session, h: Happening)
    requires Enabled(s, h) && Aligned(s, h) && CanLose(Proceed(s, h))
    ensures CanLose(s)
  {
    var hs :| Loses(Proceed(s, h), hs);
    hide Enabled, Aligned, Proceed, PassthroughOwned;
    assert ([h] + hs)[1..] == hs;
    assert Loses(s, [h] + hs);
  }

  lemma LosesNow(s: Session)
    requires !PassthroughOwned(s)
    ensures CanLose(s)
  {
    hide PassthroughOwned;
    assert Loses(s, []);
  }

  lemma LostIsNotOwned(s: Session)
    requires !PassthroughOwned(s)
    ensures !InFlightOwned(s)
  {
  }

  lemma LosingFails(s: Session)
    requires CanLose(s)
    ensures CanFail(s)
  {
    var hs :| Loses(s, hs);
    hide Enabled, Aligned, Proceed, PassthroughOwned, InFlightOwned;
    LostIsNotOwned(ProceedAll(s, hs));
    assert Fails(s, hs);
  }

  /** A second read of the direction finds nothing held and takes the buffer away from the write. */
  lemma SecondReadFails(s: Session, t: nat)
    requires !s.ended && Conserved(s) && s.egress.held == [] && s.egress.readers > 0
    requires s.egress.data == Some(t) && exists w :: w in s.egress.writes && w.mem == Pooled(t)
    ensures CanLose(s)
  {
    var h := Blocked(Egress, 1);
    var next := Proceed(s, h);
    CountOf(s, t);
    hide Stage, Conserved;
    assert next.egress.data == Some(s.pool.issued) && next.egress.spare == s.egress.spare;
    LosesNow(next);
    LosesLater(s, h);
  }

  // ----- replies

  lemma {:induction false} ReacquiredIsNew(reply: Option<nat>, pool: Pool, times: nat)
    ensures var (reply', pool') := Reacquired(reply, pool, times); times > 0 ==> reply'.Some? && reply'.value >= pool.issued
    decreases times
  {
    if times > 1 {
      ReacquiredIsNew(Some(pool.issued), GiveBack(pool, reply).(issued := pool.issued + 1), times - 1);
    } else if times == 1 {
      assert Reacquired(reply, pool, 1) == Reacquired(Some(pool.issued), GiveBack(pool, reply).(issued := pool.issued + 1), 0);
    }
  }

  lemma ReplyIsOld(s: Session, w: Sending)
    requires Conserved(s) && w.mem.Reply? && Some(w.mem.ticket) == s.reply
    ensures w.mem.ticket < s.pool.issued
  {
    CountOf(s, w.mem.ticket);
  }

  lemma LostReply(s: Session, flow: Flow, w: Sending)
    requires w in Of(s, flow).writes && w.mem.Reply? && Some(w.mem.ticket) != s.reply
    ensures !InFlightOwned(s)
  {
  }

  /** A pass takes no write away. */
  lemma PassKeepsWrites(s: Session, flow: Flow, info: SessionInfo, d: Flow, w: Sending)
    requires w in Of(s, d).writes
    ensures w in Of(Handled(s, flow, info), d).writes
  {
    hide Process, SplitFrames, Reacquired, Kept, Accounted;
    var side := Of(s, flow);
    var r := Process(s.conn, flow, info, side.held);
    if r.Processed? {
      HeldIsShort(s.conn, flow, info, side.held);
      KeptWrites(side, r.conn.state, Reacquired(s.reply, s.pool, Growth(s.conn.replies, RepliesAfter(r))).1, r.held);
    }
  }

  lemma ReadTakesReply(s: Session, h: Happening, d: Flow, w: Sending)
    requires Safe(s) && Conserved(s) && Enabled(s, h) && h.Read? && TakesReply(s, h) && w in Of(s, d).writes && w.mem.Reply?
    ensures !InFlightOwned(Proceed(s, h))
  {
    hide Process, Handled, BuffersSafe, Reacquired, Conserved, InFlightOwned;
    FilledReplies(s, h);
    FilledIssues(s, h);
    var f := Filled(s, h.flow, h.available, h.chunk);
    ReplyIsOld(s, w);
    hide Filled;
    PassKeepsWrites(f, h.flow, h.info, d, w);
    PassConn(f, h.flow, h.info);
    ReacquiredIsNew(f.reply, f.pool, Growth(f.conn.replies, RepliesAfter(Answer(s, h))));
    LostReply(Proceed(s, h), d, w);
  }

  lemma FilledIssues(s: Session, h: Happening)
    requires Enabled(s, h) && h.Read?
    ensures s.pool.issued <= Filled(s, h.flow, h.available, h.chunk).pool.issued
  {
  }

  lemma ReplyInFlight(s: Session) returns (d: Flow, w: Sending)
    requires Safe(s) && !Quiet(s)
    ensures w in Of(s, d).writes && w.mem.Reply? && Some(w.mem.ticket) == s.reply
  {
    hide BuffersSafe;
    d := if NoReplies(s.ingress) then Egress else Ingress;
    w :| w in Of(s, d).writes && w.mem.Reply?;
  }

  lemma GreetingLosesReply(s: Session, d: Flow, w: Sending)
    requires w in Of(s, d).writes && w.mem.Reply? && w.mem.ticket < s.pool.issued
    ensures !InFlightOwned(Greeted(s))
  {
    ReacquiredIsNew(s.reply, s.pool, 1);
    hide Reacquired, InFlightOwned;
    LostReply(Greeted(s), d, w);
  }

  lemma ClosingLosesReply(s: Session, d: Flow, w: Sending)
    requires w in Of(s, d).writes && w.mem.Reply? && w.mem.ticket < s.pool.issued
    ensures !InFlightOwned(Synthesized(s, CloseSynthesized(true)))
  {
    SynthesizedClose(s, true, CloseSynthesized(true));
    hide Synthesized, Apply, InFlightOwned;
    LostReply(Synthesized(s, CloseSynthesized(true)), d, w);
  }

  /** Taking the reply buffer anew under a reply in flight gives its memory back at once. */
  lemma ReplyLostNow(s: Session, h: Happening)
    requires Safe(s) && Conserved(s) && Enabled(s, h) && TakesReply(s, h) && !Quiet(s)
    ensures !InFlightOwned(Proceed(s, h))
  {
    hide Safe, Conserved, InFlightOwned, Enabled, Greeted, Synthesized, Handled, Filled, Quiet, Answer;
    var d, w := ReplyInFlight(s);
    ReplyIsOld(s, w);
    match h
    case Read(_, _, _, _, _) => ReadTakesReply(s, h, d, w);
    case Connected => GreetingLosesReply(s, d, w);
    case Disconnect => ClosingLosesReply(s, d, w);
  }

  /**
   * When a client does not confirm a close, the memory of the broker's Close is given back while
   * that is being written: always.
   */
  lemma GivenUpLoses(s: Session)
    ensures !InFlightOwned(GivenUp(s))
  {
    var s1 := Synthesized(s, CloseSynthesized(false));
    SynthesizedClose(s, false, CloseSynthesized(false));
    SynthesizedClose(s1, true, CloseErrorSynthesized(true));
    hide Synthesized, Apply, InFlightOwned;
    var w := s1.egress.writes[|s.egress.writes|];
    assert w in s1.egress.writes;
    LostReply(GivenUp(s), Egress, w);
  }

  lemma GivingUpLoses(s: Session, h: Happening)
    requires Enabled(s, h) && (h.ReadFailed? || (h.WriteDone? && h.failed)) && GivesUp(s, h.flow)
    ensures !InFlightOwned(Proceed(s, h))
  {
    hide GivenUp, InFlightOwned;
    match h
    case ReadFailed(flow, fetching) =>
      var r := if fetching.Some? then Readied(s, flow, fetching.value) else s;
      GivenUpLoses(With(r, flow, Of(r, flow).(readers := Of(r, flow).readers - 1)));
    case WriteDone(flow, index, failed) =>
      var side := Of(s, flow);
      var (released, pool) := if side.held == [] then Released(side, s.pool) else (side, s.pool);
      GivenUpLoses(With(s, flow, released.(writes := side.writes[..index] + side.writes[index + 1..], readers := side.readers)).(pool := pool));
  }

  // ----- one write more

  lemma LostBuffer(s: Session, flow: Flow, w: Sending)
    requires w in Of(s, flow).writes && w.mem.Pooled?
    requires Of(s, flow).data != Some(w.mem.ticket) && Of(s, flow).spare != Some(w.mem.ticket)
    ensures !PassthroughOwned(s)
  {
  }

  /** With nothing held, the completion of any other write gives back the memory of a passthrough write. */
  lemma OtherWriteFails(s: Session, flow: Flow, i: nat, j: nat)
    requires i < |Of(s, flow).writes| && j < |Of(s, flow).writes| && i != j
    requires Of(s, flow).writes[i].mem.Pooled? && Of(s, flow).held == []
    ensures CanLose(s)
  {
    hide PassthroughOwned;
    var h := WriteDone(flow, j, false);
    var writes, rest := Of(s, flow).writes, Of(Proceed(s, h), flow).writes;
    assert rest[if i < j then i else i - 1] == writes[i];
    LostBuffer(Proceed(s, h), flow, writes[i]);
    LosesNow(Proceed(s, h));
    LosesLater(s, h);
  }

  /** The header has been seen, and nothing is passed on. */
  predicate Between(state: State) {
    !state.AwaitingProtocolHeader? && !state.Open?
  }

  /** There, a pass over no whole frame changes nothing but where the octets are held. */
  lemma IdlePass(c: Conn, flow: Flow, info: SessionInfo, bs: seq<Byte>)
    requires Between(c.state) && SplitFrames(bs) == Split([], 0)
    ensures Process(c, flow, info, bs) == Processed(c, [], [], bs, 0, 0)
  {
    hide TakeFrame;
    IncompleteIsNoFrame(bs);
  }

  lemma IncompleteIsNoFrame(bs: seq<Byte>)
    requires SplitFrames(bs) == Split([], 0)
    ensures DecodeFrame(bs).Incomplete?
  {
  }

  lemma IdleHandled(s: Session, flow: Flow, info: SessionInfo)
    requires var side := Of(s, flow); side.held != [] && Process(s.conn, flow, info, side.held) == Processed(s.conn, [], [], side.held, 0, 0)
    ensures var side, s' := Of(s, flow), Handled(s, flow, info); var side' := Of(s', flow);
      side'.data == Some(s.pool.issued) && side'.spare == side.data && side'.writes == side.writes
  {
    hide Process;
    assert Reacquired(s.reply, s.pool, 0) == (s.reply, s.pool);
  }

  /** With something held, a read that completes no frame turns the handles over and gives back the spare memory. */
  lemma RotationFails(s: Session, flow: Flow, i: nat, info: SessionInfo)
    requires !s.ended && Between(s.conn.state) && Conserved(s) && Of(s, flow).readers > 0 && i < |Of(s, flow).writes|
    requires var side := Of(s, flow);
      && side.held != [] && Backed(side) && SplitFrames(side.held) == Split([], 0)
      && side.writes[i].mem.Pooled? && side.spare == Some(side.writes[i].mem.ticket)
    ensures CanLose(s)
  {
    hide Process, Handled, SplitFrames, Conserved, PassthroughOwned;
    var side, h := Of(s, flow), Read(flow, 0, [], false, info);
    var t := side.writes[i].mem.ticket;
    TicketsDiffer(s, flow, t);
    IdlePass(s.conn, flow, info, side.held);
    NothingFills(s, flow);
    var f := Filled(s, flow, 0, []);
    hide Filled;
    IdleHandled(f, flow, info);
    assert side.writes[i] in Of(Proceed(s, h), flow).writes;
    LostBuffer(Proceed(s, h), flow, side.writes[i]);
    LosesNow(Proceed(s, h));
    LosesLater(s, h);
  }

  lemma TicketsDiffer(s: Session, flow: Flow, t: nat)
    requires Conserved(s) && Of(s, flow).spare == Some(t)
    ensures Of(s, flow).data != Some(t) && t < s.pool.issued
  {
    CountOf(s, t);
  }

  /** Nothing was delivered: asked for no octets, or with a good error code all the same. */
  lemma NothingFills(s: Session, flow: Flow)
    requires Of(s, flow).readers > 0 && Of(s, flow).held != []
    ensures var side, f := Of(s, flow), Filled(s, flow, 0, []);
      && f.conn == s.conn && f.pool == s.pool && f.reply == s.reply && f.ended == s.ended
      && Of(f, flow) == side.(readers := side.readers - 1)
  {
    var side := Of(s, flow);
    assert side.held + [] == side.held && side.received + [] == side.received;
  }

  lemma OneMoreFails(s: Session, flow: Flow, i: nat, j: nat, info: SessionInfo)
    requires !s.ended && Between(s.conn.state) && Conserved(s) && i < j < |Of(s, flow).writes|
    requires var side := Of(s, flow);
      && Backed(side) && SplitFrames(side.held) == Split([], 0) && side.writes[i].mem.Pooled?
      && Some(side.writes[i].mem.ticket) == if side.held == [] then side.data else side.spare
    ensures CanLose(s)
  {
    hide CanLose, Conserved, SplitFrames;
    if Of(s, flow).held == [] {
      OtherWriteFails(s, flow, i, j);
    } else {
      var h := WriteDone(flow, j, false);
      StepConserves(s, h);
      var rest := Of(Proceed(s, h), flow).writes;
      assert rest[i] == Of(s, flow).writes[i];
      RotationFails(Proceed(s, h), flow, i, info);
      LosesLater(s, h);
    }
  }

  /** Which passthrough write is in flight, and out of which memory. */
  lemma PooledWrite(side: Side, closing: bool) returns (i: nat)
    requires SideSafe(side, closing) && !NoPooled(side)
    ensures i < |side.writes| && side.writes[i].mem.Pooled? && SplitFrames(side.held) == Split([], 0)
    ensures Some(side.writes[i].mem.ticket) == if side.held == [] then side.data else side.spare
  {
    hide SplitFrames;
    var w :| w in side.writes && w.mem.Pooled?;
    i :| 0 <= i < |side.writes| && side.writes[i] == w;
  }

  lemma DisconnectFails(s: Session)
    requires Safe(s) && Conserved(s) && Enabled(s, Disconnect) && !NoPooled(s.ingress)
    ensures CanLose(Proceed(s, Disconnect))
  {
    hide CanLose, Conserved, SplitFrames, SideSafe, Synthesized, Apply, NoPooled, RepliesSafe, Tokens;
    var s' := Proceed(s, Disconnect);
    var i := PooledWrite(s.ingress, Closing(s.conn.state));
    StepConserves(s, Disconnect);
    CloseIsSent(s.conn, true, CloseSynthesized(true));
    SynthesizedClose(s, true, CloseSynthesized(true));
    assert s'.ingress.writes[i] == s.ingress.writes[i];
    var info: SessionInfo := *;
    OneMoreFails(s', Ingress, i, |s.ingress.writes|, info);
  }

  lemma ClosingMethodCrosses(c: Conn, m: Received, info: SessionInfo)
    requires Closing(c.state)
    ensures var r := ReceiveMethod(c, m, Ingress, info);
      r.Next? ==> (r.conn.out != [] && !r.conn.toIngress ==> r.conn.state.ServerCloseSent?)
                  && (c.state.ServerCloseSent? ==> r.conn.state.ServerCloseSent?)
  {
    hide Transmit, Ascii;
  }

  /** A closing session that answers its client's read to the broker has just begun to close with it. */
  lemma {:induction false} ClosingFramesCross(c: Conn, info: SessionInfo, bs: seq<Byte>, w: Writes, n: nat)
    requires Closing(c.state) && (w.1 != [] ==> c.state.ServerCloseSent?)
    ensures var r := TakeFrames(c, Ingress, info, bs, w, n); r.Processed? && r.egressWrite != [] ==> r.conn.state.ServerCloseSent?
    decreases |bs|
  {
    hide TakeFrames, DecodeFrame, ReceiveMethod, ToReceived;
    TakeStep(c, Ingress, info, bs, w, n);
    var d := DecodeFrame(bs);
    if d.Complete? {
      var t := TakeFrame(c, Ingress, info, d.frame, w);
      if t.Taken? {
        if d.frame.kind == 1 && |d.frame.payload| >= 4 {
          MethodStaysClosing(c, ToReceived(d.frame.payload), Ingress, info);
          ClosingMethodCrosses(c, ToReceived(d.frame.payload), info);
        }
        ClosingFramesCross(t.conn, info, bs[d.size..], t.w, n + 1);
      }
    }
  }

  lemma ClosingPassCrosses(c: Conn, info: SessionInfo, bs: seq<Byte>)
    requires var r := Process(c, Ingress, info, bs); Closing(c.state) && r.Processed? && r.egressWrite != []
    ensures Process(c, Ingress, info, bs).conn.state.ServerCloseSent?
  {
    hide TakeFrames;
    ClosingFramesCross(c, info, bs, ([], []), 0);
    FramesStayClosing(c, Ingress, info, bs, ([], []), 0);
  }

  // ----- what a crossing leaves

  lemma ReadOf(s: Session, h: Happening)
    requires Enabled(s, h) && h.Read? && h.flow.Ingress? && !h.paused
    ensures var filled := Filled(s, Ingress, h.available, h.chunk);
      && Proceed(s, h) == Handled(filled, Ingress, h.info)
      && filled.egress == s.egress && filled.connected == s.connected && filled.ended == s.ended == false
      && Answer(s, h) == Process(filled.conn, Ingress, h.info, filled.ingress.held)
  {
    hide Handled, Process;
  }

  lemma CrossingWrite(s: Session, info: SessionInfo)
    requires var r := Process(s.conn, Ingress, info, s.ingress.held);
      r.Processed? && !r.conn.state.Open? && !r.conn.state.Error? && r.ingressWrite == [] && r.egressWrite != []
    requires NoPooled(s.ingress)
    ensures var s' := Handled(s, Ingress, info);
      && |s'.egress.writes| == |s.egress.writes| + 1 && s'.egress.writes[..|s.egress.writes|] == s.egress.writes
      && !s'.egress.writes[|s.egress.writes|].mem.Pooled?
      && (s'.egress.writes[|s.egress.writes|].mem.Reply? ==> Some(s'.egress.writes[|s.egress.writes|].mem.ticket) == s'.reply)
      && s'.egress == s.egress.(writes := s'.egress.writes, sent := s'.egress.sent)
      && s'.connected == s.connected && Backed(s'.ingress)
      && s'.ingress.writes == s.ingress.writes && s'.ingress.readers == s.ingress.readers
  {
    hide Process, SplitFrames, Kept, Accounted, Reacquired;
    var r := Process(s.conn, Ingress, info, s.ingress.held);
    HeldIsShort(s.conn, Ingress, info, s.ingress.held);
    KeptIsBacked(s.ingress, Reacquired(s.reply, s.pool, Growth(s.conn.replies, RepliesAfter(r))).1, r.conn.state, r.held);
  }

  /** An answer to the broker, while a passthrough write is in flight to its side. */
  lemma CrossingFails(s: Session, h: Happening)
    requires Safe(s) && Conserved(s) && Enabled(s, h) && Crosses(s, h) && !NoPooled(s.egress)
    ensures CanLose(Proceed(s, h))
  {
    CrossingAnswer(s, h);
    FilledIsBacked(s, h);
    ReadOf(s, h);
    var i := PooledWrite(s.egress, Closing(s.conn.state));
    StepConserves(s, h);
    var filled, s' := Filled(s, Ingress, h.available, h.chunk), Proceed(s, h);
    hide CanLose, Process, Stage, Filled, Handled, Conserved, SplitFrames, SideSafe, Proceed, Crosses, TakesReply;
    CrossingWrite(filled, h.info);
    PassConn(filled, Ingress, h.info);
    if Closing(s.conn.state) {
      ClosingPassCrosses(filled.conn, h.info, filled.ingress.held);
    }
    assert s'.egress.writes[i] == s'.egress.writes[..|s.egress.writes|][i];
    OneMoreFails(s', Egress, i, |s.egress.writes|, h.info);
  }

  // ----- passes over a single method

  lemma MethodPayload(m: Method)
    ensures |EncodeMethod(m)| >= 4
    ensures ToReceived(EncodeMethod(m)) == Received(CONNECTION_CLASS, MethodId(m), EncodeBody(m))
  {
    hide BigEndian, ToUnsigned;
    var class_, method_ := Word(2, CONNECTION_CLASS), Word(2, MethodId(m));
    EncodePartsConcat([class_, method_], BodyOf(m));
    EncodePartsConcat([class_], [method_]);
    OnePart(class_);
    OnePart(method_);
    assert [class_] + [method_] == [class_, method_];
    assert Pow256(2) == 256 * Pow256(1) == 65536;
    UnsignedOfBigEndian(CONNECTION_CLASS, 2);
    UnsignedOfBigEndian(MethodId(m), 2);
    var bs := EncodeMethod(m);
    assert bs == BigEndian(CONNECTION_CLASS, 2) + BigEndian(MethodId(m), 2) + EncodeBody(m);
    assert bs[..2] == BigEndian(CONNECTION_CLASS, 2) && bs[2..4] == BigEndian(MethodId(m), 2) && bs[4..] == EncodeBody(m);
  }

  lemma OnePart(p: Part)
    ensures EncodeParts([p]) == EncodePart(p)
  {
    assert [p][1..] == [];
  }

  /** The octets of one method, framed. */
  function Framed(m: Method): seq<Byte> {
    EncodeFrame(ResponseFrame(m))
  }

  function AsReceived(m: Method): Received {
    Received(CONNECTION_CLASS, MethodId(m), EncodeBody(m))
  }

  /** A read of exactly one method, short of the open state, is that method given to the connector. */
  lemma OneMethodPass(c: Conn, flow: Flow, info: SessionInfo, m: Method, next: Conn)
    requires FitsFrame(m) && !c.state.AwaitingProtocolHeader? && !c.state.Open?
    requires ReceiveMethod(c, AsReceived(m), flow, info) == Next(next)
    ensures Process(c, flow, info, Framed(m)) ==
      if !next.state.Open? then Processed(next, Write(next).0, Write(next).1, [], 1, 0)
      else if flow.Ingress? then Processed(next, [], Framed(m), [], 1, |Framed(m)|)
      else Processed(next, Framed(m), [], [], 1, |Framed(m)|)
  {
    hide ReceiveMethod, EncodeMethod, EncodeBody, DecodeFrame, EncodeFrame, ToReceived, TakeFrames;
    var bs, n := Framed(m), |Framed(m)|;
    MethodPayload(m);
    WithinWord(m);
    DecodeEncodedFrame(ResponseFrame(m), []);
    assert bs + [] == bs && bs[n..] == [] && bs[..n] == bs;
    TakeStep(c, flow, info, bs, ([], []), 0);
    ShortIsIncomplete([]);
    TakeStep(next, flow, info, [], Write(next), 1);
  }

  lemma WithinWord(m: Method)
    requires FitsFrame(m)
    ensures Representable(ResponseFrame(m))
  {
    hide EncodeMethod;
    assert Pow256(4) == 256 * Pow256(3) && Pow256(3) == 256 * Pow256(2) && Pow256(2) == 256 * Pow256(1);
  }

  function SomeTune(): Method {
    TuneMethod(Tune(0, 0, 0))
  }

  lemma TuneFits(t: Tune)
    ensures FitsFrame(TuneMethod(t))
  {
    hide BigEndian;
    FiveParts(PartsOf(TuneMethod(t)));
  }

  lemma OpenOkFits()
    ensures FitsFrame(OpenOkMethod)
  {
    hide BigEndian;
    var ps := PartsOf(OpenOkMethod);
    assert |EncodeParts(ps)| == |EncodePart(ps[0])| + |EncodeParts(ps[1..])|;
    assert ps[1..] == [Word(2, OPEN_OK_ID), ShortText([])] && ps[1..][1..] == [ShortText([])];
    assert |EncodeParts(ps[1..])| == |EncodePart(ps[1])| + |EncodeParts(ps[1..][1..])|;
    OnePart(ShortText([]));
  }

  lemma SomeTuneReadsBack()
    ensures DecodeTune(EncodeBody(SomeTune())).Ok?
  {
    var t := Tune(0, 0, 0);
    assert WellFormedMethod(TuneMethod(t));
    hide EncodeBody, DecodeTune, WellFormedMethod;
    DecodeEncodedTune(TuneMethod(t), t, []);
    assert EncodeBody(TuneMethod(t)) + [] == EncodeBody(TuneMethod(t));
  }

  lemma TuneReceived(c: Conn, flow: Flow, info: SessionInfo)
    requires c.state.StartOkSent? && |c.vhost| <= SHORT_STRING_LIMIT
    ensures var r := ReceiveMethod(c, AsReceived(SomeTune()), flow, info);
      r.Next? && r.conn.state.OpenSent? && r.conn.vhost == c.vhost && r.conn.out != [] && !r.conn.toIngress
  {
    hide Transmit, EncodeBody, DecodeTune, EncodeFrame, FitsFrame, ResponseFrame, WellFormedMethod, Mismatch, Undecodable;
    SomeTuneReadsBack();
    TuneOkAndOpenFit(c.tuneOk, c.vhost);
    TransmittedIffFits(TuneOkMethod(c.tuneOk));
    TransmittedIffFits(OpenMethod(c.vhost));
  }

  // ----- what the broker's frames do in the last steps of the handshake

  /** The connector does not throw on this frame of the broker's. */
  predicate Acceptable(state: State, f: Frame) {
    f.kind == 1 ==>
      && |f.payload| >= 4
      && (IsConnectionMethod(f) && state.StartOkSent? ==>
            var m := ToReceived(f.payload); m.methodId == TUNE_ID && DecodeTune(m.payload).Ok?)
  }

  predicate Last(state: State) {
    state.StartOkSent? || state.OpenSent?
  }

  lemma TakenIffAcceptable(c: Conn, info: SessionInfo, f: Frame)
    requires Last(c.state) && |c.vhost| <= SHORT_STRING_LIMIT
    ensures var t := TakeFrame(c, Egress, info, f, ([], []));
      && (t.Taken? <==> Acceptable(c.state, f))
      && (t.Taken? ==>
            && t.conn.vhost == c.vhost
            && if c.state.StartOkSent? && IsConnectionMethod(f) then t.conn.state.OpenSent? && t.w.0 == [] && t.w.1 != []
               else if IsConnectionMethod(f) && ToReceived(f.payload).methodId == OPEN_OK_ID then t.conn.state.Open?
               else t.conn.state == c.state && t.w == ([], []))
  {
    hide Transmit, DecodeTune, EncodeFrame, FitsFrame, ResponseFrame, Mismatch, Undecodable, ToUnsigned;
    TuneOkAndOpenFit(c.tuneOk, c.vhost);
    TransmittedIffFits(TuneOkMethod(c.tuneOk));
    TransmittedIffFits(OpenMethod(c.vhost));
    OpenOkFits();
    TransmittedIffFits(OpenOkMethod);
  }

  /** A pass over exactly one frame of the broker's. */
  lemma OneFramePass(c: Conn, info: SessionInfo, bs: seq<Byte>, f: Frame)
    requires Last(c.state) && |c.vhost| <= SHORT_STRING_LIMIT && DecodeFrame(bs) == Complete(f, |bs|) && Acceptable(c.state, f)
    ensures var t := TakeFrame(c, Egress, info, f, ([], []));
      t.Taken? && Process(c, Egress, info, bs) ==
        if t.conn.state.Open? then Processed(t.conn, bs, [], [], 1, |bs|) else Processed(t.conn, t.w.0, t.w.1, [], 1, 0)
  {
    hide TakeFrame, TakeFrames, DecodeFrame, Acceptable;
    TakenIffAcceptable(c, info, f);
    var t := TakeFrame(c, Egress, info, f, ([], []));
    TakeStep(c, Egress, info, bs, ([], []), 0);
    ShortIsIncomplete([]);
    assert bs[|bs|..] == [] && bs[..|bs|] == bs;
    TakeStep(t.conn, Egress, info, [], t.w, 1);
  }

  /** What is held can be completed to a frame, this one. */
  predicate Completes(held: seq<Byte>, rest: seq<Byte>, f: Frame) {
    |held + rest| <= MAX_FRAME_SIZE && DecodeFrame(held + rest) == Complete(f, |held + rest|)
  }

  /** What is held can be completed to a frame the connector does not throw on. */
  ghost predicate Hopeful(state: State, held: seq<Byte>) {
    exists f, rest :: Completes(held, rest, f) && Acceptable(state, f)
  }

  /** The broker's method that takes the handshake further. */
  function NextMethod(state: State): Method {
    if state.StartOkSent? then SomeTune() else OpenOkMethod
  }

  lemma NextCompletes(state: State)
    requires Last(state)
    ensures var m := NextMethod(state);
      && Completes([], Framed(m), ResponseFrame(m)) && Acceptable(state, ResponseFrame(m)) && IsConnectionMethod(ResponseFrame(m))
      && ToReceived(ResponseFrame(m).payload).methodId == MethodId(m)
  {
    hide EncodeFrame, DecodeFrame, EncodeMethod, EncodeBody, DecodeTune, ToReceived;
    var m := NextMethod(state);
    TuneFits(Tune(0, 0, 0));
    OpenOkFits();
    WithinWord(m);
    DecodeEncodedFrame(ResponseFrame(m), []);
    assert Framed(m) + [] == Framed(m) && [] + Framed(m) == Framed(m);
    MethodPayload(m);
    SomeTuneReadsBack();
    FramedIsShort(m);
  }

  lemma FramedIsShort(m: Method)
    requires FitsFrame(m)
    ensures |Framed(m)| <= MAX_FRAME_SIZE
  {
    hide EncodeMethod;
  }

  // ----- a second read of the broker's, and where it leads

  /** Answered to the broker in the last steps of the handshake, with a read outstanding there as well. */
  ghost predicate Crossed(s: Session) {
    && !s.ended && Conserved(s) && Last(s.conn.state) && |s.conn.vhost| <= SHORT_STRING_LIMIT
    && s.ingress.writes == [] && NoPooled(s.egress) && Backed(s.egress)
    && (s.egress.held != [] ==> s.connected && s.egress.size == MAX_FRAME_SIZE && SplitFrames(s.egress.held) == Split([], 0))
    && Tokens(s.egress) == if s.connected then 2 else 1
  }

  function BrokerRead(chunk: seq<Byte>, info: SessionInfo): Happening {
    Read(Egress, |chunk|, chunk, false, info)
  }

  lemma BrokerReadFills(s: Session, chunk: seq<Byte>, info: SessionInfo)
    requires Crossed(s) && s.egress.readers > 0 && chunk != [] && |s.egress.held + chunk| <= MAX_FRAME_SIZE
    ensures Enabled(s, BrokerRead(chunk, info))
    ensures var f := Filled(s, Egress, |chunk|, chunk);
      && f.conn == s.conn && f.connected == s.connected && !f.ended && f.ingress == s.ingress
      && f.egress.held == s.egress.held + chunk && f.egress.data.Some?
      && f.egress.readers == s.egress.readers - 1 && f.egress.writes == s.egress.writes
      && Answer(s, BrokerRead(chunk, info)) == Process(s.conn, Egress, info, f.egress.held)
      && Proceed(s, BrokerRead(chunk, info)) == Handled(f, Egress, info)
  {
    hide Process, Handled, Conserved, NoPooled;
    assert [] + chunk == chunk;
  }

  /** A pass that uses everything up. */
  lemma BrokerPassUsesUp(s: Session, info: SessionInfo)
    requires var r := Process(s.conn, Egress, info, s.egress.held);
      && r.Processed? && r.held == [] && (WriteFor(r, Egress) == Some(Egress) || WriteFor(r, Egress) == None)
      && !r.conn.state.Error? && !r.conn.state.Closed?
    requires s.egress.data.Some? && !s.ended && s.egress.writes == []
    ensures var r := Process(s.conn, Egress, info, s.egress.held); var s' := Handled(s, Egress, info);
      && s'.conn == r.conn && !s'.ended && s'.connected == s.connected && s'.ingress == s.ingress
      && s'.egress.held == [] && s'.egress.data == s.egress.data
      && if WriteFor(r, Egress).None? then s'.egress.readers == s.egress.readers + 1 && s'.egress.writes == []
         else
           && s'.egress.readers == s.egress.readers && |s'.egress.writes| == 1
           && (if r.conn.state.Open? then s'.egress.writes[0].mem == Pooled(s.egress.data.value) else !s'.egress.writes[0].mem.Pooled?)
  {
    hide Process, SplitFrames, Reacquired;
  }

  /** Whichever of its reads completes the frame, the broker is heard once more than it is read from. */
  lemma FrameArrives(s: Session, f: Frame, rest: seq<Byte>, info: SessionInfo)
    requires Crossed(s) && s.connected && s.egress.writes == [] && rest != []
    requires Completes(s.egress.held, rest, f) && Acceptable(s.conn.state, f)
    ensures var h := BrokerRead(rest, info);
      && Enabled(s, h) && Aligned(s, h)
      && var s' := Proceed(s, h);
         var opens := s.conn.state.OpenSent? && IsConnectionMethod(f) && ToReceived(f.payload).methodId == OPEN_OK_ID;
         if opens then CanLose(s')
         else
           && Crossed(s') && s'.connected && s'.egress.held == []
           && s'.conn.state == if s.conn.state.StartOkSent? && IsConnectionMethod(f) then OpenSent else s.conn.state
  {
    hide Process, Handled, Filled, Conserved, TakeFrame, Acceptable, CanLose, DecodeFrame, IsConnectionMethod, ToReceived;
    var h, bs := BrokerRead(rest, info), s.egress.held + rest;
    OneFramePass(s.conn, info, bs, f);
    TakenIffAcceptable(s.conn, info, f);
    BrokerReadFills(s, rest, info);
    var filled := Filled(s, Egress, |rest|, rest);
    BrokerPassUsesUp(filled, info);
    assert Aligned(s, h);
    StepConserves(s, h);
    var s' := Proceed(s, h);
    if s'.conn.state.Open? {
      assert s'.egress.writes[0] in s'.egress.writes;
      SecondReadFails(s', s'.egress.data.value);
    }
  }

  lemma {:induction false} CrossedFails(s: Session, info: SessionInfo)
    requires Crossed(s) && Hopeful(s.conn.state, s.egress.held)
    ensures CanLose(s)
    decreases !s.connected, s.egress.held != [], s.conn.state.StartOkSent?, |s.egress.writes|
  {
    hide Conserved, CanLose, Acceptable, Completes, IsConnectionMethod, ToReceived, Aligned, NextMethod;
    if s.egress.writes != [] {
      WrittenCrosses(s);
      CrossedFails(Proceed(s, WriteDone(Egress, 0, false)), info);
      LosesLater(s, WriteDone(Egress, 0, false));
    } else if !s.connected {
      ConnectedCrosses(s);
      CrossedFails(Proceed(s, Connected), info);
      LosesLater(s, Connected);
    } else {
      var f, rest := NextFrame(s);
      FrameArrives(s, f, rest, info);
      var h := BrokerRead(rest, info);
      if Crossed(Proceed(s, h)) && !CanLose(Proceed(s, h)) {
        NothingIsHopeful(Proceed(s, h).conn.state);
        CrossedFails(Proceed(s, h), info);
      }
      LosesLater(s, h);
    }
  }

  lemma NothingIsHopeful(state: State)
    requires Last(state)
    ensures Hopeful(state, [])
  {
    hide Completes, Acceptable;
    NextCompletes(state);
  }

  lemma NextFrame(s: Session) returns (f: Frame, rest: seq<Byte>)
    requires Crossed(s) && Hopeful(s.conn.state, s.egress.held)
    ensures Completes(s.egress.held, rest, f) && Acceptable(s.conn.state, f) && rest != []
    ensures s.egress.held == [] ==> IsConnectionMethod(f) && (s.conn.state.OpenSent? ==> ToReceived(f.payload).methodId == OPEN_OK_ID)
  {
    hide Conserved, Acceptable, DecodeFrame, IsConnectionMethod, ToReceived;
    if s.egress.held == [] {
      NextCompletes(s.conn.state);
      f, rest := ResponseFrame(NextMethod(s.conn.state)), Framed(NextMethod(s.conn.state));
    } else {
      f, rest :| Completes(s.egress.held, rest, f) && Acceptable(s.conn.state, f);
      IncompleteIsNoFrame(s.egress.held);
      assert s.egress.held + [] == s.egress.held;
    }
  }

  lemma WrittenCrosses(s: Session)
    requires Crossed(s) && s.egress.writes != []
    ensures var h := WriteDone(Egress, 0, false); Enabled(s, h) && Aligned(s, h)
    ensures var s' := Proceed(s, WriteDone(Egress, 0, false));
      && Crossed(s') && s'.conn == s.conn && s'.connected == s.connected && s'.egress.held == s.egress.held
      && |s'.egress.writes| < |s.egress.writes|
  {
    hide Conserved;
    StepConserves(s, WriteDone(Egress, 0, false));
  }

  lemma ConnectedCrosses(s: Session)
    requires Crossed(s) && !s.connected && s.egress.writes == []
    ensures Enabled(s, Connected) && Aligned(s, Connected)
    ensures var s' := Proceed(s, Connected);
      Crossed(s') && s'.connected && s'.conn.state == s.conn.state && s'.egress.held == s.egress.held
  {
    hide Conserved, Reacquired;
    StepConserves(s, Connected);
  }

  // ----- what is held cannot become anything the connector takes

  /** Then nothing of the broker's is heard any more: the next whole frame ends the session. */
  ghost predicate Stuck(s: Session) {
    && s.ingress.writes == [] && NoPooled(s.egress) && Replying(s.egress, s.reply)
    && (!s.ended ==>
          && s.ingress.readers == 0 && Backed(s.ingress) && s.connected
          && Last(s.conn.state) && |s.conn.vhost| <= SHORT_STRING_LIMIT
          && s.egress.held != [] && Backed(s.egress) && s.egress.size == MAX_FRAME_SIZE
          && DecodeFrame(s.egress.held).Incomplete? && !Hopeful(s.conn.state, s.egress.held))
  }

  lemma MoreIsHopeless(state: State, held: seq<Byte>, chunk: seq<Byte>)
    requires !Hopeful(state, held)
    ensures !Hopeful(state, held + chunk)
  {
    hide Acceptable, DecodeFrame;
    forall f, rest ensures !(Completes(held + chunk, rest, f) && Acceptable(state, f)) {
      assert held + chunk + rest == held + (chunk + rest);
      assert Completes(held + chunk, rest, f) ==> Completes(held, chunk + rest, f);
    }
  }

  lemma WholeFrameCompletes(held: seq<Byte>, chunk: seq<Byte>)
    requires DecodeFrame(held).Incomplete? && DecodeFrame(held + chunk).Complete? && |held + chunk| <= MAX_FRAME_SIZE
    ensures var d := DecodeFrame(held + chunk);
      |held| < d.size <= |held + chunk| && Completes(held, chunk[..d.size - |held|], d.frame)
  {
    hide ToUnsigned;
    var bs := held + chunk;
    var d := DecodeFrame(bs);
    if |held| >= FRAME_OVERHEAD {
      DecodeIgnoresWhatFollows(held, chunk);
    }
    var rest := chunk[..d.size - |held|];
    assert held + rest == bs[..d.size] && bs == bs[..d.size] + bs[d.size..];
    DecodeIgnoresWhatFollows(bs[..d.size], bs[d.size..]);
  }

  /** More of the same, or an exception. */
  lemma HopelessPass(c: Conn, info: SessionInfo, held: seq<Byte>, chunk: seq<Byte>)
    requires Last(c.state) && |c.vhost| <= SHORT_STRING_LIMIT && DecodeFrame(held).Incomplete? && !Hopeful(c.state, held)
    requires |held + chunk| <= MAX_FRAME_SIZE
    ensures var r := Process(c, Egress, info, held + chunk);
      if r.Processed? then r == Processed(c, [], [], held + chunk, 0, 0) && DecodeFrame(held + chunk).Incomplete?
      else r.replies == c.replies
  {
    hide TakeFrame, TakeFrames, DecodeFrame, Completes, Acceptable;
    var bs := held + chunk;
    TakeStep(c, Egress, info, bs, ([], []), 0);
    var d := DecodeFrame(bs);
    if d.Complete? {
      WholeFrameCompletes(held, chunk);
      TakenIffAcceptable(c, info, d.frame);
    }
  }

  lemma StuckRead(s: Session, h: Happening)
    requires Stuck(s) && Enabled(s, h) && h.Read? && h.flow.Egress?
    ensures Stuck(Proceed(s, h))
  {
    hide Process, DecodeFrame, Hopeful, SplitFrames;
    var held, chunk := s.egress.held, h.chunk;
    HopelessPass(s.conn, h.info, held, chunk);
    MoreIsHopeless(s.conn.state, held, chunk);
    var filled := Filled(s, Egress, h.available, chunk);
    var r := Process(s.conn, Egress, h.info, held + chunk);
    HeldIsShort(s.conn, Egress, h.info, held + chunk);
    assert Reacquired(filled.reply, filled.pool, 0) == (filled.reply, filled.pool);
    assert filled.egress.held == held + chunk && filled.egress.writes == s.egress.writes && filled.reply == s.reply;
    var s' := Proceed(s, h);
    assert s'.reply == s.reply && s'.egress.writes == s.egress.writes && s'.ingress == s.ingress;
    assert r.Refused? ==> s'.ended;
    assert r.Processed? ==> s'.conn == s.conn && s'.egress.held == held + chunk && s'.egress.size == MAX_FRAME_SIZE && s'.egress.data.Some?;
    assert |held + chunk| >= |held|;
  }

  lemma StuckWrites(s: Session, index: nat, failed: bool)
    requires Stuck(s) && index < |s.egress.writes|
    ensures Stuck(Completed(s, Egress, index, failed))
  {
    hide DecodeFrame, Hopeful;
    var rest := s.egress.writes[..index] + s.egress.writes[index + 1..];
    assert forall w :: w in rest ==> w in s.egress.writes;
  }

  lemma StuckCloses(s: Session)
    requires Stuck(s) && !s.ended && Quiet(s)
    ensures Safe(Proceed(s, Disconnect))
  {
    hide DecodeFrame, Hopeful, SplitFrames, Synthesized, Apply;
    CloseIsSent(s.conn, true, CloseSynthesized(true));
    SynthesizedClose(s, true, CloseSynthesized(true));
  }

  lemma StuckStep(s: Session, h: Happening)
    requires Stuck(s) && Enabled(s, h) && Aligned(s, h)
    ensures Stuck(Proceed(s, h)) || Safe(Proceed(s, h))
  {
    hide DecodeFrame, Hopeful, Safe, Handled, Filled, Completed, Synthesized, Crosses;
    match h
    case Read(flow, _, _, _, _) => StuckRead(s, h);
    case WriteDone(flow, index, failed) => StuckWrites(s, index, failed);
    case Disconnect => StuckCloses(s);
    case _ =>
  }

  lemma {:induction false} StuckRunOwns(s: Session, hs: seq<Happening>)
    requires Stuck(s) && Possible(s, hs) && AllAligned(s, hs)
    ensures InFlightOwned(ProceedAll(s, hs))
    decreases |hs|
  {
    hide Enabled, Aligned, Proceed, Safe, Hopeful;
    if hs != [] {
      hide Stuck, InFlightOwned;
      var next := Proceed(s, hs[0]);
      StuckStep(s, hs[0]);
      if Stuck(next) {
        StuckRunOwns(next, hs[1..]);
      } else {
        AlignedRunIsSafe(next, hs[1..]);
        SafeIsOwned(ProceedAll(next, hs[1..]));
      }
    }
  }

  lemma StuckCannotFail(s: Session)
    requires Stuck(s)
    ensures !CanFail(s)
  {
    hide Stuck, Enabled, Aligned, Proceed, InFlightOwned;
    forall hs ensures !Fails(s, hs) {
      if Possible(s, hs) && AllAligned(s, hs) {
        StuckRunOwns(s, hs);
      }
    }
  }

  lemma SafeCannotFail(s: Session)
    requires Safe(s)
    ensures !CanFail(s)
  {
    hide Safe, Enabled, Aligned, Proceed, InFlightOwned;
    forall hs ensures !Fails(s, hs) {
      if Possible(s, hs) && AllAligned(s, hs) {
        AlignedRunIsSafe(s, hs);
        SafeIsOwned(ProceedAll(s, hs));
      }
    }
  }

  // ----- exactly

  /** Where a crossing short of closing leads. */
  lemma CrossingLeads(s: Session, h: Happening)
    requires Safe(s) && Conserved(s) && Enabled(s, h) && Crosses(s, h) && !Closing(s.conn.state) && Quiet(s) && NoPooled(s.egress)
    ensures var s' := Proceed(s, h);
      && Crossed(s') && s'.conn.state == Answer(s, h).conn.state && s'.egress.held == s.egress.held
      && s'.ingress.readers == 0 && Backed(s'.ingress) && Replying(s'.egress, s'.reply)
  {
    hide Process, Conserved, ConnSafe, SideSafe, Handled, Filled, SplitFrames, Proceed, Answer, Crosses, TakesReply;
    StepConserves(s, h);
    CrossingAnswer(s, h);
    FilledIsBacked(s, h);
    ReadOf(s, h);
    hide Stage;
    var filled := Filled(s, Ingress, h.available, h.chunk);
    PassConn(filled, Ingress, h.info);
    CrossingWrite(filled, h.info);
    LastOf(s.egress, Proceed(s, h).egress, Proceed(s, h).reply);
  }

  lemma LastOf(before: Side, after: Side, reply: Option<nat>)
    requires |after.writes| == |before.writes| + 1 && after.writes[..|before.writes|] == before.writes
    requires var w := after.writes[|before.writes|]; !w.mem.Pooled? && (w.mem.Reply? ==> Some(w.mem.ticket) == reply)
    requires NoPooled(before) && NoReplies(before)
    ensures NoPooled(after) && Replying(after, reply)
  {
    assert after.writes == before.writes + [after.writes[|before.writes|]];
  }

  /**
   * An aligned happening, or a client's read that is answered to the broker while part of a
   * frame of the broker's is held that cannot be completed to one the connector takes.
   */
  ghost predicate Harmless(s: Session, h: Happening)
    requires Enabled(s, h)
  {
    || Aligned(s, h)
    || (Crosses(s, h) && !Closing(s.conn.state) && Quiet(s) && NoPooled(s.egress)
        && !Hopeful(Answer(s, h).conn.state, s.egress.held))
  }

  lemma CrossingFailsIff(s: Session, h: Happening)
    requires Safe(s) && Conserved(s) && Enabled(s, h) && Crosses(s, h) && !Closing(s.conn.state) && Quiet(s) && NoPooled(s.egress)
    ensures Hopeful(Answer(s, h).conn.state, s.egress.held) <==> CanFail(Proceed(s, h))
  {
    hide Hopeful, CanFail, CanLose, Proceed, Answer, DecodeFrame, Conserved, Crosses, Safe, Enabled;
    CrossingAnswer(s, h);
    CrossingLeads(s, h);
    var s' := Proceed(s, h);
    if Hopeful(s'.conn.state, s'.egress.held) {
      CrossedFails(s', h.info);
      LosingFails(s');
    } else {
      if s'.egress.held == [] {
        NothingIsHopeful(s'.conn.state);
      }
      IncompleteIsNoFrame(s'.egress.held);
      StuckCannotFail(s');
    }
  }

  lemma UnalignedFailsUnlessHarmless(s: Session, h: Happening)
    requires Safe(s) && Conserved(s) && Enabled(s, h) && !Aligned(s, h)
    ensures Harmless(s, h) <==> !CanFail(Proceed(s, h))
  {
    hide Safe, Conserved, CanFail, CanLose, Proceed, Hopeful, Enabled, Quiet, NoPooled, Answer, Crosses, TakesReply, GivesUp, InFlightOwned;
    if TakesReply(s, h) && !Quiet(s) {
      ReplyLostNow(s, h);
      FailsNow(Proceed(s, h));
    } else if h.Disconnect? {
      assert !Crosses(s, h) by { OnlyReadsCross(s, h); }
      DisconnectFails(s);
      LosingFails(Proceed(s, h));
    } else if h.ReadFailed? || (h.WriteDone? && h.failed) {
      assert !Crosses(s, h) by { OnlyReadsCross(s, h); }
      GivingUpLoses(s, h);
      FailsNow(Proceed(s, h));
    } else {
      CrossingAnswer(s, h);
      if NoPooled(s.egress) {
        CrossesToEgress(s, h);
        CrossingFailsIff(s, h);
      } else {
        CrossingFails(s, h);
        LosingFails(Proceed(s, h));
      }
    }
  }

  lemma OnlyReadsCross(s: Session, h: Happening)
    requires Enabled(s, h) && !h.Read?
    ensures !Crosses(s, h)
  {
  }

  lemma CrossesToEgress(s: Session, h: Happening)
    requires Safe(s) && Enabled(s, h) && Crosses(s, h)
    ensures WriteFor(Answer(s, h), h.flow) == Some(Egress)
  {
    hide Safe, Answer, TakesReply;
    CrossingAnswer(s, h);
  }

  lemma SafeIffHarmless(s: Session, h: Happening)
    requires Safe(s) && Conserved(s) && Enabled(s, h)
    ensures Harmless(s, h) <==> !CanFail(Proceed(s, h))
  {
    hide Safe, Conserved, CanFail, Proceed, Hopeful, Enabled, Aligned, Crosses;
    if Aligned(s, h) {
      StepKeepsSafe(s, h);
      SafeCannotFail(Proceed(s, h));
    } else {
      UnalignedFailsUnlessHarmless(s, h);
    }
  }

  /**
   * Exactly when: after any aligned run, in any state of the connector and whatever is held,
   * what happens next leaves the memory behind every write owned in all aligned continuations
   * if and only if it is harmless.
   */
  lemma OwnedIffHarmless(start: Start, tune: Tune, hs: seq<Happening>, h: Happening)
    requires Possible(Started(start, tune), hs) && AllAligned(Started(start, tune), hs)
    requires Enabled(ProceedAll(Started(start, tune), hs), h)
    ensures var s := ProceedAll(Started(start, tune), hs); Harmless(s, h) <==> !CanFail(Proceed(s, h))
  {
    hide Safe, Conserved, Enabled, Aligned, Proceed, CanFail, Harmless;
    StartIsSafe(start, tune);
    AlignedRunIsSafe(Started(start, tune), hs);
    RunConserves(Started(start, tune), hs);
    SafeIffHarmless(ProceedAll(Started(start, tune), hs), h);
  }

  /**
   * So it is when a client takes the broker's part while the broker's refusal, or anything
   * else than a Tune, is on its way: that read is unaligned, and costs no write its memory.
   */
  lemma RefusalOnItsWay(s: Session, h: Happening)
    requires Safe(s) && Conserved(s) && Enabled(s, h) && Crosses(s, h) && Quiet(s) && NoPooled(s.egress)
    requires Answer(s, h).conn.state.StartOkSent?
    requires var held := s.egress.held;
      |held| >= 11 && held[0] == 1 && ToUnsigned(held[7..9]) == CONNECTION_CLASS && ToUnsigned(held[9..11]) != TUNE_ID
    ensures !Aligned(s, h) && !CanFail(Proceed(s, h))
  {
    hide Safe, Conserved, CanFail, Proceed, Hopeful, Enabled, Quiet, NoPooled, Answer, Crosses, TakesReply, ToUnsigned;
    CrossingAnswer(s, h);
    OtherMethodIsHopeless(s.egress.held);
    SafeIffHarmless(s, h);
  }

  lemma Inner(bs: seq<Byte>, i: nat, j: nat, a: nat, b: nat)
    requires i <= j <= |bs| && a <= b <= j - i
    ensures bs[i..j][a..b] == bs[i + a..i + b]
  {
    var x, y := bs[i..j][a..b], bs[i + a..i + b];
    assert |x| == |y|;
    assert forall k :: 0 <= k < |x| ==> x[k] == y[k];
  }

  lemma OtherMethodIsHopeless(held: seq<Byte>)
    requires |held| >= 11 && held[0] == 1 && ToUnsigned(held[7..9]) == CONNECTION_CLASS && ToUnsigned(held[9..11]) != TUNE_ID
    ensures !Hopeful(StartOkSent, held)
  {
    hide ToUnsigned, DecodeTune;
    forall f, rest ensures !(Completes(held, rest, f) && Acceptable(StartOkSent, f)) {
      if Completes(held, rest, f) && |f.payload| >= 4 {
        var bs := held + rest;
        Inner(bs, 7, |bs| - 1, 0, 2);
        Inner(bs, 7, |bs| - 1, 2, 4);
        assert bs[7..9] == held[7..9] && bs[9..11] == held[9..11];
      }
    }
  }

  /**
   * A graceful disconnect costs a write its memory in every open session: it is enough that the
   * client has just sent a frame.
   */
  lemma OpenDisconnectFails(s: Session, f: Frame, info: SessionInfo)
    requires Safe(s) && Conserved(s) && !s.ended && s.conn.state.Open? && s.ingress.held == [] && s.ingress.readers == 1 && Representable(f)
    ensures var h := Read(Ingress, |EncodeFrame(f)|, EncodeFrame(f), false, info);
      Enabled(s, h) && Enabled(Proceed(s, h), Disconnect) && CanLose(Proceed(Proceed(s, h), Disconnect))
  {
    hide CanLose, Process, EncodeFrame, Safe, Proceed, Conserved, Representable, SplitFrames, NoPooled;
    var h := Read(Ingress, |EncodeFrame(f)|, EncodeFrame(f), false, info);
    ClientFrameInFlight(s, f, info);
    StepConserves(s, h);
    DisconnectFails(Proceed(s, h));
  }

  lemma ClientFrameInFlight(s: Session, f: Frame, info: SessionInfo)
    requires Safe(s) && !s.ended && s.conn.state.Open? && s.ingress.held == [] && s.ingress.readers == 1 && Representable(f)
    ensures var h := Read(Ingress, |EncodeFrame(f)|, EncodeFrame(f), false, info);
      Enabled(s, h) && var s' := Proceed(s, h); Safe(s') && !s'.ended && s'.ingress.held == [] && !NoPooled(s'.ingress)
  {
    var bs := EncodeFrame(f);
    var h := Read(Ingress, |bs|, bs, false, info);
    var filled := Filled(s, Ingress, |bs|, bs);
    OneFrameSplits(f);
    OpenPassesThrough(s.conn, Ingress, info, bs);
    FrameFills(s, bs, info);
    hide Process, SplitFrames, Handled, EncodeFrame, Representable, Filled, Safe;
    assert |bs| >= 1 && bs[|bs|..] == [] && bs[..|bs|] == bs;
    StepKeepsSafe(s, h);
    PassHandsOn(filled, info);
    PassConn(filled, Ingress, info);
    var s' := Proceed(s, h);
    assert s'.ingress.writes[|filled.ingress.writes|] in s'.ingress.writes;
  }

  lemma FrameFills(s: Session, bs: seq<Byte>, info: SessionInfo)
    requires !s.ended && s.ingress.held == [] && s.ingress.readers > 0 && bs != []
    ensures var h := Read(Ingress, |bs|, bs, false, info); var filled := Filled(s, Ingress, |bs|, bs);
      && Enabled(s, h) && Proceed(s, h) == Handled(filled, Ingress, info)
      && filled.ingress.held == bs && filled.ingress.data.Some? && filled.conn == s.conn && !filled.ended
      && Answer(s, h) == Process(s.conn, Ingress, info, bs)
  {
    hide Process, Handled;
    assert [] + bs == bs;
  }

  lemma OneFrameSplits(f: Frame)
    requires Representable(f)
    ensures SplitFrames(EncodeFrame(f)) == Split([f], |EncodeFrame(f)|)
  {
    var bs := EncodeFrame(f);
    DecodeEncodedFrame(f, []);
    hide EncodeFrame, Representable;
    assert bs + [] == bs && bs[|bs|..] == [];
  }

  /** A pass that hands everything on. */
  lemma PassHandsOn(s: Session, info: SessionInfo)
    requires var r := Process(s.conn, Ingress, info, s.ingress.held);
      r.Processed? && r.conn.state.Open? && r.held == [] && r.ingressWrite == [] && r.egressWrite != [] && s.ingress.data.Some?
    ensures var s' := Handled(s, Ingress, info);
      s'.ingress.held == [] && |s'.ingress.writes| == |s.ingress.writes| + 1 &&
      s'.ingress.writes[|s.ingress.writes|].mem == Pooled(s.ingress.data.value)
  {
    hide Process, SplitFrames;
  }
}
