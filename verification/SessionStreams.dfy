/** What a session writes on is what it read: nothing is lost, added or reordered, in either direction. */
module SessionStreams {
  import opened Bytes
  import opened Frames
  import opened Methods
  import opened ConnectorModel
  import opened ConnectorRuns
  import opened PacketModel
  import opened Options
  import opened SessionModel
  import opened SessionRuns

  /**
   * All that was read: what the proxy kept to itself, the frames passed on, what it kept while
   * closing, what is held. All that was written to pass something on: those frames.
   */
  ghost predicate SideStreams(side: Side) {
    && side.received == side.eaten + EncodeAll(side.frames) + side.late + side.held
    && side.sent == EncodeAll(side.frames)
    && (forall f :: f in side.frames ==> Representable(f))
  }

  predicate Housed(side: Side) {
    side.held != [] ==> side.data.Some?
  }

  predicate StillHoused(s: Session, s': Session) {
    s'.ended || ((Housed(s.ingress) ==> Housed(s'.ingress)) && (Housed(s.egress) ==> Housed(s'.egress)))
  }

  ghost predicate Streams(s: Session) {
    && SideStreams(s.ingress) && SideStreams(s.egress)
    && (s.ingress.frames != [] || s.egress.frames != [] ==> s.conn.state.Open? || Closing(s.conn.state))
    && (s.ingress.late != [] || s.egress.late != [] ==> Closing(s.conn.state))
    && (!s.ended ==> Housed(s.ingress) && Housed(s.egress))
  }

  /** A direction after a pass: its account, what is left, and what was written of what was read. */
  function AfterPass(side: Side, r: Processed): Side
    requires r.Processed? && |r.held| <= |side.held|
  {
    Accounted(side, r.conn.state, side.held, |r.held|)
      .(held := r.held, sent := side.sent + if r.conn.state.Open? then WriteOf(r) else [])
  }

  lemma OpenPassKeeps(side: Side, state: State, rest: seq<Byte>)
    requires SideStreams(side) && side.late == [] && state.Open?
    requires SplitFrames(side.held).Split? && rest == side.held[SplitFrames(side.held).used..]
    ensures var written := side.held[..SplitFrames(side.held).used];
      SideStreams(Accounted(side, state, side.held, |rest|).(held := rest, sent := side.sent + written))
  {
    hide SplitFrames, EncodeAll, Representable;
    var bs, s := side.held, SplitFrames(side.held);
    SplitIsWhole(bs);
    EncodeAllConcat(side.frames, s.frames);
    assert bs == bs[..s.used] + rest;
    assert side.eaten + EncodeAll(side.frames) + [] == side.eaten + EncodeAll(side.frames);
    assert side.eaten + EncodeAll(side.frames + s.frames) + [] == side.eaten + EncodeAll(side.frames + s.frames);
    ConcatAssociates(side.eaten, EncodeAll(side.frames), bs);
    ConcatAssociates(EncodeAll(side.frames), EncodeAll(s.frames), rest);
    ConcatAssociates(side.eaten, EncodeAll(side.frames + s.frames), rest);
  }

  lemma HandshakePassKeeps(side: Side, state: State, rest: seq<Byte>)
    requires SideStreams(side) && side.frames == [] && side.late == [] && !state.Open? && !Closing(state)
    requires |rest| <= |side.held| && rest == side.held[|side.held| - |rest|..]
    ensures SideStreams(Accounted(side, state, side.held, |rest|).(held := rest))
  {
    var n := |side.held| - |rest|;
    assert side.held == side.held[..n] + rest;
    assert side.eaten + [] + [] == side.eaten && side.eaten + side.held[..n] + [] + [] == side.eaten + side.held[..n];
    ConcatAssociates(side.eaten, side.held[..n], rest);
  }

  lemma ClosingPassKeeps(side: Side, state: State, rest: seq<Byte>)
    requires SideStreams(side) && Closing(state)
    requires |rest| <= |side.held| && rest == side.held[|side.held| - |rest|..]
    ensures SideStreams(Accounted(side, state, side.held, |rest|).(held := rest))
  {
    hide EncodeAll, Representable;
    var n, before := |side.held| - |rest|, side.eaten + EncodeAll(side.frames);
    assert side.held == side.held[..n] + rest;
    ConcatAssociates(before + side.late, side.held[..n], rest);
    ConcatAssociates(before, side.late, side.held[..n]);
  }

  lemma MethodPhase(c: Conn, m: Received, flow: Flow, info: SessionInfo)
    requires !c.state.Open? && ReceiveMethod(c, m, flow, info).Next?
    ensures Closing(ReceiveMethod(c, m, flow, info).conn.state) <==> Closing(c.state)
  {
    hide Transmit, Ascii, InjectIdent, Mismatch, Undecodable, DecodeStartOk, DecodeStart, DecodeTune, DecodeOpen, DecodeClose;
    if Closing(c.state) {
      MethodStaysClosing(c, m, flow, info);
    }
  }

  lemma {:induction false} FramesPhase(c: Conn, flow: Flow, info: SessionInfo, bs: seq<Byte>, w: Writes, n: nat)
    ensures var r := TakeFrames(c, flow, info, bs, w, n); r.Processed? ==> (Closing(r.conn.state) <==> Closing(c.state))
    decreases |bs|
  {
    hide TakeFrames, DecodeFrame, ReceiveMethod, ToReceived;
    TakeStep(c, flow, info, bs, w, n);
    var d := DecodeFrame(bs);
    if d.Complete? {
      var t := TakeFrame(c, flow, info, d.frame, w);
      if t.Taken? {
        if d.frame.kind == 1 && !c.state.Open? && |d.frame.payload| >= 4 && ToReceived(d.frame.payload).classId == CONNECTION_CLASS {
          MethodPhase(c, ToReceived(d.frame.payload), flow, info);
        }
        FramesPhase(t.conn, flow, info, bs[d.size..], t.w, n + 1);
      }
    }
  }

  /** Reading neither begins nor undoes a close. */
  lemma PassPhase(c: Conn, flow: Flow, info: SessionInfo, bs: seq<Byte>)
    requires Process(c, flow, info, bs).Processed?
    ensures Closing(Process(c, flow, info, bs).conn.state) <==> Closing(c.state)
  {
    hide TakeFrames, Transmit;
    FramesPhase(c, flow, info, bs, ([], []), 0);
  }

  /** The same history: the rest of a direction does not matter to its streams. */
  predicate SameHistory(side: Side, side': Side) {
    && side'.received == side.received && side'.eaten == side.eaten && side'.frames == side.frames
    && side'.late == side.late && side'.sent == side.sent && side'.held == side.held
  }

  lemma SameStreams(side: Side, side': Side)
    requires SideStreams(side) && SameHistory(side, side')
    ensures SideStreams(side')
  {
    hide EncodeAll, Representable;
  }

  /** What is begun adds to what was written exactly what it passes on. */
  lemma BegunHistory(s: Session, flow: Flow, to: Option<Flow>, w: Sending)
    requires to.Some? && PassedOn(w) != [] ==> to.value == flow
    ensures var s' := Begun(s, flow, to, w);
      var t := With(s, flow, Of(s, flow).(sent := Of(s, flow).sent + if to.Some? then PassedOn(w) else []));
      && SameHistory(t.ingress, s'.ingress) && SameHistory(t.egress, s'.egress) && s'.conn == s.conn
      && s'.ingress.data == s.ingress.data && s'.egress.data == s.egress.data
  {
  }

  /** A pass. */
  lemma HandledHistory(s: Session, flow: Flow, info: SessionInfo)
    requires Process(s.conn, flow, info, Of(s, flow).held).Processed? && Housed(Of(s, flow))
    ensures var r := Process(s.conn, flow, info, Of(s, flow).held);
      && |r.held| <= |Of(s, flow).held|
      && var s' := Handled(s, flow, info); var t := With(s, flow, AfterPass(Of(s, flow), r));
      && SameHistory(t.ingress, s'.ingress) && SameHistory(t.egress, s'.egress) && s'.conn == r.conn && StillHoused(s, s')
  {
    hide Process, Accounted, Begun, Reacquired;
    var side := Of(s, flow);
    var r := Process(s.conn, flow, info, side.held);
    HeldIsShort(s.conn, flow, info, side.held);
    if r.conn.state.Open? {
      OpenWritesAlong(s.conn, flow, info, side.held);
    }
    var (reply, taken) := Reacquired(s.reply, s.pool, Growth(s.conn.replies, RepliesAfter(r)));
    var (kept, pool) := Kept(Accounted(side, r.conn.state, side.held, |r.held|), taken, r.held);
    AccountedSent(side, r.conn.state, |r.held|);
    BegunHistory(With(s, flow, kept).(conn := r.conn, reply := reply, pool := pool), flow, WriteFor(r, flow),
                 Sending(MemoryOf(r, side, reply), SocketOf(r), WriteOf(r)));
  }

  lemma AccountedSent(side: Side, state: State, rest: nat)
    requires rest <= |side.held|
    ensures Accounted(side, state, side.held, rest).sent == side.sent
  {
    hide SplitFrames;
  }

  lemma HandledStreams(s: Session, flow: Flow, info: SessionInfo)
    requires Streams(s) && !s.ended
    ensures Streams(Handled(s, flow, info))
  {
    hide Process, SplitFrames, EncodeAll, SideStreams, Handled, Accounted;
    var side := Of(s, flow);
    var r, s' := Process(s.conn, flow, info, side.held), Handled(s, flow, info);
    if r.Processed? {
      PassKeepsSide(s, flow, info);
      PassPhase(s.conn, flow, info, side.held);
      if s.conn.state.Open? {
        OpenPassesThrough(s.conn, flow, info, side.held);
      }
      HandledHistory(s, flow, info);
      AccountedHistory(side, r.conn.state, |r.held|);
      var t := With(s, flow, AfterPass(side, r));
      SameStreams(t.ingress, s'.ingress);
      SameStreams(t.egress, s'.egress);
    } else {
      RefusedKeeps(s, flow, info);
    }
  }

  lemma AccountedHistory(side: Side, state: State, rest: nat)
    requires rest <= |side.held|
    ensures var a := Accounted(side, state, side.held, rest);
      (!state.Open? ==> a.frames == side.frames) && (!Closing(state) ==> a.late == side.late)
  {
    hide SplitFrames;
  }

  lemma PassKeepsSide(s: Session, flow: Flow, info: SessionInfo)
    requires Streams(s) && Process(s.conn, flow, info, Of(s, flow).held).Processed?
    ensures var r := Process(s.conn, flow, info, Of(s, flow).held);
      |r.held| <= |Of(s, flow).held| && SideStreams(AfterPass(Of(s, flow), r))
  {
    hide Process, SplitFrames, EncodeAll, SideStreams, Accounted;
    var side := Of(s, flow);
    var r := Process(s.conn, flow, info, side.held);
    PassSplits(s.conn, flow, info, side.held);
    PassPhase(s.conn, flow, info, side.held);
    if s.conn.state.Open? {
      OpenPassesThrough(s.conn, flow, info, side.held);
    }
    AccountedSent(side, r.conn.state, |r.held|);
    assert side.sent + [] == side.sent;
    if r.conn.state.Open? {
      OpenWritesAlong(s.conn, flow, info, side.held);
      OpenPassKeeps(side, r.conn.state, r.held);
    } else if Closing(r.conn.state) {
      ClosingPassKeeps(side, r.conn.state, r.held);
    } else {
      HandshakePassKeeps(side, r.conn.state, r.held);
    }
  }

  lemma RefusedKeeps(s: Session, flow: Flow, info: SessionInfo)
    requires Process(s.conn, flow, info, Of(s, flow).held).Refused?
    ensures var s' := Handled(s, flow, info); s' == s.(reply := s'.reply, pool := s'.pool, ended := true)
  {
    hide Process, Reacquired;
  }

  lemma FilledStreams(s: Session, flow: Flow, available: nat, chunk: seq<Byte>)
    requires Streams(s) && Of(s, flow).readers > 0
    ensures Streams(Filled(s, flow, available, chunk))
  {
    hide EncodeAll, Representable;
    var side := Of(s, flow);
    ConcatAssociates(side.eaten + EncodeAll(side.frames) + side.late, side.held, chunk);
  }

  lemma SameStreamsBoth(s: Session, s': Session)
    requires Streams(s) && SameHistory(s.ingress, s'.ingress) && SameHistory(s.egress, s'.egress)
    requires (s'.conn.state == s.conn.state || Closing(s'.conn.state)) && (!s'.ended ==> !s.ended) && StillHoused(s, s')
    ensures Streams(s')
  {
    hide SideStreams;
    SameStreams(s.ingress, s'.ingress);
    SameStreams(s.egress, s'.egress);
  }

  lemma SynthesizedHistory(s: Session, toIngress: bool, e: Event)
    requires e == CloseSynthesized(toIngress) || (e == CloseErrorSynthesized(toIngress) && Closing(s.conn.state))
    ensures var s' := Synthesized(s, e);
      && SameHistory(s.ingress, s'.ingress) && SameHistory(s.egress, s'.egress) && Closing(s'.conn.state)
      && s'.ingress.data == s.ingress.data && s'.egress.data == s.egress.data && s'.ended == s.ended
  {
    hide Apply, Synthesized;
    CloseIsSent(s.conn, toIngress, e);
    SynthesizedClose(s, toIngress, e);
  }

  lemma FailedHistory(s: Session, flow: Flow)
    ensures var s' := Failed(s, flow);
      && SameHistory(s.ingress, s'.ingress) && SameHistory(s.egress, s'.egress)
      && (s'.conn.state == s.conn.state || Closing(s'.conn.state)) && (!s'.ended ==> !s.ended) && StillHoused(s, s')
  {
    hide Synthesized;
    SynthesizedHistory(s, false, CloseSynthesized(false));
    SynthesizedHistory(Synthesized(s, CloseSynthesized(false)), true, CloseErrorSynthesized(true));
  }

  lemma StepHistory(s: Session, h: Happening)
    requires Enabled(s, h) && !h.Read?
    ensures var s' := Proceed(s, h);
      && SameHistory(s.ingress, s'.ingress) && SameHistory(s.egress, s'.egress)
      && (s'.conn.state == s.conn.state || Closing(s'.conn.state)) && (!s'.ended ==> !s.ended) && StillHoused(s, s')
  {
    hide Failed, Synthesized, Reacquired;
    match h
    case ReadFailed(flow, fetching) =>
      var r := if fetching.Some? then Readied(s, flow, fetching.value) else s;
      FailedHistory(With(r, flow, Of(r, flow).(readers := Of(r, flow).readers - 1)), flow);
    case WriteDone(flow, index, failed) => DoneHistory(s, flow, index, failed);
    case Disconnect => SynthesizedHistory(s, true, CloseSynthesized(true));
    case _ =>
  }

  lemma DoneHistory(s: Session, flow: Flow, index: nat, failed: bool)
    requires index < |Of(s, flow).writes|
    ensures var s' := Completed(s, flow, index, failed);
      && SameHistory(s.ingress, s'.ingress) && SameHistory(s.egress, s'.egress)
      && (s'.conn.state == s.conn.state || Closing(s'.conn.state)) && (!s'.ended ==> !s.ended) && StillHoused(s, s')
  {
    hide Failed;
    var side := Of(s, flow);
    var (released, pool) := if side.held == [] then Released(side, s.pool) else (side, s.pool);
    var side' := released.(writes := side.writes[..index] + side.writes[index + 1..],
                           readers := if failed then side.readers else side.readers + 1);
    if failed {
      FailedHistory(With(s, flow, side').(pool := pool), flow);
    }
  }

  lemma StepStreams(s: Session, h: Happening)
    requires Streams(s) && Enabled(s, h)
    ensures Streams(Proceed(s, h))
  {
    if h.Read? {
      hide Handled, Filled, Streams;
      FilledStreams(s, h.flow, h.available, h.chunk);
      FilledKeepsConn(s, h.flow, h.available, h.chunk);
      HandledStreams(Filled(s, h.flow, h.available, h.chunk), h.flow, h.info);
    } else {
      hide *;
      StepHistory(s, h);
      SameStreamsBoth(s, Proceed(s, h));
    }
  }

  lemma {:induction false} RunStreams(s: Session, hs: seq<Happening>)
    requires Streams(s) && Possible(s, hs)
    ensures Streams(ProceedAll(s, hs))
    decreases |hs|
  {
    hide Streams, Enabled, Proceed;
    if hs != [] {
      StepStreams(s, hs[0]);
      RunStreams(Proceed(s, hs[0]), hs[1..]);
    }
  }

  // ----- what is held is never a whole frame

  /** Short of closing, of a direction that is still being read or written nothing whole is held back. */
  ghost predicate NothingWhole(s: Session) {
    !Closing(s.conn.state) ==>
      && (Tokens(s.ingress) > 0 ==> SplitFrames(s.ingress.held) == Split([], 0))
      && (Tokens(s.egress) > 0 ==> SplitFrames(s.egress.held) == Split([], 0))
  }

  lemma HandledNothingWhole(s: Session, flow: Flow, info: SessionInfo)
    requires Housed(Of(s, flow))
    requires !Closing(s.conn.state) ==>
      && Tokens(Of(s, flow)) == 0 && NothingWhole(s)
      && var r := Process(s.conn, flow, info, Of(s, flow).held);
         r.Processed? ==> WriteFor(r, flow).None? || WriteFor(r, flow).value == flow
    ensures NothingWhole(Handled(s, flow, info))
  {
    hide Process, SplitFrames, Handled;
    var r := Process(s.conn, flow, info, Of(s, flow).held);
    if r.Processed? {
      PassPhase(s.conn, flow, info, Of(s, flow).held);
      PassSplits(s.conn, flow, info, Of(s, flow).held);
      HandledHistory(s, flow, info);
      if !Closing(s.conn.state) {
        OtherTokens(s, flow, info);
      }
    } else {
      RefusedKeeps(s, flow, info);
    }
  }

  lemma OtherTokens(s: Session, flow: Flow, info: SessionInfo)
    requires var r := Process(s.conn, flow, info, Of(s, flow).held);
      r.Processed? && (WriteFor(r, flow).None? || WriteFor(r, flow).value == flow)
    ensures var other := if flow.Ingress? then Egress else Ingress; Of(Handled(s, flow, info), other) == Of(s, other)
  {
    hide Process, SplitFrames, Kept;
  }

  /** Short of closing, nothing but a read leaves a direction that holds something to be read or written again. */
  lemma QuietTokens(s: Session, h: Happening)
    requires Safe(s) && Enabled(s, h) && !h.Read? && !Closing(Proceed(s, h).conn.state)
    ensures var s' := Proceed(s, h);
      && (Tokens(s'.ingress) > 0 ==> Tokens(s.ingress) > 0 || s.ingress.held == [])
      && (Tokens(s'.egress) > 0 ==> Tokens(s.egress) > 0 || s.egress.held == [])
  {
    hide Failed, Synthesized, Reacquired, SideSafe, NoPooled;
    match h
    case ReadFailed(flow, fetching) =>
      var r := if fetching.Some? then Readied(s, flow, fetching.value) else s;
      FailedTokens(With(r, flow, Of(r, flow).(readers := Of(r, flow).readers - 1)), flow);
    case WriteDone(flow, index, failed) => DoneTokens(s, flow, index, failed);
    case Disconnect => SynthesizedHistory(s, true, CloseSynthesized(true));
    case _ =>
  }

  lemma DoneTokens(s: Session, flow: Flow, index: nat, failed: bool)
    requires index < |Of(s, flow).writes| && !Closing(Completed(s, flow, index, failed).conn.state)
    ensures var s' := Completed(s, flow, index, failed);
      Tokens(Of(s, flow)) > 0 && if flow.Ingress? then s'.egress == s.egress else s'.ingress == s.ingress
  {
    hide Failed;
    var side := Of(s, flow);
    var (released, pool) := if side.held == [] then Released(side, s.pool) else (side, s.pool);
    var side' := released.(writes := side.writes[..index] + side.writes[index + 1..],
                           readers := if failed then side.readers else side.readers + 1);
    if failed {
      FailedTokens(With(s, flow, side').(pool := pool), flow);
    }
  }

  lemma FailedTokens(s: Session, flow: Flow)
    requires !Closing(Failed(s, flow).conn.state)
    ensures Failed(s, flow) == s.(ended := true)
  {
    hide Synthesized;
    FailedHistory(s, flow);
    if GivesUp(s, flow) {
      SynthesizedHistory(s, false, CloseSynthesized(false));
      SynthesizedHistory(Synthesized(s, CloseSynthesized(false)), true, CloseErrorSynthesized(true));
    }
  }

  lemma StepNothingWhole(s: Session, h: Happening)
    requires Safe(s) && NothingWhole(s) && Enabled(s, h) && Aligned(s, h)
    ensures NothingWhole(Proceed(s, h))
  {
    FewSplitNothing([]);
    if h.Read? {
      hide Process, SplitFrames, Handled, Filled, Safe;
      FilledIsBacked(s, h);
      var f := Filled(s, h.flow, h.available, h.chunk);
      if !(h.flow.Ingress? && h.paused) {
        if Answer(s, h).Processed? {
          PassPhase(f.conn, h.flow, h.info, Of(f, h.flow).held);
        }
        HandledNothingWhole(f, h.flow, h.info);
      }
    } else {
      hide Proceed, Enabled, Aligned, Safe, SplitFrames, Tokens;
      StepHistory(s, h);
      if !Closing(Proceed(s, h).conn.state) {
        QuietTokens(s, h);
      }
    }
  }

  lemma {:induction false} RunNothingWhole(s: Session, hs: seq<Happening>)
    requires Safe(s) && NothingWhole(s) && Possible(s, hs) && AllAligned(s, hs)
    ensures NothingWhole(ProceedAll(s, hs))
    decreases |hs|
  {
    hide Safe, NothingWhole, Enabled, Aligned, Proceed;
    if hs != [] {
      StepKeepsSafe(s, hs[0]);
      StepNothingWhole(s, hs[0]);
      RunNothingWhole(Proceed(s, hs[0]), hs[1..]);
    }
  }

  /**
   * In every run of any session and in both directions: what was read is what the proxy kept to
   * itself during the handshake, then what was written on to the other side, then what it kept
   * while closing, then what is held. What was written on is whole frames. After an aligned run
   * short of closing these are all there are: splitting everything after the handshake in one go
   * gives the same.
   */
  lemma NothingLostOrReordered(start: Start, tune: Tune, hs: seq<Happening>, flow: Flow)
    requires Possible(Started(start, tune), hs)
    ensures var side := Of(ProceedAll(Started(start, tune), hs), flow);
      && side.received == side.eaten + side.sent + side.late + side.held
      && side.sent == EncodeAll(side.frames) && (forall f :: f in side.frames ==> Representable(f))
      && (AllAligned(Started(start, tune), hs) && Tokens(side) > 0 && !Closing(ProceedAll(Started(start, tune), hs).conn.state) ==>
            SplitFrames(side.sent + side.held) == Split(side.frames, |side.sent|))
  {
    var init := Started(start, tune);
    StartStreams(start, tune);
    StartIsSafe(start, tune);
    hide Enabled, Proceed, Aligned, Safe, EncodeAll, SplitFrames, Representable;
    RunStreams(init, hs);
    var side := Of(ProceedAll(init, hs), flow);
    if AllAligned(init, hs) && Tokens(side) > 0 && !Closing(ProceedAll(init, hs).conn.state) {
      RunNothingWhole(init, hs);
      SplitEncodedFrames(side.frames, side.held);
      assert side.frames + [] == side.frames;
    }
  }

  lemma StartStreams(start: Start, tune: Tune)
    ensures Streams(Started(start, tune)) && NothingWhole(Started(start, tune))
  {
    FewSplitNothing([]);
  }

  // ----- a well-behaved peer

  /**
   * Once open, a session goes on for as long as its peers send frames within the maximum size:
   * a read ends it exactly when splitting what is held and what arrives throws.
   */
  lemma FramesKeepOpen(start: Start, tune: Tune, hs: seq<Happening>, h: Happening)
    requires Possible(Started(start, tune), hs)
    requires var s := ProceedAll(Started(start, tune), hs); Enabled(s, h) && h.Read? && !(h.flow.Ingress? && h.paused) && s.conn.state.Open?
    ensures var s := ProceedAll(Started(start, tune), hs); var side := Of(s, h.flow);
      && (Proceed(s, h).ended <==> SplitFrames(side.held + h.chunk).Threw?)
      && (FrameStream(EncodeAll(side.frames) + (side.held + h.chunk)) ==> !Proceed(s, h).ended && Proceed(s, h).conn.state.Open?)
  {
    StartStreams(start, tune);
    hide SplitFrames, EncodeAll, FrameStream, Representable, Process, Handled;
    RunStreams(Started(start, tune), hs);
    var s := ProceedAll(Started(start, tune), hs);
    var side := Of(s, h.flow);
    FilledKeepsConn(s, h.flow, h.available, h.chunk);
    OpenPassesThrough(s.conn, h.flow, h.info, side.held + h.chunk);
    PassConn(Filled(s, h.flow, h.available, h.chunk), h.flow, h.info);
    if SplitFrames(side.held + h.chunk).Threw? {
      ThrowsOnlyOffStream(side.frames, side.held + h.chunk);
    }
  }

  lemma FilledKeepsConn(s: Session, flow: Flow, available: nat, chunk: seq<Byte>)
    requires Of(s, flow).readers > 0
    ensures var f := Filled(s, flow, available, chunk);
      f.conn == s.conn && f.ended == s.ended && Of(f, flow).held == Of(s, flow).held + chunk
  {
  }

  lemma ThrowsOnlyOffStream(fs: seq<Frame>, bs: seq<Byte>)
    requires SplitFrames(bs).Threw? && forall f :: f in fs ==> Representable(f)
    ensures !FrameStream(EncodeAll(fs) + bs)
  {
    hide SplitFrames, FrameStream, EncodeAll, Representable;
    if FrameStream(EncodeAll(fs) + bs) {
      StreamBehindFrames(fs, bs);
      StreamSplits(bs);
    }
  }
}
