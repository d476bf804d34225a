/** A whole run in which a client's own Tune costs a write its memory. */
module CrossedHandshake {
  import opened Bytes
  import opened FieldValues
  import opened Frames
  import opened Methods
  import opened ConnectorModel
  import opened ConnectorRuns
  import opened Responses
  import opened Handshake
  import opened PacketModel
  import opened Options
  import opened SessionModel
  import opened SessionRuns
  import opened Crossings
  import opened OwnershipExact

  /** Some run from here loses the memory of a passthrough write. */
  ghost predicate MayFail(s: Session) {
    exists hs :: Possible(s, hs) && !PassthroughOwned(ProceedAll(s, hs))
  }

  lemma MayFailLater(s: Session, h: Happening)
    requires Enabled(s, h) && MayFail(Proceed(s, h))
    ensures MayFail(s)
  {
    var hs :| Possible(Proceed(s, h), hs) && !PassthroughOwned(ProceedAll(Proceed(s, h), hs));
    hide Enabled, Proceed, PassthroughOwned;
    assert ([h] + hs)[1..] == hs;
    assert Possible(s, [h] + hs) && ProceedAll(s, [h] + hs) == ProceedAll(Proceed(s, h), hs);
  }

  /** Nothing is being written or held, and one read is outstanding for each side there is. */
  predicate Waiting(side: Side, readers: nat) {
    side.held == [] && side.writes == [] && side.readers == readers
  }

  ghost predicate Calm(s: Session) {
    && !s.ended && Conserved(s)
    && Waiting(s.ingress, 1) && Waiting(s.egress, if s.connected then 1 else 0)
  }

  lemma CalmIsSafe(s: Session)
    requires Calm(s) && ConnSafe(s.conn, s.connected)
    ensures Safe(s)
  {
    hide Stage, Conserved;
  }

  // ----- one exchange

  function Arrival(flow: Flow, bs: seq<Byte>, info: SessionInfo): Happening {
    Read(flow, |bs|, bs, false, info)
  }

  lemma ArrivalFills(s: Session, flow: Flow, bs: seq<Byte>, info: SessionInfo)
    requires Calm(s) && Of(s, flow).readers == 1 && bs != []
    ensures Enabled(s, Arrival(flow, bs, info))
    ensures var f := Filled(s, flow, |bs|, bs);
      && f == With(s, flow, Of(f, flow)).(pool := f.pool)
      && Of(f, flow).held == bs && Of(f, flow).data.Some? && Of(f, flow).readers == 0 && Of(f, flow).writes == []
      && Answer(s, Arrival(flow, bs, info)) == Process(s.conn, flow, info, bs)
      && Proceed(s, Arrival(flow, bs, info)) == Handled(f, flow, info)
  {
    hide Process, Handled, Conserved;
    assert [] + bs == bs;
  }

  /** The whole exchange: what was read is used up, and an answer to the same side is written. */
  function Exchanged(s: Session, flow: Flow, bs: seq<Byte>, info: SessionInfo): Session
    requires Enabled(s, Arrival(flow, bs, info))
  {
    var s' := Proceed(s, Arrival(flow, bs, info));
    if Of(s', flow).writes == [] then s' else Proceed(s', WriteDone(flow, 0, false))
  }

  lemma PassUsesUp(s: Session, flow: Flow, info: SessionInfo, next: Conn, w: Writes)
    requires var side := Of(s, flow); side.data.Some? && side.readers == 0 && side.writes == [] && !s.ended
    requires Process(s.conn, flow, info, Of(s, flow).held) == Processed(next, w.0, w.1, [], 1, 0) ||
             Process(s.conn, flow, info, Of(s, flow).held) == Processed(next, w.0, w.1, [], 0, 0)
    requires !next.state.Open? && !next.state.Error? && !next.state.Closed?
    requires if flow.Ingress? then w.1 == [] else w.0 == []
    ensures var s' := Handled(s, flow, info); var other := if flow.Ingress? then Egress else Ingress;
      && s'.conn == next && !s'.ended && s'.connected == s.connected && Of(s', other) == Of(s, other)
      && Of(s', flow).held == []
      && (if w == ([], []) then Of(s', flow).readers == 1 && Of(s', flow).writes == []
          else Of(s', flow).readers == 0 && |Of(s', flow).writes| == 1)
  {
    hide Process, SplitFrames;
  }

  lemma ExchangeIsCalm(s: Session, flow: Flow, bs: seq<Byte>, info: SessionInfo, next: Conn, w: Writes)
    requires Calm(s) && Of(s, flow).readers == 1 && bs != []
    requires Process(s.conn, flow, info, bs) == Processed(next, w.0, w.1, [], 1, 0) ||
             Process(s.conn, flow, info, bs) == Processed(next, w.0, w.1, [], 0, 0)
    requires !next.state.Open? && !next.state.Error? && !next.state.Closed?
    requires if flow.Ingress? then w.1 == [] else w.0 == []
    ensures Enabled(s, Arrival(flow, bs, info))
    ensures var s' := Exchanged(s, flow, bs, info);
      Calm(s') && s'.conn == next && s'.connected == s.connected && (MayFail(s') ==> MayFail(s))
  {
    hide Process, Handled, Conserved, MayFail, Filled;
    var h := Arrival(flow, bs, info);
    ArrivalFills(s, flow, bs, info);
    var f := Filled(s, flow, |bs|, bs);
    PassUsesUp(f, flow, info, next, w);
    StepConserves(s, h);
    var s1 := Proceed(s, h);
    if Of(s1, flow).writes == [] {
      if MayFail(s1) {
        MayFailLater(s, h);
      }
    } else {
      var done := WriteDone(flow, 0, false);
      StepConserves(s1, done);
      var s2 := Proceed(s1, done);
      if MayFail(s2) {
        MayFailLater(s1, done);
        MayFailLater(s, h);
      }
    }
  }

  // ----- the run, from its end to its beginning

  function NoInfo(): SessionInfo {
    SessionInfo([], 0, [], 0, 0, false)
  }

  function NoStartOk(): StartOk {
    StartOk([], [], [], [])
  }

  /** The client sends a Tune while the broker's is awaited. */
  lemma ClientTuneFails(s: Session)
    requires Calm(s) && s.connected && s.conn.state.StartOkSent? && |s.conn.vhost| <= SHORT_STRING_LIMIT
    ensures MayFail(s)
  {
    hide Process, Handled, Conserved, Safe, ReceiveMethod, EncodeFrame, ResponseFrame, FitsFrame, MayFail, CanLose, Aligned, Hopeful;
    var m, info := SomeTune(), NoInfo();
    var h := Arrival(Ingress, Framed(m), info);
    TuneFits(Tune(0, 0, 0));
    TuneReceived(s.conn, Ingress, info);
    var next := ReceiveMethod(s.conn, AsReceived(m), Ingress, info).conn;
    OneMethodPass(s.conn, Ingress, info, m, next);
    assert |Framed(m)| >= 1;
    ArrivalFills(s, Ingress, Framed(m), info);
    CalmIsSafe(s);
    CrossesToBroker(s, h);
    CrossingLeads(s, h);
    NothingIsHopeful(OpenSent);
    CrossedFails(Proceed(s, h), info);
    FailingRun(Proceed(s, h));
    MayFailLater(s, h);
  }

  lemma CrossesToBroker(s: Session, h: Happening)
    requires Enabled(s, h) && h.Read? && h.flow.Ingress? && !h.paused
    requires var r := Answer(s, h); r.Processed? && !r.conn.state.Open? && r.ingressWrite == [] && r.egressWrite != []
    ensures Crosses(s, h)
  {
    hide Answer;
  }

  lemma FailingRun(s: Session)
    requires CanLose(s)
    ensures MayFail(s)
  {
    var hs :| Loses(s, hs);
    hide Enabled, Proceed, PassthroughOwned;
    assert Possible(s, hs) && !PassthroughOwned(ProceedAll(s, hs));
  }

  /** A method from one side, answered to that side or not at all. */
  lemma MethodExchange(s: Session, flow: Flow, m: Method, next: Conn)
    requires Calm(s) && Of(s, flow).readers == 1 && FitsFrame(m)
    requires !s.conn.state.AwaitingProtocolHeader? && !s.conn.state.Open?
    requires ReceiveMethod(s.conn, AsReceived(m), flow, NoInfo()) == Next(next)
    requires !next.state.Open? && !next.state.Error? && !next.state.Closed?
    requires next.out == [] || next.toIngress == flow.Ingress?
    ensures Enabled(s, Arrival(flow, Framed(m), NoInfo()))
    ensures var s' := Exchanged(s, flow, Framed(m), NoInfo());
      Calm(s') && s'.conn == next && s'.connected == s.connected && (MayFail(s') ==> MayFail(s))
  {
    hide Process, ReceiveMethod, Conserved, EncodeFrame, ResponseFrame, FitsFrame, MayFail;
    OneMethodPass(s.conn, flow, NoInfo(), m, next);
    assert |Framed(m)| >= 1;
    ExchangeIsCalm(s, flow, Framed(m), NoInfo(), next, Write(next));
  }

  // ----- the messages of an ordinary handshake

  function SomeStart(): Start {
    Start(0, 9, [], [], [])
  }

  lemma SomeStartFits()
    ensures FitsFrame(StartMethod(SomeStart()))
    ensures DecodeStart(EncodeBody(StartMethod(SomeStart()))).Ok?
  {
    hide BigEndian;
    var m := StartMethod(SomeStart());
    var ps := PartsOf(m);
    assert EncodeFields([]) == [];
    assert |EncodeParts(ps)| == |EncodePart(ps[0])| + |EncodeParts(ps[1..])|;
    assert |EncodeParts(ps[1..])| == |EncodePart(ps[1])| + |EncodeParts(ps[1..][1..])|;
    assert ps[1..][1..] == ps[2..];
    FiveParts(ps[2..]);
    StartReadsBack();
  }

  lemma StartReadsBack()
    ensures DecodeStart(EncodeBody(StartMethod(SomeStart()))).Ok?
  {
    var s := SomeStart();
    NoFieldsFormed();
    assert Pow256(1) == 256 && Pow256(4) > 0;
    assert WellFormedMethod(StartMethod(s));
    hide EncodeBody, DecodeStart, WellFormedMethod;
    DecodeEncodedStart(s, []);
    assert EncodeBody(StartMethod(s)) + [] == EncodeBody(StartMethod(s));
  }

  lemma NoFieldsFormed()
    ensures WellFormedTable([])
  {
  }

  lemma NoStartOkFits()
    ensures FitsFrame(StartOkMethod(NoStartOk()))
    ensures DecodeStartOk(EncodeBody(StartOkMethod(NoStartOk()))).Ok?
    ensures DecodeStartOk(EncodeBody(StartOkMethod(NoStartOk()))).value == NoStartOk()
  {
    var s := NoStartOk();
    NoFieldsFormed();
    assert WellFormedMethod(StartOkMethod(s));
    hide EncodeBody, DecodeStartOk, WellFormedMethod, EncodeMethod;
    StartOkSize(s);
    DecodeEncodedStartOk(s, []);
    assert EncodeBody(StartOkMethod(s)) + [] == EncodeBody(StartOkMethod(s));
  }

  lemma IdentifiedFits()
    ensures FitsFrame(StartOkMethod(InjectIdent(NoStartOk(), NoInfo())))
  {
    hide BigEndian, EncodeMethod;
    var s := InjectIdent(NoStartOk(), NoInfo());
    StartOkSize(s);
    var a, b := s.properties[0], s.properties[1];
    assert s.properties == [a, b] && s.properties[1..] == [b] && [b][1..] == [];
    assert |EncodeFields(s.properties)| == |EncodeField(a)| + |EncodeFields([b])|;
    assert |EncodeFields([b])| == |EncodeField(b)| + |EncodeFields([])|;
    assert Digits(0) == [48];
    assert EncodableFields([b]);
    assert EncodableFields(s.properties);
  }

  lemma ZeroTuneOkFits()
    ensures FitsFrame(TuneOkMethod(Tune(0, 0, 0)))
    ensures DecodeTune(EncodeBody(TuneOkMethod(Tune(0, 0, 0)))).Ok?
  {
    var m := TuneOkMethod(Tune(0, 0, 0));
    TuneOkAndOpenFit(Tune(0, 0, 0), []);
    hide EncodeBody, DecodeTune, FitsFrame;
    DecodeEncodedTune(m, Tune(0, 0, 0), []);
    assert EncodeBody(m) + [] == EncodeBody(m);
  }

  lemma EmptyOpenFits()
    ensures FitsFrame(OpenMethod([])) && DecodeOpen(EncodeBody(OpenMethod([]))) == Ok([], 1)
  {
    EmptyOpenIsWellFormed();
    hide EncodeBody, DecodeOpen, FitsFrame, WellFormedMethod;
    TuneOkAndOpenFit(Tune(0, 0, 0), []);
    DecodeEncodedOpen([], []);
    assert EncodeBody(OpenMethod([])) + [] == EncodeBody(OpenMethod([]));
  }

  lemma EmptyOpenIsWellFormed()
    ensures WellFormedMethod(OpenMethod([]))
  {
  }

  /** The broker's Start arrives; the StartOk goes back to it. */
  lemma BrokerStartFails(s: Session)
    requires Calm(s) && s.connected && s.conn.state.AwaitingConnection? && s.conn.startOk == NoStartOk()
    requires |s.conn.vhost| <= SHORT_STRING_LIMIT
    ensures MayFail(s)
  {
    hide Transmit, Conserved, MayFail, FitsFrame, EncodeBody, EncodeFrame, ResponseFrame, DecodeStart, InjectIdent, Mismatch, Undecodable, Exchanged;
    SomeStartFits();
    IdentifiedFits();
    var ok := StartOkMethod(InjectIdent(NoStartOk(), NoInfo()));
    TransmittedIffFits(ok);
    var m := StartMethod(SomeStart());
    var r := ReceiveMethod(s.conn, AsReceived(m), Egress, NoInfo());
    assert r.Next? && r.conn.state.StartOkSent? && !r.conn.toIngress && r.conn.vhost == s.conn.vhost;
    hide ReceiveMethod;
    MethodExchange(s, Egress, m, r.conn);
    ClientTuneFails(Exchanged(s, Egress, Framed(m), NoInfo()));
  }

  /** A broker is found; the protocol header is written to it. */
  lemma ConnectedFails(s: Session)
    requires Calm(s) && !s.connected && s.conn.state.AwaitingConnection? && s.conn.startOk == NoStartOk()
    requires |s.conn.vhost| <= SHORT_STRING_LIMIT
    ensures MayFail(s)
  {
    hide Conserved, MayFail;
    var s1 := Proceed(s, Connected);
    StepConserves(s, Connected);
    var done := WriteDone(Egress, 0, false);
    StepConserves(s1, done);
    BrokerStartFails(Proceed(s1, done));
    MayFailLater(s1, done);
    MayFailLater(s, Connected);
  }

  lemma ClientOpenFails(s: Session)
    requires Calm(s) && !s.connected && s.conn.state.AwaitingOpen? && s.conn.startOk == NoStartOk()
    ensures MayFail(s)
  {
    hide Transmit, Conserved, MayFail, FitsFrame, EncodeBody, EncodeFrame, ResponseFrame, DecodeOpen, Mismatch, Undecodable, Exchanged;
    EmptyOpenFits();
    var m := OpenMethod([]);
    var r := ReceiveMethod(s.conn, AsReceived(m), Ingress, NoInfo());
    assert r.Next? && r.conn.state.AwaitingConnection? && r.conn.out == [] && r.conn.vhost == [] && r.conn.startOk == NoStartOk();
    hide ReceiveMethod;
    MethodExchange(s, Ingress, m, r.conn);
    ConnectedFails(Exchanged(s, Ingress, Framed(m), NoInfo()));
  }

  lemma ClientTuneOkFails(s: Session)
    requires Calm(s) && !s.connected && s.conn.state.TuneSent? && s.conn.startOk == NoStartOk()
    ensures MayFail(s)
  {
    hide Transmit, Conserved, MayFail, FitsFrame, EncodeBody, EncodeFrame, ResponseFrame, DecodeTune, Mismatch, Undecodable, Exchanged;
    ZeroTuneOkFits();
    var m := TuneOkMethod(Tune(0, 0, 0));
    var r := ReceiveMethod(s.conn, AsReceived(m), Ingress, NoInfo());
    assert r.Next? && r.conn.state.AwaitingOpen? && r.conn.out == [] && r.conn.startOk == NoStartOk();
    hide ReceiveMethod;
    MethodExchange(s, Ingress, m, r.conn);
    ClientOpenFails(Exchanged(s, Ingress, Framed(m), NoInfo()));
  }

  lemma ClientStartOkFails(s: Session)
    requires Calm(s) && !s.connected && s.conn.state.StartSent? && s.conn.startOk == NoStartOk()
    ensures MayFail(s)
  {
    hide Transmit, Conserved, MayFail, FitsFrame, EncodeBody, EncodeFrame, ResponseFrame, DecodeStartOk, Mismatch, Undecodable, Exchanged;
    NoStartOkFits();
    TuneFits(s.conn.synthesizedTune);
    TransmittedIffFits(TuneMethod(s.conn.synthesizedTune));
    var m := StartOkMethod(NoStartOk());
    var r := ReceiveMethod(s.conn, AsReceived(m), Ingress, NoInfo());
    assert [] + NoStartOk().properties == [];
    assert r.Next? && r.conn.state.TuneSent? && r.conn.toIngress && r.conn.startOk == NoStartOk();
    hide ReceiveMethod;
    MethodExchange(s, Ingress, m, r.conn);
    ClientTuneOkFails(Exchanged(s, Ingress, Framed(m), NoInfo()));
  }

  /**
   * The property fails of the code: in every session whose Start fits a frame there is a run,
   * an ordinary handshake but for a Tune the client sends of its own accord, in which the
   * memory behind a passthrough write is given back while the write is in flight.
   */
  lemma SomeRunLosesMemory(start: Start, tune: Tune)
    requires FitsFrame(StartMethod(start))
    ensures MayFail(Started(start, tune))
  {
    hide Transmit, MayFail, FitsFrame, EncodeFrame, ResponseFrame, Exchanged;
    var s := Started(start, tune);
    StartIsSafe(start, tune);
    TransmittedIffFits(StartMethod(start));
    var r := ReceiveHeader(s.conn, PROTOCOL_HEADER);
    assert r.Next? && r.conn.state.StartSent? && r.conn.toIngress && r.conn.startOk == NoStartOk();
    assert Process(s.conn, Ingress, NoInfo(), PROTOCOL_HEADER) == Processed(r.conn, r.conn.out, [], [], 0, 0);
    hide Process;
    ExchangeIsCalm(s, Ingress, PROTOCOL_HEADER, NoInfo(), r.conn, (r.conn.out, []));
    ClientStartOkFails(Exchanged(s, Ingress, PROTOCOL_HEADER, NoInfo()));
  }
}
