/** What reaches the broker during the handshake, read back from the octets sent to it. */
module BrokerFrames {
  import opened Bytes
  import opened FieldValues
  import opened FieldRoundTrip
  import opened Frames
  import opened Methods
  import opened ConnectorModel
  import opened ConnectorRuns
  import opened Responses
  import opened Handshake

  lemma {:induction false} AuthorisedStaysSane(s: StartOk, es: seq<Event>)
    requires AllSane(s)
    ensures AllSane(AuthoriseAll(s, es))
  {
    if es != [] {
      hide WellFormed;
      AuthorisedStaysSane(s, es[..|es| - 1]);
    }
  }

  lemma BrokerStartOkIsSane(es: seq<Event>, idx: seq<nat>)
    requires Milestones(es, idx) && |idx| >= 5
    ensures AllSane(BrokerStartOk(es, idx))
  {
    hide WellFormed, DecodeStartOk, ClientIdent, ProxyIdent, DecodeTune, DecodeOpen, DecodeStart;
    var payload := es[idx[1]].m.payload;
    assert Accepted(1, es[idx[1]]);
    var before := AuthoriseAll(StartOk([], [], [], []), es[..idx[1]]);
    AuthorisedStaysSane(StartOk([], [], [], []), es[..idx[1]]);
    DecodedStartOkIsSane(payload);
    assert AllSane(ClientStartOk(es, idx));
    AuthorisedStaysSane(ClientStartOk(es, idx), es[idx[1] + 1..idx[4]]);
  }

  /** One connector state holds exactly these methods, framed, for the broker. */
  ghost predicate HoldsForBroker(c: Conn, ms: seq<Method>) {
    var s := SplitFrames(c.out);
    && !c.toIngress
    && s.Split? && s.used == |c.out| && |s.frames| == |ms|
    && forall i :: 0 <= i < |ms| ==>
         && s.frames[i].kind == 1 && s.frames[i].channel == 0
         && DecodeMethod(s.frames[i].payload).Ok? && DecodeMethod(s.frames[i].payload).value == ms[i]
  }

  lemma QueuedIsHeld(init: Conn, es: seq<Event>, n: nat, ms: seq<Method>)
    requires n <= |es| && QueuedForBroker(init, es, n, ms)
    requires forall m :: m in ms ==> FitsFrame(m) && WellFormedMethod(m)
    ensures Run(init, es[..n]).Next? && HoldsForBroker(Run(init, es[..n]).conn, ms)
  {
    hide Run, FitsFrame, WellFormedMethod, EncodeAll, SplitFrames, DecodeMethod;
    FramesReadBack(ms);
  }

  lemma LostIsNotHeld(init: Conn, es: seq<Event>, n: nat, m: Method)
    requires n <= |es| && QueuedForBroker(init, es, n, [m]) && !FitsFrame(m)
    ensures Run(init, es[..n]).Next? && !HoldsForBroker(Run(init, es[..n]).conn, [m])
  {
    hide Run, FitsFrame;
    NothingSplits();
  }

  /**
   * In every run that reaches the open state, the octets held for the broker when its Start
   * had been accepted are one frame that decodes to the client's StartOk as it is to be relayed,
   * exactly when that fits a frame; and those held when its Tune had been accepted are two
   * frames that decode to the client's TuneOk and to an Open of the client's vhost.
   */
  lemma BrokerReadsHandshake(start: Start, tune: Tune, es: seq<Event>) returns (idx: seq<nat>, s: StartOk)
    requires Run(Initial(start, tune), es).Next? && Run(Initial(start, tune), es).conn.state.Open?
    ensures |idx| == 7 && Milestones(es, idx) && Relays(es, idx, s)
    ensures var r := Run(Initial(start, tune), es[..idx[4] + 1]);
      r.Next? && (HoldsForBroker(r.conn, [StartOkMethod(s)]) <==> FitsFrame(StartOkMethod(s)))
    ensures var r := Run(Initial(start, tune), es[..idx[5] + 1]);
      r.Next? && HoldsForBroker(r.conn,
        [TuneOkMethod(DecodeTune(es[idx[2]].m.payload).value), OpenMethod(DecodeOpen(es[idx[3]].m.payload).value)])
  {
    hide Run, QueuedForBroker, FitsFrame, WellFormedMethod, BrokerStartOk, DecodeTune, DecodeOpen, HoldsForBroker, AllSane, Relays;
    var init := Initial(start, tune);
    idx := OpenMeansHandshake(start, tune, es);
    s := BrokerStartOk(es, idx);
    BrokerStartOkRelays(es, idx);
    BrokerStartOkIsSane(es, idx);
    if FitsFrame(StartOkMethod(s)) {
      FittingStartOkIsWellFormed(s);
      QueuedIsHeld(init, es, idx[4] + 1, [StartOkMethod(s)]);
    } else {
      LostIsNotHeld(init, es, idx[4] + 1, StartOkMethod(s));
    }
    var tuning, opening := es[idx[2]].m.payload, es[idx[3]].m.payload;
    DecodedTuneIsWellFormed(tuning);
    DecodedOpenIsWellFormed(opening);
    QueuedIsHeld(init, es, idx[5] + 1, [TuneOkMethod(DecodeTune(tuning).value), OpenMethod(DecodeOpen(opening).value)]);
  }

  // ----- a StartOk that the proxy's identity makes too large

  /** As large a StartOk as a client's frame can carry. */
  function LargestStartOk(): StartOk {
    StartOk([], [], seq(MAX_FRAME_SIZE - FRAME_OVERHEAD - 14, _ => 0), [])
  }

  /** It fits on its way from the client, and no longer once the identity has been appended. */
  lemma IdentityMakesTooLarge(info: SessionInfo)
    ensures FitsFrame(StartOkMethod(LargestStartOk()))
    ensures !FitsFrame(StartOkMethod(InjectIdent(LargestStartOk(), info)))
  {
    hide EncodeMethod, ClientIdent, ProxyIdent, Ascii, EncodeValue, BigEndian;
    var s := LargestStartOk();
    StartOkSize(s);
    StartOkSize(InjectIdent(s, info));
    var added := InjectIdent(s, info).properties;
    assert |EncodeFields(added)| >= |EncodeField(added[0])| >= 1;
  }
}
