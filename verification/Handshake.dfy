/** Every run that reaches the open state went through the whole handshake, in order. */
module Handshake {
  import opened Bytes
  import opened FieldValues
  import opened Frames
  import opened Methods
  import opened ConnectorModel
  import opened ConnectorRuns

  /** How many handshake messages have been accepted; -1 off the handshake. */
  function Stage(s: State): int {
    match s
    case AwaitingProtocolHeader => 0
    case StartSent => 1
    case TuneSent => 2
    case AwaitingOpen => 3
    case AwaitingConnection => 4
    case StartOkSent => 5
    case OpenSent => 6
    case Open => 7
    case _ => -1
  }

  predicate IsMethod(e: Event, id: int) {
    e.MethodReceived? && e.m.methodId == id
  }

  /** The message that takes stage `j` to stage `j + 1`. */
  predicate Accepted(j: nat, e: Event) {
    match j
    case 0 => e.Header? && (e.bytes == PROTOCOL_HEADER || e.bytes == LEGACY_PROTOCOL_HEADER)
    case 1 => IsMethod(e, START_OK_ID) && DecodeStartOk(e.m.payload).Ok?
    case 2 => IsMethod(e, TUNE_OK_ID) && DecodeTune(e.m.payload).Ok?
    case 3 => IsMethod(e, OPEN_ID) && DecodeOpen(e.m.payload).Ok?
    case 4 => IsMethod(e, START_ID) && DecodeStart(e.m.payload).Ok?
    case 5 => IsMethod(e, TUNE_ID) && DecodeTune(e.m.payload).Ok?
    case 6 => IsMethod(e, OPEN_OK_ID)
    case _ => false
  }

  /** What the authentication service's answer does to the client's StartOk. */
  function Authorise(s: StartOk, e: Event): StartOk {
    match e
    case SetCredentials(mechanism, credentials) => OverrideCredentials(s, mechanism, credentials)
    case SetAuthReason(reason) => AddAuthReason(s, reason)
    case _ => s
  }

  function AuthoriseAll(s: StartOk, es: seq<Event>): StartOk {
    if es == [] then s else Authorise(AuthoriseAll(s, es[..|es| - 1]), es[|es| - 1])
  }

  // ----- one step

  lemma MethodStage(c: Conn, m: Received, flow: Flow, info: SessionInfo)
    requires ReceiveMethod(c, m, flow, info).Next?
    ensures var r := ReceiveMethod(c, m, flow, info).conn; var k := Stage(c.state);
      && (k < 0 ==> Stage(r.state) < 0)
      && (Stage(r.state) >= 0 ==> Stage(r.state) == if Accepted(k, MethodReceived(m, flow, info)) then k + 1 else k)
  {
    hide Transmit, Ascii, InjectIdent, DecodeStartOk, DecodeStart, DecodeTune, DecodeOpen, DecodeClose;
  }

  lemma StepStage(c: Conn, e: Event)
    requires Apply(c, e).Next? && Stage(Apply(c, e).conn.state) >= 0
    ensures var r := Apply(c, e).conn; var k := Stage(c.state);
      && k >= 0
      && Stage(r.state) == if Accepted(k, e) then k + 1 else k
  {
    hide Transmit, Ascii, ReceiveMethod;
    if e.MethodReceived? {
      MethodStage(c, e.m, e.flow, e.info);
    }
  }

  /**
   * Between the header and the broker's Tune only the next message is taken: any other is
   * refused, and a Close of the broker's is passed on as the reason.
   */
  lemma RefusedIff(c: Conn, m: Received, flow: Flow, info: SessionInfo)
    requires 1 <= Stage(c.state) <= 5
    requires forall q :: q in Queued(c, MethodReceived(m, flow, info)) ==> !Transmit(q).Aborts?
    ensures var r, e := ReceiveMethod(c, m, flow, info), MethodReceived(m, flow, info);
      && (r.Thrown? <==> !Accepted(Stage(c.state), e))
      && (r.Thrown? && flow.Egress? && m.classId == CONNECTION_CLASS && m.methodId == CLOSE_ID && DecodeClose(m.payload).Ok? ==>
            r.error == BrokerClose(DecodeClose(m.payload).value))
      && (r.Thrown? && (flow.Ingress? || m.methodId != CLOSE_ID) ==> !r.error.BrokerClose?)
  {
    hide Transmit, Ascii, InjectIdent, DecodeStartOk, DecodeStart, DecodeTune, DecodeOpen, DecodeClose;
  }

  lemma StepKeeps(c: Conn, e: Event)
    requires Apply(c, e).Next? && Stage(c.state) >= 0
    ensures var r := Apply(c, e).conn; var k := Stage(c.state); var advances := Stage(r.state) == k + 1;
      && r.startOk == (
           if advances && k == 1 && Accepted(1, e) then Absorb(c.startOk, DecodeStartOk(e.m.payload).value)
           else if advances && k == 4 && Accepted(4, e) then InjectIdent(c.startOk, e.info)
           else Authorise(c.startOk, e))
      && r.tuneOk == (if advances && k == 2 && Accepted(2, e) then DecodeTune(e.m.payload).value else c.tuneOk)
      && r.vhost == (if advances && k == 3 && Accepted(3, e) then DecodeOpen(e.m.payload).value else c.vhost)
  {
    hide Transmit, Ascii, InjectIdent, AddAuthReason, Absorb, Mismatch, Undecodable, DecodeStartOk, DecodeStart, DecodeTune, DecodeOpen,
      ReceiveAfterClientClose, ReceiveAfterServerClose;
  }

  /** The two fields by which the broker can tell where a client came from, and through which proxy. */
  function Identity(info: SessionInfo): seq<Field> {
    var client := info.clientHostname + Ascii(":") + Digits(info.clientPort) + if info.secured then Ascii(" TLS") else [];
    var proxy := Ascii("(:") + Digits(info.listenPort) + Ascii(") ") + info.localHostname + Ascii(":") + Digits(info.outboundPort);
    [Field(Ascii("amqpprox_client"), LongString(client)), Field(Ascii("amqpprox_host"), LongString(proxy))]
  }

  /** What each step does to the client's StartOk, TuneOk and vhost. */
  lemma StepData(c: Conn, e: Event)
    requires Apply(c, e).Next? && Stage(c.state) >= 0
    ensures var r := Apply(c, e).conn; var k := Stage(c.state); var advances := Stage(r.state) == k + 1; var s := c.startOk;
      && (advances && k == 1 && Accepted(1, e) ==>
            var client := DecodeStartOk(e.m.payload).value;
            r.startOk == StartOk(s.properties + client.properties, client.mechanism, client.response, client.locale))
      && (advances && k == 4 && Accepted(4, e) ==>
            r.startOk == StartOk(s.properties + Identity(e.info), s.mechanism, s.response, s.locale))
      && (e.SetCredentials? ==> r.startOk == StartOk(s.properties, e.mechanism, e.credentials, s.locale))
      && (e.SetAuthReason? ==>
            r.startOk == StartOk(s.properties + [Field(Ascii("amqpprox_auth"), LongString(e.reason))], s.mechanism, s.response, s.locale))
      && (!(advances && (k == 1 || k == 4)) && !e.SetCredentials? && !e.SetAuthReason? ==> r.startOk == s)
      && r.tuneOk == (if advances && k == 2 then DecodeTune(e.m.payload).value else c.tuneOk)
      && r.vhost == (if advances && k == 3 then DecodeOpen(e.m.payload).value else c.vhost)
  {
    hide Apply, Ascii, Digits, DecodeStartOk, DecodeStart, DecodeTune, DecodeOpen;
    StepKeeps(c, e);
    if Stage(Apply(c, e).conn.state) >= 0 {
      StepStage(c, e);
    }
  }

  // ----- whole runs

  /** `idx` are the places of the accepted messages, in order. */
  predicate Milestones(es: seq<Event>, idx: seq<nat>) {
    && |idx| <= 7
    && (forall j :: 0 <= j < |idx| ==> idx[j] < |es| && Accepted(j, es[idx[j]]))
    && (forall i, j :: 0 <= i < j < |idx| ==> idx[i] < idx[j])
  }

  /** The client's StartOk once decoded. */
  function ClientStartOk(es: seq<Event>, idx: seq<nat>): StartOk
    requires Milestones(es, idx) && |idx| >= 2
  {
    Absorb(AuthoriseAll(StartOk([], [], [], []), es[..idx[1]]), DecodeStartOk(es[idx[1]].m.payload).value)
  }

  /** The StartOk meant for the broker: authorised, then with the proxy's identity appended. */
  function BrokerStartOk(es: seq<Event>, idx: seq<nat>): StartOk
    requires Milestones(es, idx) && |idx| >= 5
  {
    InjectIdent(AuthoriseAll(ClientStartOk(es, idx), es[idx[1] + 1..idx[4]]), es[idx[4]].info)
  }

  // ----- what the broker's StartOk is made of

  /** The reasons authentication gave, as fields. */
  function Reasons(es: seq<Event>): seq<Field> {
    if es == [] then []
    else
      var last := es[|es| - 1];
      Reasons(es[..|es| - 1]) + if last.SetAuthReason? then [Field(Ascii("amqpprox_auth"), LongString(last.reason))] else []
  }

  /** Mechanism and response are those authentication set last, or else as they were. */
  ghost predicate Credited(s: StartOk, before: StartOk, es: seq<Event>) {
    && ((forall k :: 0 <= k < |es| ==> !es[k].SetCredentials?) ==> s.mechanism == before.mechanism && s.response == before.response)
    && (forall k :: 0 <= k < |es| && es[k].SetCredentials? && (forall j :: k < j < |es| ==> !es[j].SetCredentials?) ==>
          s.mechanism == es[k].mechanism && s.response == es[k].credentials)
  }

  /**
   * A StartOk as the broker is to be sent it: the client's own properties, between the reasons
   * given before and after them, then the identity; the client's locale; and the client's
   * credentials unless authentication replaced them before the broker's Start arrived.
   */
  ghost predicate Relays(es: seq<Event>, idx: seq<nat>, s: StartOk)
    requires Milestones(es, idx) && |idx| >= 5
  {
    var client, between := DecodeStartOk(es[idx[1]].m.payload).value, es[idx[1] + 1..idx[4]];
    && s.properties == Reasons(es[..idx[1]]) + client.properties + Reasons(between) + Identity(es[idx[4]].info)
    && s.locale == client.locale
    && Credited(s, client, between)
  }

  lemma CreditedStep(s: StartOk, before: StartOk, es: seq<Event>)
    requires es != [] && Credited(s, before, es[..|es| - 1])
    ensures Credited(Authorise(s, es[|es| - 1]), before, es)
  {
    var n, r := |es| - 1, Authorise(s, es[|es| - 1]);
    var front := es[..n];
    hide Ascii;
    assert forall k :: 0 <= k < n ==> front[k] == es[k];
    if forall k :: 0 <= k < |es| ==> !es[k].SetCredentials? {
      assert !es[n].SetCredentials? && r.mechanism == s.mechanism && r.response == s.response;
    }
    forall k | 0 <= k < |es| && es[k].SetCredentials? && (forall j :: k < j < |es| ==> !es[j].SetCredentials?)
      ensures r.mechanism == es[k].mechanism && r.response == es[k].credentials
    {
      if k < n {
        assert !es[n].SetCredentials? && front[k].SetCredentials?;
      }
    }
  }

  lemma {:induction false} AuthoriseAllIs(s: StartOk, es: seq<Event>)
    ensures var r := AuthoriseAll(s, es); r.properties == s.properties + Reasons(es) && r.locale == s.locale && Credited(r, s, es)
  {
    if es != [] {
      AuthoriseAllIs(s, es[..|es| - 1]);
      CreditedStep(AuthoriseAll(s, es[..|es| - 1]), s, es);
      hide Credited, Ascii;
    }
  }

  lemma BrokerStartOkRelays(es: seq<Event>, idx: seq<nat>)
    requires Milestones(es, idx) && |idx| >= 5
    ensures Relays(es, idx, BrokerStartOk(es, idx))
  {
    hide AuthoriseAll, Reasons, Ascii, Digits, DecodeStartOk, DecodeStart, DecodeTune, DecodeOpen;
    var none := StartOk([], [], [], []);
    var first, between, info := es[..idx[1]], es[idx[1] + 1..idx[4]], es[idx[4]].info;
    AuthoriseAllIs(none, first);
    AuthoriseAllIs(ClientStartOk(es, idx), between);
    var client := DecodeStartOk(es[idx[1]].m.payload).value;
    assert none.properties + Reasons(first) == Reasons(first);
    SameCredentials(AuthoriseAll(ClientStartOk(es, idx), between), BrokerStartOk(es, idx), ClientStartOk(es, idx), client, between);
  }

  lemma SameCredentials(r: StartOk, s: StartOk, before: StartOk, client: StartOk, es: seq<Event>)
    requires Credited(r, before, es) && s.mechanism == r.mechanism && s.response == r.response
    requires before.mechanism == client.mechanism && before.response == client.response
    ensures Credited(s, client, es)
  {
  }

  /** The StartOk the connector holds, from the messages alone. */
  function HeldStartOk(es: seq<Event>, idx: seq<nat>): StartOk
    requires Milestones(es, idx)
  {
    if |idx| < 2 then AuthoriseAll(StartOk([], [], [], []), es)
    else if |idx| < 5 then AuthoriseAll(ClientStartOk(es, idx), es[idx[1] + 1..])
    else AuthoriseAll(BrokerStartOk(es, idx), es[idx[4] + 1..])
  }

  ghost predicate Explains(c: Conn, es: seq<Event>, idx: seq<nat>) {
    && Milestones(es, idx)
    && |idx| == Stage(c.state)
    && c.startOk == HeldStartOk(es, idx)
    && (|idx| >= 3 ==> c.tuneOk == DecodeTune(es[idx[2]].m.payload).value)
    && (|idx| >= 4 ==> c.vhost == DecodeOpen(es[idx[3]].m.payload).value)
  }

  lemma AuthoriseAppend(s: StartOk, es: seq<Event>, e: Event)
    ensures AuthoriseAll(s, es + [e]) == Authorise(AuthoriseAll(s, es), e)
  {
    assert (es + [e])[..|es|] == es;
  }

  lemma MilestonesStep(es: seq<Event>, idx: seq<nat>, e: Event, advances: bool)
    requires Milestones(es, idx) && (advances ==> |idx| < 7 && Accepted(|idx|, e))
    ensures Milestones(es + [e], if advances then idx + [|es|] else idx)
  {
    hide Accepted;
    var es', idx' := es + [e], if advances then idx + [|es|] else idx;
    forall j | 0 <= j < |idx'| ensures idx'[j] < |es'| && Accepted(j, es'[idx'[j]]) {
      if j < |idx| {
        assert idx'[j] == idx[j] && es'[idx[j]] == es[idx[j]];
      } else {
        assert idx'[j] == |es| && es'[|es|] == e;
      }
    }
    forall i, j | 0 <= i < j < |idx'| ensures idx'[i] < idx'[j] {
      assert idx'[i] == idx[i] && (j < |idx| ==> idx'[j] == idx[j]);
    }
  }

  /** Later events do not change what was decoded or sent earlier. */
  lemma ClientStable(es: seq<Event>, es': seq<Event>, idx: seq<nat>, idx': seq<nat>)
    requires es <= es' && idx <= idx' && Milestones(es, idx) && Milestones(es', idx') && |idx| >= 2
    ensures ClientStartOk(es', idx') == ClientStartOk(es, idx)
  {
    hide Absorb, DecodeStartOk, AuthoriseAll;
    assert es'[..idx[1]] == es[..idx[1]];
  }

  lemma BrokerStable(es: seq<Event>, es': seq<Event>, idx: seq<nat>, idx': seq<nat>)
    requires es <= es' && idx <= idx' && Milestones(es, idx) && Milestones(es', idx') && |idx| >= 5
    ensures BrokerStartOk(es', idx') == BrokerStartOk(es, idx)
  {
    hide ClientStartOk, InjectIdent, AuthoriseAll;
    ClientStable(es, es', idx, idx');
    assert es'[idx[1] + 1..idx[4]] == es[idx[1] + 1..idx[4]];
  }

  /** An event that neither brings the StartOk nor sends it on only authorises. */
  lemma {:induction false} HeldAuthorised(es: seq<Event>, idx: seq<nat>, e: Event, idx': seq<nat>)
    requires Milestones(es, idx) && Milestones(es + [e], idx')
    requires idx <= idx' && (|idx| < 2 ==> |idx'| < 2) && (|idx| < 5 ==> |idx'| < 5)
    ensures HeldStartOk(es + [e], idx') == Authorise(HeldStartOk(es, idx), e)
  {
    hide Authorise, AuthoriseAll, ClientStartOk, BrokerStartOk;
    if |idx| < 2 {
      AuthoriseAppend(StartOk([], [], [], []), es, e);
    } else if |idx| < 5 {
      var i := idx[1];
      ClientStable(es, es + [e], idx, idx');
      AuthoriseAppend(ClientStartOk(es, idx), es[i + 1..], e);
      assert (es + [e])[i + 1..] == es[i + 1..] + [e];
    } else {
      var j := idx[4];
      BrokerStable(es, es + [e], idx, idx');
      AuthoriseAppend(BrokerStartOk(es, idx), es[j + 1..], e);
      assert (es + [e])[j + 1..] == es[j + 1..] + [e];
    }
  }

  lemma {:induction false} HeldDecoded(es: seq<Event>, idx: seq<nat>, e: Event)
    requires Milestones(es, idx) && |idx| == 1 && Accepted(1, e)
    ensures Milestones(es + [e], idx + [|es|])
    ensures HeldStartOk(es + [e], idx + [|es|]) == Absorb(HeldStartOk(es, idx), DecodeStartOk(e.m.payload).value)
  {
    hide Absorb, DecodeStartOk;
    MilestonesStep(es, idx, e, true);
    assert (es + [e])[..|es|] == es && (es + [e])[|es| + 1..] == [];
  }

  /** The broker's StartOk is the one held when the Start arrives, with the identity added. */
  lemma BrokerStartOkAt(es: seq<Event>, idx: seq<nat>, e: Event)
    requires Milestones(es, idx) && |idx| == 4 && Accepted(4, e)
    ensures Milestones(es + [e], idx + [|es|])
    ensures BrokerStartOk(es + [e], idx + [|es|]) == InjectIdent(HeldStartOk(es, idx), e.info)
  {
    hide ClientStartOk, InjectIdent, DecodeStart, AuthoriseAll;
    MilestonesStep(es, idx, e, true);
    ClientStable(es, es + [e], idx, idx + [|es|]);
    assert (es + [e])[idx[1] + 1..|es|] == es[idx[1] + 1..];
  }

  lemma {:induction false} HeldSent(es: seq<Event>, idx: seq<nat>, e: Event)
    requires Milestones(es, idx) && |idx| == 4 && Accepted(4, e)
    ensures Milestones(es + [e], idx + [|es|])
    ensures HeldStartOk(es + [e], idx + [|es|]) == InjectIdent(HeldStartOk(es, idx), e.info)
  {
    hide BrokerStartOk, ClientStartOk, InjectIdent, DecodeStart;
    BrokerStartOkAt(es, idx, e);
    assert (es + [e])[|es| + 1..] == [];
  }

  lemma {:induction false} ExplainsStep(c: Conn, es: seq<Event>, idx: seq<nat>, e: Event, r: Conn)
    requires Explains(c, es, idx) && Apply(c, e) == Next(r) && Stage(r.state) >= 0
    ensures Explains(r, es + [e], if Stage(r.state) == Stage(c.state) then idx else idx + [|es|])
  {
    hide Apply, Stage, HeldStartOk, Authorise, InjectIdent, Absorb, DecodeTune, DecodeOpen, DecodeStart, DecodeStartOk;
    StepStage(c, e);
    StepKeeps(c, e);
    var k, advances := |idx|, Stage(r.state) != Stage(c.state);
    MilestonesStep(es, idx, e, advances);
    if advances && k == 1 {
      HeldDecoded(es, idx, e);
    } else if advances && k == 4 {
      HeldSent(es, idx, e);
    } else {
      HeldAuthorised(es, idx, e, if advances then idx + [|es|] else idx);
    }
  }

  // ----- what the broker is sent

  /** After the first `n` events, `ms` are queued for the broker if they fit; one alone that does not fit is lost. */
  ghost predicate QueuedForBroker(init: Conn, es: seq<Event>, n: nat, ms: seq<Method>)
    requires n <= |es|
  {
    && Run(init, es[..n]).Next?
    && ((forall m :: m in ms ==> FitsFrame(m)) ==>
          var c := Run(init, es[..n]).conn; !c.toIngress && c.out == EncodeAll(ResponseFrames(ms)))
    && (|ms| == 1 && !FitsFrame(ms[0]) ==> Run(init, es[..n]).conn.out == [])
  }

  ghost predicate StartOkRelayed(init: Conn, es: seq<Event>, idx: seq<nat>) {
    Milestones(es, idx) && |idx| >= 5 &&
    QueuedForBroker(init, es, idx[4] + 1, [StartOkMethod(BrokerStartOk(es, idx))])
  }

  ghost predicate OpenRelayed(init: Conn, es: seq<Event>, idx: seq<nat>) {
    Milestones(es, idx) && |idx| >= 6 &&
    QueuedForBroker(init, es, idx[5] + 1,
      [TuneOkMethod(DecodeTune(es[idx[2]].m.payload).value), OpenMethod(DecodeOpen(es[idx[3]].m.payload).value)])
  }

  /** The broker got the authorised StartOk, then the client's own TuneOk and vhost. */
  ghost predicate Relayed(init: Conn, es: seq<Event>, idx: seq<nat>) {
    && (|idx| >= 5 ==> StartOkRelayed(init, es, idx))
    && (|idx| >= 6 ==> OpenRelayed(init, es, idx))
  }

  lemma RelayedStable(init: Conn, es: seq<Event>, idx: seq<nat>, es': seq<Event>, idx': seq<nat>)
    requires es <= es' && idx <= idx' && Milestones(es', idx')
    ensures StartOkRelayed(init, es, idx) ==> StartOkRelayed(init, es', idx')
    ensures OpenRelayed(init, es, idx) ==> OpenRelayed(init, es', idx')
  {
    hide Run, FitsFrame, EncodeAll, ResponseFrames, BrokerStartOk, DecodeTune, DecodeOpen;
    if StartOkRelayed(init, es, idx) {
      BrokerStable(es, es', idx, idx');
      assert es'[..idx[4] + 1] == es[..idx[4] + 1];
    }
    if OpenRelayed(init, es, idx) {
      assert es'[..idx[5] + 1] == es[..idx[5] + 1];
    }
  }

  lemma RunAppend(init: Conn, es: seq<Event>, e: Event)
    requires Run(init, es).Next?
    ensures Run(init, es + [e]) == Apply(Run(init, es).conn, e)
  {
    hide Apply;
    assert (es + [e])[..|es|] == es;
  }

  /** A StartOk that does not fit a frame is lost, and the handshake goes on as if it had been sent. */
  lemma StartOkLost(c: Conn, m: Received, flow: Flow, info: SessionInfo)
    requires c.state.AwaitingConnection? && ReceiveMethod(c, m, flow, info).Next?
    requires !FitsFrame(StartOkMethod(InjectIdent(c.startOk, info)))
    ensures ReceiveMethod(c, m, flow, info).conn.state.StartOkSent? && ReceiveMethod(c, m, flow, info).conn.out == []
  {
    hide Transmit, FitsFrame, InjectIdent, DecodeStart, Mismatch, Undecodable;
    TransmittedIffFits(StartOkMethod(InjectIdent(c.startOk, info)));
  }

  lemma SentNow(c: Conn, e: Event, ms: seq<Method>)
    requires Apply(c, e).Next? && e.MethodReceived?
    requires c.state.AwaitingConnection? || c.state.StartOkSent?
    requires ms == Queued(c, e)
    ensures (forall m :: m in ms ==> FitsFrame(m)) ==>
      !Apply(c, e).conn.toIngress && Apply(c, e).conn.out == EncodeAll(ResponseFrames(ms))
  {
    hide Apply, EncodeAll, ResponseFrames, FitsFrame, InjectIdent;
    if forall m :: m in ms ==> FitsFrame(m) {
      QueuedIsSent(c, e);
    }
  }

  lemma LostNow(c: Conn, e: Event, ms: seq<Method>)
    requires Apply(c, e).Next? && e.MethodReceived?
    requires c.state.AwaitingConnection? || c.state.StartOkSent?
    requires ms == Queued(c, e) && |ms| == 1 && !FitsFrame(ms[0])
    ensures Apply(c, e).conn.out == []
  {
    hide ReceiveMethod, FitsFrame, InjectIdent;
    StartOkLost(c, e.m, e.flow, e.info);
  }

  lemma QueuedAtEnd(init: Conn, es: seq<Event>, c: Conn, e: Event, ms: seq<Method>)
    requires Run(init, es) == Next(c) && Apply(c, e).Next? && e.MethodReceived?
    requires c.state.AwaitingConnection? || c.state.StartOkSent?
    requires ms == Queued(c, e)
    ensures QueuedForBroker(init, es + [e], |es| + 1, ms)
  {
    hide Run, Apply, Queued, EncodeAll, ResponseFrames, FitsFrame;
    RunAppend(init, es, e);
    SentNow(c, e, ms);
    if |ms| == 1 && !FitsFrame(ms[0]) {
      LostNow(c, e, ms);
    }
    assert (es + [e])[..|es| + 1] == es + [e];
  }

  lemma StartOkRelayedNow(init: Conn, es: seq<Event>, idx: seq<nat>, c: Conn, e: Event)
    requires Run(init, es) == Next(c) && Apply(c, e).Next?
    requires Explains(c, es, idx) && |idx| == 4 && Accepted(4, e)
    ensures StartOkRelayed(init, es + [e], idx + [|es|])
  {
    hide Apply, Run, QueuedForBroker, BrokerStartOk, HeldStartOk, InjectIdent, DecodeStart, DecodeTune, DecodeOpen;
    BrokerStartOkAt(es, idx, e);
    QueuedAtEnd(init, es, c, e, [StartOkMethod(BrokerStartOk(es + [e], idx + [|es|]))]);
  }

  lemma ExplainedAtFive(c: Conn, es: seq<Event>, idx: seq<nat>)
    requires Explains(c, es, idx) && |idx| == 5
    ensures c.state.StartOkSent? && Milestones(es, idx)
    ensures c.tuneOk == DecodeTune(es[idx[2]].m.payload).value && c.vhost == DecodeOpen(es[idx[3]].m.payload).value
  {
    hide HeldStartOk, DecodeTune, DecodeOpen;
  }

  lemma OpenRelayedNow(init: Conn, es: seq<Event>, idx: seq<nat>, c: Conn, e: Event)
    requires Run(init, es) == Next(c) && Apply(c, e).Next?
    requires Explains(c, es, idx) && |idx| == 5 && Accepted(5, e)
    ensures OpenRelayed(init, es + [e], idx + [|es|])
  {
    hide Apply, Run, QueuedForBroker, Explains, Accepted, DecodeTune, DecodeOpen;
    ExplainedAtFive(c, es, idx);
    MilestonesStep(es, idx, e, true);
    TuneIsMethod(e);
    assert (es + [e])[idx[2]] == es[idx[2]] && (es + [e])[idx[3]] == es[idx[3]];
    hide Milestones;
    QueuedAtEnd(init, es, c, e, [TuneOkMethod(c.tuneOk), OpenMethod(c.vhost)]);
  }

  lemma TuneIsMethod(e: Event)
    requires Accepted(5, e)
    ensures e.MethodReceived?
  {
  }

  lemma {:induction false} RelayedStep(init: Conn, es: seq<Event>, idx: seq<nat>, c: Conn, e: Event, r: Conn)
    requires Run(init, es) == Next(c) && Apply(c, e) == Next(r) && Stage(r.state) >= 0
    requires Explains(c, es, idx) && Relayed(init, es, idx)
    ensures Relayed(init, es + [e], if Stage(r.state) == Stage(c.state) then idx else idx + [|es|])
  {
    var k, advances := |idx|, Stage(r.state) != Stage(c.state);
    assert Milestones(es, idx) && k == Stage(c.state);
    hide Apply, Run, StartOkRelayed, OpenRelayed, Explains, Milestones, Stage, Accepted;
    StepStage(c, e);
    var idx' := if advances then idx + [|es|] else idx;
    MilestonesStep(es, idx, e, advances);
    RelayedStable(init, es, idx, es + [e], idx');
    if advances && k == 4 {
      StartOkRelayedNow(init, es, idx, c, e);
    } else if advances && k == 5 {
      OpenRelayedNow(init, es, idx, c, e);
    }
  }

  /**
   * A run that has not left the handshake is explained by messages accepted in order.
   * The runs quantify over every call a session makes, in any order.
   */
  lemma {:induction false} RunIsExplained(init: Conn, es: seq<Event>) returns (idx: seq<nat>)
    requires Explains(init, [], [])
    requires Run(init, es).Next? && Stage(Run(init, es).conn.state) >= 0
    ensures Explains(Run(init, es).conn, es, idx) && Relayed(init, es, idx)
  {
    hide Apply, Explains, Relayed;
    if es == [] {
      idx := [];
      NothingRelayed(init);
    } else {
      var n := |es| - 1;
      var c, r := Run(init, es[..n]).conn, Run(init, es).conn;
      StepStage(c, es[n]);
      idx := RunIsExplained(init, es[..n]);
      ExplainsStep(c, es[..n], idx, es[n], r);
      RelayedStep(init, es[..n], idx, c, es[n], r);
      assert es[..n] + [es[n]] == es;
      idx := if Stage(r.state) == Stage(c.state) then idx else idx + [n];
    }
  }

  lemma NothingRelayed(init: Conn)
    ensures Relayed(init, [], [])
  {
  }

  lemma InitialExplained(start: Start, tune: Tune)
    ensures Explains(Initial(start, tune), [], [])
  {
  }

  /**
   * Every run that reaches the open state has accepted header, StartOk, TuneOk, Open,
   * Start, Tune and OpenOk in that order, and has queued for the broker the client's
   * StartOk with the authentication overrides and the proxy's identity, then the client's
   * TuneOk and an Open with the client's vhost.
   */
  lemma OpenMeansHandshake(start: Start, tune: Tune, es: seq<Event>) returns (idx: seq<nat>)
    requires Run(Initial(start, tune), es).Next? && Run(Initial(start, tune), es).conn.state.Open?
    ensures |idx| == 7 && Milestones(es, idx)
    ensures StartOkRelayed(Initial(start, tune), es, idx)
    ensures OpenRelayed(Initial(start, tune), es, idx)
    ensures FitsFrame(TuneOkMethod(DecodeTune(es[idx[2]].m.payload).value))
    ensures FitsFrame(OpenMethod(DecodeOpen(es[idx[3]].m.payload).value))
  {
    hide Run, QueuedForBroker, FitsFrame, HeldStartOk, BrokerStartOk, DecodeTune;
    InitialExplained(start, tune);
    idx := RunIsExplained(Initial(start, tune), es);
    var vhost := DecodeOpen(es[idx[3]].m.payload).value;
    DecodedOpenIsShort(es[idx[3]].m.payload);
    TuneOkAndOpenFit(DecodeTune(es[idx[2]].m.payload).value, vhost);
  }
}
