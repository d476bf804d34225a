/**
 * The connector as a transition function. It plays the server to the client, then the
 * client to the broker, then stands aside; it also carries out the close handshake.
 */
module ConnectorModel {
  import Modular
  import opened Bytes
  import opened FieldValues
  import opened FieldWriter
  import opened Frames
  import opened Methods

  datatype State =
    | AwaitingProtocolHeader | StartSent | TuneSent | AwaitingOpen      // acting as a server
    | AwaitingConnection | StartOkSent | OpenSent                       // acting as a client
    | Open | ExpectingClose | Closed | ClientCloseSent | ServerCloseSent | Error

  datatype Flow = Ingress | Egress

  /** A method frame's payload, taken apart as far as its class and method numbers. */
  datatype Received = Received(classId: nat, methodId: nat, payload: seq<Byte>)

  /** What the session knows about its sockets when the broker's Start arrives. */
  datatype SessionInfo = SessionInfo(
    clientHostname: seq<Byte>, clientPort: nat, localHostname: seq<Byte>,
    listenPort: nat, outboundPort: nat, secured: bool)

  /** `replies` is how often the memory for replies was taken anew. */
  datatype Conn = Conn(
    state: State,
    synthesizedStart: Start, synthesizedTune: Tune,
    startOk: StartOk, tuneOk: Tune, vhost: seq<Byte>, close: Close,
    out: seq<Byte>, toIngress: bool, replies: nat)

  /** `BrokerClose` carries the Close that came instead of the expected method. */
  datatype Failure = Unexpected | BrokerClose(close: Close) | AssertionFailed

  datatype Step = Next(conn: Conn) | Thrown(error: Failure) {
    predicate IsFailure() { Thrown? }

    function PropagateFailure(): Step
      requires Thrown?
    {
      this
    }

    function Extract(): Conn
      requires Next?
    {
      conn
    }

    function Then(s: State): Step {
      if Next? then Next(conn.(state := s)) else this
    }
  }

  function Ascii(s: string): seq<Byte> {
    seq(|s|, i requires 0 <= i < |s| => (s[i] as int) % 256)
  }

  function Digits(n: nat): seq<Byte> {
    if n < 10 then [48 + n] else Digits(n / 10) + [48 + n % 10]
  }

  function FromDigits(bs: seq<Byte>): int {
    if bs == [] then 0 else 10 * FromDigits(bs[..|bs| - 1]) + bs[|bs| - 1] - 48
  }

  /** A port is printed in decimal digits that read back as the port. */
  lemma {:induction false} DigitsReadBack(n: nat)
    ensures FromDigits(Digits(n)) == n
    ensures Digits(n) != [] && forall b :: b in Digits(n) ==> 48 <= b <= 57
  {
    if n >= 10 {
      DigitsReadBack(n / 10);
      assert Digits(n)[..|Digits(n)| - 1] == Digits(n / 10);
    } else {
      assert Digits(n)[..0] == [];
    }
  }

  function Pow10(k: nat): (p: nat)
    ensures p >= 1
  {
    if k == 0 then 1 else 10 * Pow10(k - 1)
  }

  lemma QuotientByTen(n: nat, p: nat)
    requires p >= 1
    ensures n / 10 / p == n / (10 * p)
  {
    var m := n / 10;
    var q, r := m / p, m % p;
    assert m == p * q + r;
    assert 10 * (p * q + r) == 10 * p * q + 10 * r;
    Modular.UniqueRemainder(n, 10 * p, q, 10 * r + n % 10);
  }

  /** The most significant digit comes first, and it is zero only if it is the only one. */
  lemma {:induction false} DigitsAre(n: nat, i: nat)
    requires i < |Digits(n)|
    ensures Digits(n)[i] == 48 + n / Pow10(|Digits(n)| - 1 - i) % 10
    ensures |Digits(n)| > 1 ==> Digits(n)[0] != 48
    decreases n
  {
    if n >= 10 {
      var front := Digits(n / 10);
      DigitsAre(n / 10, if i < |front| then i else 0);
      if i < |front| {
        QuotientByTen(n, Pow10(|front| - 1 - i));
      }
    }
  }

  lemma AsciiIs(s: string)
    requires forall i :: 0 <= i < |s| ==> s[i] as int < 256
    ensures |Ascii(s)| == |s| && forall i :: 0 <= i < |s| ==> Ascii(s)[i] == s[i] as int
  {
  }

  const PROTOCOL_HEADER: seq<Byte> := [65, 77, 81, 80, 0, 0, 9, 1]
  const LEGACY_PROTOCOL_HEADER: seq<Byte> := [65, 77, 81, 80, 1, 1, 0, 9]
  const REPLY_SUCCESS := 200
  const CHANNEL_ERROR := 504

  function Initial(start: Start, tune: Tune): Conn {
    Conn(AwaitingProtocolHeader, start, tune, StartOk([], [], [], []), Tune(0, 0, 0), [], Close(0, [], 0, 0), [], false, 0)
  }

  // ----- sending

  /** What is put on the wire for a method, if anything. One too large for a frame has been given memory by then. */
  datatype Transmission = Transmitted(bytes: seq<Byte>) | TooLarge | Dropped | Aborts

  function Transmit(m: Method): (r: Transmission) {
    match FateOfParts(PartsOf(m), MAX_FRAME_SIZE)
    case Aborted => Aborts
    case Refused => Dropped
    case Written =>
      if |EncodeMethod(m)| + FRAME_OVERHEAD <= MAX_FRAME_SIZE
      then Transmitted(EncodeFrame(Frame(1, 0, EncodeMethod(m))))
      else TooLarge
  }

  /** A response goes behind what is already queued; one that does not fit is lost. */
  function Send(c: Conn, m: Method, toIngress: bool): Step {
    match Transmit(m)
    case Transmitted(bytes) => Next(c.(out := c.out + bytes, toIngress := toIngress, replies := c.replies + 1))
    case TooLarge => Next(c.(replies := c.replies + 1))
    case Dropped => Next(c)
    case Aborts => Thrown(AssertionFailed)
  }

  // ----- the protocol header

  function ReceiveHeader(c: Conn, bytes: seq<Byte>): Step {
    if !c.state.AwaitingProtocolHeader? then Next(c.(state := Error))
    else if bytes == PROTOCOL_HEADER || bytes == LEGACY_PROTOCOL_HEADER then
      Send(c, StartMethod(c.synthesizedStart), true).Then(StartSent)
    else Next(c.(out := PROTOCOL_HEADER, toIngress := true, state := Error))
  }

  // ----- methods

  /** Why a method other than the expected one is refused. */
  function Mismatch(m: Received, flow: Flow): Failure {
    if m.methodId == CLOSE_ID && m.classId == CONNECTION_CLASS && flow.Egress? then
      match DecodeClose(m.payload)
      case Ok(close, _) => BrokerClose(close)
      case _ => Unexpected
    else Unexpected
  }

  function Undecodable<T>(r: Parsed<T>): Failure {
    if r.Overrun? then AssertionFailed else Unexpected
  }

  /** Decoding appends to the properties already there. */
  function Absorb(held: StartOk, s: StartOk): StartOk {
    s.(properties := held.properties + s.properties)
  }

  function ClientIdent(info: SessionInfo): seq<Byte> {
    info.clientHostname + Ascii(":") + Digits(info.clientPort) + if info.secured then Ascii(" TLS") else []
  }

  function ProxyIdent(info: SessionInfo): seq<Byte> {
    Ascii("(:") + Digits(info.listenPort) + Ascii(") ") + info.localHostname + Ascii(":") + Digits(info.outboundPort)
  }

  function InjectIdent(s: StartOk, info: SessionInfo): StartOk {
    s.(properties := s.properties + [Field(Ascii("amqpprox_client"), LongString(ClientIdent(info))),
                                     Field(Ascii("amqpprox_host"), LongString(ProxyIdent(info)))])
  }

  // Each state's answer to a method; `c` has an empty out-buffer.

  function ReceiveStartOk(c: Conn, m: Received, flow: Flow): Step {
    if m.methodId != START_OK_ID then Thrown(Mismatch(m, flow))
    else
      var r := DecodeStartOk(m.payload);
      if !r.Ok? then Thrown(Undecodable(r))
      else
        Send(c.(startOk := Absorb(c.startOk, r.value)), TuneMethod(c.synthesizedTune), true).Then(TuneSent)
  }

  function ReceiveTuneOk(c: Conn, m: Received, flow: Flow): Step {
    if m.methodId != TUNE_OK_ID then Thrown(Mismatch(m, flow))
    else
      var r := DecodeTune(m.payload);
      if !r.Ok? then Thrown(Undecodable(r)) else Next(c.(tuneOk := r.value, state := AwaitingOpen))
  }

  function ReceiveOpen(c: Conn, m: Received, flow: Flow): Step {
    if m.methodId != OPEN_ID then Thrown(Mismatch(m, flow))
    else
      var r := DecodeOpen(m.payload);
      if !r.Ok? then Thrown(Undecodable(r)) else Next(c.(vhost := r.value, state := AwaitingConnection))
  }

  function ReceiveStart(c: Conn, m: Received, flow: Flow, info: SessionInfo): Step {
    if m.methodId != START_ID then Thrown(Mismatch(m, flow))
    else
      var r := DecodeStart(m.payload);
      if !r.Ok? then Thrown(Undecodable(r))
      else
        var s := InjectIdent(c.startOk, info);
        Send(c.(startOk := s), StartOkMethod(s), false).Then(StartOkSent)
  }

  function ReceiveTune(c: Conn, m: Received, flow: Flow): Step {
    if m.methodId != TUNE_ID then Thrown(Mismatch(m, flow))
    else
      var r := DecodeTune(m.payload);
      if !r.Ok? then Thrown(Undecodable(r))
      else
        var c :- Send(c, TuneOkMethod(c.tuneOk), false);
        Send(c, OpenMethod(c.vhost), false).Then(OpenSent)
  }

  function ReceiveOpenOk(c: Conn, m: Received): Step {
    if m.methodId == OPEN_OK_ID then Send(c.(state := Open), OpenOkMethod, true) else Next(c)
  }

  function ReceiveAfterClientClose(c: Conn, m: Received, flow: Flow): Step {
    if flow.Ingress? && m.methodId == CLOSE_OK_ID then SynthesizeClose(c, false)
    else if m.methodId != CLOSE_ID then Next(c)
    else if flow.Ingress? then
      var c :- Send(c, CloseOkMethod, true);
      SynthesizeClose(c, false)
    else Send(c, CloseOkMethod, false).Then(Closed)
  }

  function ReceiveAfterServerClose(c: Conn, m: Received, flow: Flow): Step {
    if m.methodId == CLOSE_ID || m.methodId == CLOSE_OK_ID then
      var r := if m.methodId == CLOSE_ID then Send(c, CloseOkMethod, flow.Ingress?) else Next(c);
      if flow.Egress? then r.Then(Closed) else r
    else Next(c)
  }

  function ReceiveMethod(before: Conn, m: Received, flow: Flow, info: SessionInfo): Step {
    var c := before.(out := []);
    match c.state
    case Open =>
      if m.methodId == CLOSE_OK_ID || m.methodId == CLOSE_ID then Next(c.(state := Closed)) else Next(c)
    case StartSent => ReceiveStartOk(c, m, flow)
    case TuneSent => ReceiveTuneOk(c, m, flow)
    case AwaitingOpen => ReceiveOpen(c, m, flow)
    case AwaitingConnection => ReceiveStart(c, m, flow, info)
    case StartOkSent => ReceiveTune(c, m, flow)
    case OpenSent => ReceiveOpenOk(c, m)
    case ClientCloseSent => ReceiveAfterClientClose(c, m, flow)
    case ServerCloseSent => ReceiveAfterServerClose(c, m, flow)
    case AwaitingProtocolHeader => Next(c)
    case ExpectingClose => Next(c)
    case Error => Next(c)
    case Closed => Next(c)
  }

  /** The client's StartOk as it is kept: its own fields, its properties behind those already there. */
  predicate Stores(held: StartOk, client: Parsed<StartOk>, stored: StartOk) {
    && client.Ok? && stored.properties == held.properties + client.value.properties
    && stored.mechanism == client.value.mechanism && stored.response == client.value.response && stored.locale == client.value.locale
  }

  lemma StartOkStored(c: Conn, m: Received, flow: Flow, info: SessionInfo)
    requires c.state.StartSent?
    ensures var r := ReceiveMethod(c, m, flow, info); r.Next? ==> Stores(c.startOk, DecodeStartOk(m.payload), r.conn.startOk)
  {
    hide Transmit, DecodeStartOk;
  }

  // ----- synthesized messages

  /** A reply without a class or method number keeps the ones set before. */
  function SetReply(close: Close, code: int, text: seq<Byte>, classId: int, methodId: int): Close {
    Close(code, text,
          if classId != 0 then classId else close.classId,
          if methodId != 0 then methodId else close.methodId)
  }

  function SynthesizeMessage(c: Conn, toIngress: bool, code: int, text: seq<Byte>, classId: int, methodId: int): Step {
    var close := SetReply(c.close, code, text, classId, methodId);
    Send(c.(out := [], close := close), CloseMethod(close), toIngress)
  }

  function SynthesizeClose(c: Conn, toIngress: bool): Step {
    SynthesizeMessage(c.(state := if toIngress then ClientCloseSent else ServerCloseSent),
                      toIngress, REPLY_SUCCESS, Ascii("OK"), 0, 0)
  }

  // ----- everything a session does to its connector

  datatype Event =
    | Header(bytes: seq<Byte>)
    | MethodReceived(m: Received, flow: Flow, info: SessionInfo)
    | SetCredentials(mechanism: seq<Byte>, credentials: seq<Byte>)
    | SetAuthReason(reason: seq<Byte>)
    | CloseSynthesized(toIngress: bool)
    | CloseErrorSynthesized(toIngress: bool)
    | CustomCloseSynthesized(toIngress: bool, code: int, text: seq<Byte>, classId: int, methodId: int)
    | ProtocolHeaderSynthesized
    | ProxyHeaderSynthesized(header: seq<Byte>)
    | OutBufferReset

  function OverrideCredentials(s: StartOk, mechanism: seq<Byte>, credentials: seq<Byte>): StartOk {
    s.(mechanism := mechanism, response := credentials)
  }

  function AddAuthReason(s: StartOk, reason: seq<Byte>): StartOk {
    s.(properties := s.properties + [Field(Ascii("amqpprox_auth"), LongString(reason))])
  }

  function Apply(c: Conn, e: Event): Step {
    match e
    case Header(bytes) => ReceiveHeader(c, bytes)
    case MethodReceived(m, flow, info) => ReceiveMethod(c, m, flow, info)
    case SetCredentials(mechanism, credentials) =>
      Next(c.(startOk := OverrideCredentials(c.startOk, mechanism, credentials)))
    case SetAuthReason(reason) => Next(c.(startOk := AddAuthReason(c.startOk, reason)))
    case CloseSynthesized(toIngress) => SynthesizeClose(c, toIngress)
    case CloseErrorSynthesized(toIngress) =>
      SynthesizeMessage(c, toIngress, CHANNEL_ERROR, Ascii("ERROR: Expected CloseOk reply"), 0, 0)
    case CustomCloseSynthesized(toIngress, code, text, classId, methodId) =>
      SynthesizeMessage(c, toIngress, code, text, classId, methodId)
    case ProtocolHeaderSynthesized => Next(c.(out := PROTOCOL_HEADER, replies := c.replies + 1))
    case ProxyHeaderSynthesized(header) => if header == [] then Thrown(AssertionFailed) else Next(c.(out := header, replies := c.replies + 1))
    case OutBufferReset => Next(c.(out := []))
  }

  /** A run ends at the first exception: the session then disconnects. */
  function Run(c: Conn, es: seq<Event>): Step {
    if es == [] then Next(c)
    else
      var c :- Run(c, es[..|es| - 1]);
      Apply(c, es[|es| - 1])
  }
}
