/** The connector object: it refines ConnectorModel with the encoder, the reply memory and the decoder. */
module Connectors {
  import opened Bytes
  import opened FieldValues
  import opened FieldWriter
  import opened Buffers
  import opened Frames
  import opened Methods
  import opened ConnectorModel
  import opened ConnectorRuns
  import opened Options

  method DecodePayload(payload: seq<Byte>, layout: seq<Slot>) returns (r: Parsed<seq<Part>>)
    ensures r == ParseParts(layout, payload)
  {
    hide ParseParts;
    var mem := new Byte[|payload|](i requires 0 <= i < |payload| => payload[i]);
    assert mem[..] == payload;
    var b := new Buffer(mem, 0, mem.Length);
    assert b.Rest() == mem[..];
    r := ReadParts(b, layout);
  }

  /** Encodes a method into scratch memory of the maximum frame size. */
  method EncodeResponse(m: Method) returns (r: Outcome, payload: seq<Byte>)
    ensures r == FateOfParts(PartsOf(m), MAX_FRAME_SIZE)
    ensures r.Written? ==> payload == EncodeMethod(m)
  {
    hide FateOfParts, EncodeParts;
    var scratch := new Byte[MAX_FRAME_SIZE](_ => 0);
    var b := new Buffer(scratch, 0, scratch.Length);
    r := WriteParts(b, PartsOf(m));
    payload := scratch[..b.offset];
  }

  /** New memory holding the first `existing` octets of `source`, then the frame if it is not too large. */
  method Extend(source: array<Byte>, existing: nat, f: Frame) returns (ok: bool, grown: array<Byte>, total: nat)
    requires existing <= source.Length
    ensures fresh(grown) && total <= grown.Length
    ensures ok == (|f.payload| + FRAME_OVERHEAD <= MAX_FRAME_SIZE)
    ensures ok ==> grown[..total] == source[..existing] + EncodeFrame(f)
  {
    hide EncodeFrame;
    grown := new Byte[existing + FRAME_OVERHEAD + |f.payload|](_ => 0);
    forall i | 0 <= i < existing {
      grown[i] := source[i];
    }
    ghost var before := grown[..];
    assert before[..existing] == source[..existing];
    var written;
    ok, written := EncodeAt(grown, existing, f);
    total := existing + written;
    if ok {
      assert grown[..total] == before[..existing] + EncodeFrame(f);
    }
  }

  /** Encodes into scratch memory of the maximum frame size, then frames behind what is queued. */
  method FrameBehind(source: array<Byte>, existing: nat, m: Method) returns (sent: bool, aborted: bool, grown: array<Byte>, total: nat)
    requires existing <= source.Length
    ensures aborted == Transmit(m).Aborts? && sent == Transmit(m).Transmitted?
    ensures sent ==> fresh(grown) && total <= grown.Length && grown[..total] == source[..existing] + Transmit(m).bytes
  {
    hide FitsFrame, FateOfParts, PartsOf, EncodeMethod, EncodeFrame;
    var r, payload := EncodeResponse(m);
    sent, aborted, grown, total := false, r.Aborted?, source, existing;
    if r.Written? {
      sent, grown, total := Extend(source, existing, Frame(1, 0, payload));
    }
  }

  class Connector {
    const synthesizedStart: Start
    const synthesizedTune: Tune
    var state: State
    var startOk: StartOk
    var tuneOk: Tune
    var vhost: seq<Byte>
    var close: Close
    var reply: array<Byte>       // memory for synthesized replies
    var out: array<Byte>         // the queued octets are the first `outLength` of `out`
    var outLength: nat
    var toIngress: bool
    ghost var replies: nat       // how often the memory for replies was taken anew

    /** What is queued lies in the reply memory, except the header sent back on an error. */
    ghost predicate Valid()
      reads this
    {
      && outLength <= out.Length
      && (outLength == 0 || out == reply || state.Error?)
      && Transmit(StartMethod(synthesizedStart)).Transmitted?
      && |vhost| <= SHORT_STRING_LIMIT
    }

    ghost function View(): Conn
      requires Valid()
      reads this, out
    {
      Conn(state, synthesizedStart, synthesizedTune, startOk, tuneOk, vhost, close, out[..outLength], toIngress, replies)
    }

    /** The step was carried out, or the exception it predicts was raised. */
    ghost predicate Did(raised: Option<Failure>, expected: Step)
      reads this, out
    {
      match expected
      case Next(c) => raised.None? && Valid() && View() == c
      case Thrown(error) => raised == Some(error)
    }

    /** The memory it points to is its own: old, or newly made. */
    twostate predicate Renews()
      reads this
    {
      && (fresh(out) || out == old(out) || out == old(reply))
      && (fresh(reply) || reply == old(out) || reply == old(reply))
    }

    constructor (start: Start, tune: Tune)
      requires Transmit(StartMethod(start)).Transmitted?
      ensures Valid() && View() == Initial(start, tune) && fresh(out) && fresh(reply)
    {
      synthesizedStart, synthesizedTune := start, tune;
      state := AwaitingProtocolHeader;
      startOk, tuneOk, vhost, close := StartOk([], [], [], []), Tune(0, 0, 0), [], Close(0, [], 0, 0);
      reply, out := new Byte[0], new Byte[0];
      outLength, toIngress, replies := 0, false, 0;
    }

    /** A response goes behind what is queued. */
    method SendResponse(m: Method, side: bool) returns (raised: Option<Failure>)
      requires Valid() && (outLength > 0 ==> out == reply)
      modifies this
      ensures Did(raised, Send(old(View()), m, side))
      ensures raised.None? ==> outLength == 0 || out == reply
      ensures Renews()
    {
      hide Transmit;
      var sent, aborted, grown, total := FrameBehind(reply, outLength, m);
      if aborted {
        return Some(AssertionFailed);
      }
      if sent {
        reply, out, outLength, toIngress, replies := grown, grown, total, side, replies + 1;
      } else if Transmit(m).TooLarge? {
        replies := replies + 1;
      }
      raised := None;
    }

    method ResetOutBuffer()
      requires Valid()
      modifies this
      ensures Did(None, Apply(old(View()), OutBufferReset))
      ensures outLength == 0 && state == old(state) && out == old(out) && reply == old(reply)
    {
      outLength := 0;
    }

    // ----- the protocol header

    method ReceiveHeader(bytes: seq<Byte>) returns (raised: Option<Failure>)
      requires Valid()
      modifies this
      ensures Did(raised, ConnectorModel.ReceiveHeader(old(View()), bytes))
      ensures Renews()
    {
      hide Transmit;
      if state.AwaitingProtocolHeader? {
        if bytes == PROTOCOL_HEADER || bytes == LEGACY_PROTOCOL_HEADER {
          raised := SendResponse(StartMethod(synthesizedStart), true);
          if raised.None? {
            state := StartSent;
          }
        } else {
          out := new Byte[8](i requires 0 <= i < 8 => PROTOCOL_HEADER[i]);
          outLength, toIngress, state := 8, true, Error;
          assert out[..8] == PROTOCOL_HEADER;
          raised := None;
        }
      } else {
        state := Error;
        raised := None;
      }
    }

    // ----- the two ways a header is put in front of a broker

    method SynthesizeProxyHeader(header: seq<Byte>)
      requires Valid() && header != []
      modifies this
      ensures Did(None, Apply(old(View()), ProxyHeaderSynthesized(header)))
      ensures Renews()
    {
      reply := new Byte[|header|](i requires 0 <= i < |header| => header[i]);
      out, outLength, replies := reply, |header|, replies + 1;
      assert out[..outLength] == header;
    }

    method SynthesizeProtocolHeader()
      requires Valid()
      modifies this
      ensures Did(None, Apply(old(View()), ProtocolHeaderSynthesized))
      ensures Renews()
    {
      SynthesizeProxyHeader(PROTOCOL_HEADER);
    }

    // ----- authentication overrides

    method SetAuthMechanismCredentials(mechanism: seq<Byte>, credentials: seq<Byte>)
      requires Valid()
      modifies this
      ensures Did(None, Apply(old(View()), SetCredentials(mechanism, credentials)))
      ensures Renews()
    {
      startOk := startOk.(mechanism := mechanism);
      startOk := startOk.(response := credentials);
    }

    method SetAuthReasonAsClientProperties(reason: seq<Byte>)
      requires Valid()
      modifies this
      ensures Did(None, Apply(old(View()), SetAuthReason(reason)))
      ensures Renews()
    {
      startOk := startOk.(properties := startOk.properties + [Field(Ascii("amqpprox_auth"), LongString(reason))]);
    }

    // ----- synthesized closes

    method SynthesizeMessage(side: bool, code: int, text: seq<Byte>, classId: int, methodId: int)
        returns (raised: Option<Failure>)
      requires Valid()
      modifies this
      ensures Did(raised, ConnectorModel.SynthesizeMessage(old(View()), side, code, text, classId, methodId))
      ensures Renews()
    {
      hide Transmit;
      outLength := 0;
      close := close.(code := code, text := text);
      if classId != 0 {
        close := close.(classId := classId);
      }
      if methodId != 0 {
        close := close.(methodId := methodId);
      }
      raised := SendResponse(CloseMethod(close), side);
    }

    method SynthesizeClose(side: bool) returns (raised: Option<Failure>)
      requires Valid()
      modifies this
      ensures Did(raised, ConnectorModel.SynthesizeClose(old(View()), side))
      ensures Renews()
    {
      hide Transmit, Ascii;
      outLength := 0;
      state := if side then ClientCloseSent else ServerCloseSent;
      raised := SynthesizeMessage(side, REPLY_SUCCESS, Ascii("OK"), 0, 0);
    }

    method SynthesizeCloseError(side: bool) returns (raised: Option<Failure>)
      requires Valid()
      modifies this
      ensures Did(raised, Apply(old(View()), CloseErrorSynthesized(side)))
      ensures Renews()
    {
      hide Transmit, Ascii;
      raised := SynthesizeMessage(side, CHANNEL_ERROR, Ascii("ERROR: Expected CloseOk reply"), 0, 0);
    }

    // ----- methods

    /** Decodes the one expected method, or says why not. */
    static method Expect(m: Received, flow: Flow, id: int) returns (raised: Option<Failure>, ps: seq<Part>)
      ensures m.methodId != id ==> raised == Some(Mismatch(m, flow))
      ensures m.methodId == id ==>
        var r := ParseParts(Layout(id), m.payload);
        if r.Ok? then raised.None? && ps == r.value else raised == Some(Undecodable(r))
    {
      hide ParseParts;
      ps := [];
      if m.methodId != id {
        if m.methodId == CLOSE_ID && m.classId == CONNECTION_CLASS && flow.Egress? {
          var r := DecodePayload(m.payload, Layout(CLOSE_ID));
          if r.Ok? {
            return Some(BrokerClose(Close(r.value[0].n, r.value[1].text, r.value[2].n, r.value[3].n))), [];
          }
        }
        return Some(Unexpected), [];
      }
      var r := DecodePayload(m.payload, Layout(id));
      if !r.Ok? {
        return Some(Undecodable(r)), [];
      }
      return None, r.value;
    }

    method ReceiveStartOk(m: Received, flow: Flow, info: SessionInfo) returns (raised: Option<Failure>)
      requires Valid() && outLength == 0 && state.StartSent?
      modifies this
      ensures Did(raised, ReceiveMethod(old(View()), m, flow, info))
      ensures raised.None? ==> Stores(old(startOk), DecodeStartOk(m.payload), startOk)
      ensures Renews()
    {
      hide Transmit, ParseParts, Mismatch, Send, Stores;
      StartOkStored(View(), m, flow, info);
      var ps;
      raised, ps := Expect(m, flow, START_OK_ID);
      if raised.None? {
        startOk := StartOk(startOk.properties + ps[0].fields, ps[1].text, ps[2].text, ps[3].text);
        assert startOk == Absorb(old(startOk), DecodeStartOk(m.payload).value);
        hide Absorb, DecodeStartOk;
        raised := SendResponse(TuneMethod(synthesizedTune), true);
        if raised.None? {
          state := TuneSent;
        }
      }
    }

    method ReceiveTuneOkOrOpen(m: Received, flow: Flow, info: SessionInfo) returns (raised: Option<Failure>)
      requires Valid() && outLength == 0 && (state.TuneSent? || state.AwaitingOpen?)
      modifies this
      ensures Did(raised, ReceiveMethod(old(View()), m, flow, info))
      ensures Renews()
    {
      hide Transmit, ParseParts, Mismatch;
      var ps;
      if state.TuneSent? {
        raised, ps := Expect(m, flow, TUNE_OK_ID);
        if raised.None? {
          tuneOk, state := Tune(ps[0].n, ps[1].n, ps[2].n), AwaitingOpen;
        }
      } else {
        raised, ps := Expect(m, flow, OPEN_ID);
        if raised.None? {
          DecodedOpenIsShort(m.payload);
          vhost, state := ps[0].text, AwaitingConnection;
        }
      }
    }

    /** Two properties are pushed, each built up piece by piece. */
    method InjectProxyClientIdent(info: SessionInfo)
      requires Valid()
      modifies this`startOk
      ensures startOk == InjectIdent(old(startOk), info)
    {
      var remoteClient := info.clientHostname + Ascii(":");
      remoteClient := remoteClient + Digits(info.clientPort);
      if info.secured {
        remoteClient := remoteClient + Ascii(" TLS");
      }
      var properties := startOk.properties + [Field(Ascii("amqpprox_client"), LongString(remoteClient))];
      var proxyInfo := Ascii("(:") + Digits(info.listenPort) + Ascii(") ");
      proxyInfo := proxyInfo + info.localHostname + Ascii(":") + Digits(info.outboundPort);
      properties := properties + [Field(Ascii("amqpprox_host"), LongString(proxyInfo))];
      hide Ascii, Digits;
      assert remoteClient == ClientIdent(info) && proxyInfo == ProxyIdent(info);
      startOk := startOk.(properties := properties);
    }

    method ReceiveStart(m: Received, flow: Flow, info: SessionInfo) returns (raised: Option<Failure>)
      requires Valid() && outLength == 0 && state.AwaitingConnection?
      modifies this
      ensures Did(raised, ReceiveMethod(old(View()), m, flow, info))
      ensures Renews()
    {
      hide Transmit, ParseParts, Mismatch, InjectIdent;
      var ps;
      raised, ps := Expect(m, flow, START_ID);
      if raised.None? {
        InjectProxyClientIdent(info);
        raised := SendResponse(StartOkMethod(startOk), false);
        if raised.None? {
          state := StartOkSent;
        }
      }
    }

    method ReceiveTune(m: Received, flow: Flow, info: SessionInfo) returns (raised: Option<Failure>)
      requires Valid() && outLength == 0 && state.StartOkSent?
      modifies this
      ensures Did(raised, ReceiveMethod(old(View()), m, flow, info))
      ensures Renews()
    {
      hide Transmit, ParseParts, Mismatch, FitsFrame;
      var ps;
      raised, ps := Expect(m, flow, TUNE_ID);
      if raised.None? {
        TuneOkAndOpenFit(tuneOk, vhost);
        TransmittedIffFits(OpenMethod(vhost));
        raised := SendResponse(TuneOkMethod(tuneOk), false);
        if raised.None? {
          raised := SendResponse(OpenMethod(vhost), false);
          if raised.None? {
            state := OpenSent;
          }
        }
      }
    }

    method ReceiveWhileClosing(m: Received, flow: Flow, info: SessionInfo) returns (raised: Option<Failure>)
      requires Valid() && outLength == 0
      requires state.ClientCloseSent? || state.ServerCloseSent?
      modifies this
      ensures Did(raised, ReceiveMethod(old(View()), m, flow, info))
      ensures Renews()
    {
      hide Transmit, Ascii;
      raised := None;
      if state.ClientCloseSent? {
        if flow.Ingress? && m.methodId == CLOSE_OK_ID {
          raised := SynthesizeClose(false);
        } else if m.methodId == CLOSE_ID {
          if flow.Ingress? {
            raised := SendResponse(CloseOkMethod, true);
            if raised.None? {
              raised := SynthesizeClose(false);
            }
          } else {
            raised := SendResponse(CloseOkMethod, false);
            if raised.None? {
              state := Closed;
            }
          }
        }
      } else if m.methodId == CLOSE_ID || m.methodId == CLOSE_OK_ID {
        if m.methodId == CLOSE_ID {
          raised := SendResponse(CloseOkMethod, flow.Ingress?);
        }
        if raised.None? && flow.Egress? {
          state := Closed;
        }
      }
    }

    method Receive(m: Received, flow: Flow, info: SessionInfo) returns (raised: Option<Failure>)
      requires Valid()
      modifies this
      ensures Did(raised, ReceiveMethod(old(View()), m, flow, info))
      ensures Renews()
    {
      hide Transmit, DecodeStartOk, DecodeStart, DecodeTune, DecodeOpen, Mismatch, Undecodable, InjectIdent, Ascii;
      ResetOutBuffer();
      match state {
        case StartSent => raised := ReceiveStartOk(m, flow, info);
        case TuneSent => raised := ReceiveTuneOkOrOpen(m, flow, info);
        case AwaitingOpen => raised := ReceiveTuneOkOrOpen(m, flow, info);
        case AwaitingConnection => raised := ReceiveStart(m, flow, info);
        case StartOkSent => raised := ReceiveTune(m, flow, info);
        case OpenSent =>
          raised := None;
          if m.methodId == OPEN_OK_ID {
            state := Open;
            raised := SendResponse(OpenOkMethod, true);
          }
        case ClientCloseSent => raised := ReceiveWhileClosing(m, flow, info);
        case ServerCloseSent => raised := ReceiveWhileClosing(m, flow, info);
        case Open =>
          reply := new Byte[0];
          if m.methodId == CLOSE_OK_ID || m.methodId == CLOSE_ID {
            state := Closed;
          }
          raised := None;
        case _ => raised := None;
      }
    }
  }
}
