/** The responses of a connector are well-formed in every state it can reach. */
module Responses {
  import opened Bytes
  import opened FieldValues
  import opened FieldRoundTrip
  import opened Frames
  import opened Methods
  import opened ConnectorModel
  import opened ConnectorRuns

  /** Well-formed but perhaps for the length of a text. */
  predicate Sane(f: Field) {
    |f.name| <= SHORT_STRING_LIMIT && (WellFormed(f.value) || f.value.LongString?)
  }

  ghost predicate AllSane(s: StartOk) {
    forall f :: f in s.properties ==> Sane(f)
  }

  /** A table of sane fields that is short enough is well-formed. */
  lemma {:induction false} SaneFieldsAreWellFormed(fields: seq<Field>)
    requires (forall f :: f in fields ==> Sane(f)) && |EncodeFields(fields)| < Pow256(4)
    ensures WellFormedFields(fields)
  {
    if fields != [] {
      hide BigEndian, Pow256;
      var f := fields[0];
      assert Sane(f);
      assert |EncodeField(f)| <= |EncodeFields(fields)|;
      if f.value.LongString? {
        assert |f.value.text| <= |EncodeValue(f.value)| <= |EncodeField(f)|;
      }
      SaneFieldsAreWellFormed(fields[1..]);
    }
  }

  lemma {:induction false} WellFormedFieldsAreSane(fields: seq<Field>)
    requires WellFormedFields(fields)
    ensures forall f :: f in fields ==> Sane(f)
  {
    if fields != [] {
      hide WellFormed;
      WellFormedFieldsAreSane(fields[1..]);
      assert forall f :: f in fields ==> f == fields[0] || f in fields[1..];
    }
  }

  lemma DecodedStartOkIsSane(bs: seq<Byte>)
    requires DecodeStartOk(bs).Ok?
    ensures AllSane(DecodeStartOk(bs).value)
  {
    hide ParseTable, WellFormedTable, RendersTable, EncodeTable, ToUnsigned, Sane;
    assert ParsePart(TableSlot, bs).Ok? && ParseTable(bs).Ok?;
    ParsedTableRenders(bs);
    TableFieldsAreSane(ParseTable(bs).value);
  }

  lemma TableFieldsAreSane(fields: seq<Field>)
    requires WellFormedTable(fields)
    ensures forall f :: f in fields ==> Sane(f)
  {
    WellFormedFieldsAreSane(fields);
  }

  lemma {:induction false} PartIsNoLonger(ps: seq<Part>, p: Part)
    requires p in ps
    ensures |EncodePart(p)| <= |EncodeParts(ps)|
  {
    hide EncodePart;
    if p != ps[0] {
      PartIsNoLonger(ps[1..], p);
    }
  }

  /** A StartOk that fits a frame is read back from it as it was. */
  lemma FittingStartOkIsWellFormed(s: StartOk)
    requires AllSane(s) && FitsFrame(StartOkMethod(s))
    ensures WellFormedMethod(StartOkMethod(s))
  {
    var ps, body := PartsOf(StartOkMethod(s)), BodyOf(StartOkMethod(s));
    LimitBelowWord();
    forall p | p in body ensures WellFormedPart(p) {
      assert p in ps && EncodablePart(p);
      hide BigEndian, Pow256, EncodeFields, EncodableFields, WellFormedFields, FateOfParts;
      PartIsNoLonger(ps, p);
      if p.Properties? {
        SaneFieldsAreWellFormed(p.fields);
      }
    }
  }

  lemma LimitBelowWord()
    ensures MAX_FRAME_SIZE < Pow256(4)
  {
    assert Pow256(4) == 256 * Pow256(3) && Pow256(3) == 256 * Pow256(2) && Pow256(2) == 256 * Pow256(1);
  }

  lemma DecodedTuneIsWellFormed(bs: seq<Byte>)
    requires DecodeTune(bs).Ok?
    ensures WellFormedMethod(TuneOkMethod(DecodeTune(bs).value))
  {
    ParsedWordsInRange(Layout(TUNE_ID), bs);
  }

  lemma {:induction false} ParsedWordsInRange(ss: seq<Slot>, bs: seq<Byte>)
    requires ParseParts(ss, bs).Ok?
    ensures forall p :: p in ParseParts(ss, bs).value && p.Word? ==> WellFormedPart(p)
    decreases ss
  {
    if ss != [] {
      hide ParseTable, ParseString;
      var first := ParsePart(ss[0], bs);
      ParsedWordsInRange(ss[1..], bs[first.used..]);
    }
  }

  lemma DecodedOpenIsWellFormed(bs: seq<Byte>)
    requires DecodeOpen(bs).Ok?
    ensures WellFormedMethod(OpenMethod(DecodeOpen(bs).value))
  {
    hide DecodeOpen;
    DecodedOpenIsShort(bs);
  }

  lemma StartOkSize(s: StartOk)
    ensures |EncodeMethod(StartOkMethod(s))| ==
      14 + |EncodeFields(s.properties)| + |s.mechanism| + |s.response| + |s.locale|
  {
    hide BigEndian, EncodeFields;
    var ps := PartsOf(StartOkMethod(s));
    FiveParts(ps[1..]);
    assert |EncodeParts(ps)| == |EncodePart(ps[0])| + |EncodeParts(ps[1..])|;
  }

  // ----- what every run keeps

  predicate IsWord(n: int) {
    0 <= n < 65536
  }

  /** Everything responses are made of is well-formed, but perhaps for the length of a text. */
  ghost predicate SaneConn(c: Conn) {
    && WellFormedMethod(StartMethod(c.synthesizedStart))
    && WellFormedMethod(TuneMethod(c.synthesizedTune))
    && WellFormedMethod(TuneOkMethod(c.tuneOk))
    && |c.vhost| <= SHORT_STRING_LIMIT
    && AllSane(c.startOk)
    && IsWord(c.close.classId) && IsWord(c.close.methodId)
  }

  /** The reply code and numbers of a custom close are 16-bit integers. */
  predicate InRange(e: Event) {
    e.CustomCloseSynthesized? ==> IsWord(e.code) && IsWord(e.classId) && IsWord(e.methodId)
  }

  lemma InjectedStaysSane(s: StartOk, info: SessionInfo)
    requires AllSane(s)
    ensures AllSane(InjectIdent(s, info))
  {
    hide WellFormed, ClientIdent, ProxyIdent;
  }

  lemma AbsorbedStaysSane(s: StartOk, bs: seq<Byte>)
    requires AllSane(s) && DecodeStartOk(bs).Ok?
    ensures AllSane(Absorb(s, DecodeStartOk(bs).value))
  {
    hide Sane, DecodeStartOk;
    DecodedStartOkIsSane(bs);
  }

  lemma ReasonStaysSane(s: StartOk, reason: seq<Byte>)
    requires AllSane(s)
    ensures AllSane(AddAuthReason(s, reason))
  {
    hide WellFormed;
  }

  lemma ClosingStaysSane(c: Conn, m: Received, flow: Flow, info: SessionInfo)
    requires SaneConn(c) && Closing(c.state) && ReceiveMethod(c, m, flow, info).Next?
    ensures SaneConn(ReceiveMethod(c, m, flow, info).conn)
  {
    hide Transmit, Ascii, AllSane, WellFormedMethod;
  }

  /** What receiving a method can do to the parts responses are made of. */
  lemma MethodStaysSane(c: Conn, m: Received, flow: Flow, info: SessionInfo)
    requires SaneConn(c) && ReceiveMethod(c, m, flow, info).Next?
    ensures SaneConn(ReceiveMethod(c, m, flow, info).conn)
  {
    hide Transmit, Ascii, InjectIdent, Absorb, AllSane, WellFormedMethod, Mismatch, Undecodable,
      DecodeStartOk, DecodeStart, DecodeTune, DecodeOpen, DecodeClose;
    if Closing(c.state) {
      ClosingStaysSane(c, m, flow, info);
      return;
    }
    hide ReceiveAfterClientClose, ReceiveAfterServerClose, SynthesizeClose;
    InjectedStaysSane(c.startOk, info);
    if DecodeStartOk(m.payload).Ok? {
      AbsorbedStaysSane(c.startOk, m.payload);
    }
    if DecodeTune(m.payload).Ok? {
      DecodedTuneIsWellFormed(m.payload);
    }
    if DecodeOpen(m.payload).Ok? {
      DecodedOpenIsShort(m.payload);
    }
  }

  lemma StepStaysSane(c: Conn, e: Event)
    requires SaneConn(c) && InRange(e) && Apply(c, e).Next?
    ensures SaneConn(Apply(c, e).conn)
  {
    hide Transmit, Ascii, ReceiveMethod, WellFormedMethod, AllSane, AddAuthReason;
    match e
    case MethodReceived(m, flow, info) => MethodStaysSane(c, m, flow, info);
    case SetAuthReason(reason) => ReasonStaysSane(c.startOk, reason);
    case SetCredentials(mechanism, credentials) => assert AllSane(OverrideCredentials(c.startOk, mechanism, credentials)) by {
      SameProperties(c.startOk, OverrideCredentials(c.startOk, mechanism, credentials));
    }
    case _ =>
  }

  lemma SameProperties(s: StartOk, t: StartOk)
    requires AllSane(s) && s.properties == t.properties
    ensures AllSane(t)
  {
  }

  lemma InitialIsSane(start: Start, tune: Tune)
    requires WellFormedMethod(StartMethod(start)) && WellFormedMethod(TuneMethod(tune))
    ensures SaneConn(Initial(start, tune))
  {
    hide WellFormedTable;
  }

  lemma {:induction false} RunStaysSane(c: Conn, es: seq<Event>)
    requires SaneConn(c) && (forall e :: e in es ==> InRange(e)) && Run(c, es).Next?
    ensures SaneConn(Run(c, es).conn)
  {
    hide Apply, SaneConn, InRange;
    if es != [] {
      var n := |es| - 1;
      RunStaysSane(c, es[..n]);
      assert es[n] in es;
      StepStaysSane(Run(c, es[..n]).conn, es[n]);
    }
  }

  lemma FittingCloseIsWellFormed(close: Close)
    requires IsWord(close.code) && IsWord(close.classId) && IsWord(close.methodId)
    requires FitsFrame(CloseMethod(close))
    ensures WellFormedMethod(CloseMethod(close))
  {
    var ps := PartsOf(CloseMethod(close));
    assert ps[3] == ShortText(close.text) && EncodablePart(ps[3]);
    assert Pow256(2) == 256 * Pow256(1) == 65536;
    hide Pow256;
  }

  /** Whatever a sane connector queues is well-formed if it fits a frame. */
  lemma QueuedIsWellFormed(c: Conn, e: Event, m: Method)
    requires SaneConn(c) && InRange(e) && m in Queued(c, e) && FitsFrame(m)
    ensures WellFormedMethod(m)
  {
    hide FitsFrame, AllSane, Ascii, InjectIdent;
    match m
    case StartOkMethod(s) =>
      InjectedStaysSane(c.startOk, e.info);
      FittingStartOkIsWellFormed(s);
    case CloseMethod(close) => FittingCloseIsWellFormed(close);
    case _ =>
  }

  /**
   * In every state a connector can reach, after any method received or close synthesized
   * whose responses fit, the out-buffer splits with nothing left over into type-1, channel-0
   * frames, and these read back as exactly the queued responses, all for one side.
   */
  lemma OutBufferHoldsResponses(start: Start, tune: Tune, es: seq<Event>, c: Conn, e: Event)
    requires WellFormedMethod(StartMethod(start)) && WellFormedMethod(TuneMethod(tune))
    requires (forall e' :: e' in es + [e] ==> InRange(e')) && Run(Initial(start, tune), es) == Next(c)
    requires Responds(c, e) && Apply(c, e).Next?
    requires forall m :: m in Queued(c, e) ==> FitsFrame(m)
    ensures HoldsQueued(c, e)
  {
    hide Run, Apply, Queued, Responds, FitsFrame, WellFormedMethod, SaneConn, InRange, HoldsQueued;
    InitialIsSane(start, tune);
    assert forall e' :: e' in es ==> e' in es + [e];
    assert e in es + [e];
    RunStaysSane(Initial(start, tune), es);
    forall m | m in Queued(c, e) ensures WellFormedMethod(m) {
      QueuedIsWellFormed(c, e, m);
    }
    OutBufferHoldsQueued(c, e);
  }
}
