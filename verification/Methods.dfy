/**
 * The connection-class methods of the handshake and the close, AMQP 0-9-1 section 2.2.4.
 * A method body is a row of parts; encoding stops at the first part that fails.
 */
module Methods {
  import opened Bytes
  import opened FieldValues
  import opened FieldRoundTrip
  import opened FieldWriter
  import opened FieldReader
  import opened Buffers

  // ----- rows of parts

  datatype Part =
    | Word(width: nat, n: int)
    | ShortText(text: seq<Byte>)
    | LongText(text: seq<Byte>)
    | Properties(fields: seq<Field>)

  datatype Slot = WordSlot(width: nat) | ShortSlot | LongSlot | TableSlot

  function SlotOf(p: Part): Slot {
    match p
    case Word(w, _) => WordSlot(w)
    case ShortText(_) => ShortSlot
    case LongText(_) => LongSlot
    case Properties(_) => TableSlot
  }

  predicate WellFormedPart(p: Part) {
    match p
    case Word(w, n) => 0 <= n < Pow256(w)
    case ShortText(text) => |text| <= SHORT_STRING_LIMIT
    case LongText(text) => |text| < Pow256(4)
    case Properties(fields) => WellFormedTable(fields)
  }

  predicate EncodablePart(p: Part) {
    match p
    case ShortText(text) => |text| <= SHORT_STRING_LIMIT
    case Properties(fields) => EncodableFields(fields)
    case _ => true
  }

  function EncodePart(p: Part): (bs: seq<Byte>) {
    match p
    case Word(w, n) => BigEndian(n, w)
    case ShortText(text) => EncodeShortString(text)
    case LongText(text) => EncodeLongString(text)
    case Properties(fields) => EncodeTable(fields)
  }

  function EncodeParts(ps: seq<Part>): (bs: seq<Byte>) {
    if ps == [] then [] else EncodePart(ps[0]) + EncodeParts(ps[1..])
  }

  function FateOfPart(p: Part, room: nat): (r: Outcome)
    ensures r.Written? ==> |EncodePart(p)| <= room
  {
    match p
    case Word(w, _) => if w <= room then Written else Refused
    case ShortText(text) => FateOfShortString(text, room)
    case LongText(text) => if 4 + |text| <= room then Written else Refused
    case Properties(fields) => FateOfTable(fields, room)
  }

  function FateOfParts(ps: seq<Part>, room: nat): (r: Outcome)
    ensures r.Written? ==> |EncodeParts(ps)| <= room
  {
    if ps == [] then Written
    else
      var r := FateOfPart(ps[0], room);
      if r.Written? then FateOfParts(ps[1..], room - |EncodePart(ps[0])|) else r
  }

  /** A part read back: fixed-width words are checked for here, unlike in a field value. */
  function ParsePart(s: Slot, bs: seq<Byte>): (r: Parsed<Part>)
    ensures r.Ok? ==> r.used <= |bs|
  {
    match s
    case WordSlot(w) => if |bs| < w then Rejected else Ok(Word(w, ToUnsigned(bs[..w])), w)
    case ShortSlot =>
      var (text, used) :- ParseShortString(bs);
      Ok(ShortText(text), used)
    case LongSlot =>
      var (text, used) :- ParseLongString(bs);
      Ok(LongText(text), used)
    case TableSlot =>
      var (fields, used) :- ParseTable(bs);
      Ok(Properties(fields), used)
  }

  function ParseParts(ss: seq<Slot>, bs: seq<Byte>): (r: Parsed<seq<Part>>)
    ensures r.Ok? ==> r.used <= |bs| && Fill(r.value, ss)
    decreases ss
  {
    if ss == [] then Ok([], 0)
    else
      var (p, n) :- ParsePart(ss[0], bs);
      var (ps, m) :- ParseParts(ss[1..], bs[n..]);
      Ok([p] + ps, n + m)
  }

  predicate Fill(ps: seq<Part>, ss: seq<Slot>) {
    |ps| == |ss| && forall i :: 0 <= i < |ss| ==> SlotOf(ps[i]) == ss[i]
  }

  lemma {:induction false} ParseEncodedPart(p: Part, tail: seq<Byte>)
    requires WellFormedPart(p)
    ensures ParsePart(SlotOf(p), EncodePart(p) + tail) == Ok(p, |EncodePart(p)|)
  {
    hide BigEndian, ToUnsigned, ParseString, ParseTable, EncodeTable, WellFormedTable;
    match p
    case Word(w, n) =>
      UnsignedOfBigEndian(n, w);
      assert (EncodePart(p) + tail)[..w] == BigEndian(n, w);
    case ShortText(text) => ParseEncodedString(text, 1, tail);
    case LongText(text) => ParseEncodedString(text, 4, tail);
    case Properties(fields) => ParseEncodedTable(fields, tail);
  }

  /** A well-formed row, followed by anything, reads back as itself. */
  lemma {:induction false} ParseEncodedParts(ps: seq<Part>, ss: seq<Slot>, tail: seq<Byte>)
    requires Fill(ps, ss) && forall p :: p in ps ==> WellFormedPart(p)
    ensures ParseParts(ss, EncodeParts(ps) + tail) == Ok(ps, |EncodeParts(ps)|)
  {
    hide ParsePart, EncodePart, WellFormedPart, SlotOf;
    if ps != [] {
      var head, rest := EncodePart(ps[0]), EncodeParts(ps[1..]) + tail;
      ParseEncodedPart(ps[0], rest);
      ParseEncodedParts(ps[1..], ss[1..], tail);
      assert EncodeParts(ps) + tail == head + rest;
      assert (head + rest)[|head|..] == rest;
      assert [ps[0]] + ps[1..] == ps;
    }
  }

  // ----- no accepted encoding is a strict prefix of another

  lemma {:induction false} ShortenedStringRejected(bs: seq<Byte>, prefix: nat, n: nat)
    requires ParseString(bs, prefix).Ok? && n < ParseString(bs, prefix).used
    ensures ParseString(bs[..n], prefix) == Rejected
  {
    hide ToUnsigned;
    if n >= prefix {
      assert bs[..n][..prefix] == bs[..prefix];
    }
  }

  lemma {:induction false} ShortenedPartRejected(s: Slot, bs: seq<Byte>, n: nat)
    requires ParsePart(s, bs).Ok? && n < ParsePart(s, bs).used
    ensures ParsePart(s, bs[..n]) == Rejected
  {
    hide ParseString;
    match s
    case WordSlot(w) =>
    case ShortSlot => ShortenedStringRejected(bs, 1, n);
    case LongSlot => ShortenedStringRejected(bs, 4, n);
    case TableSlot => ShortenedStringRejected(bs, 4, n);
  }

  /** A part that is all there reads the same whatever is cut off behind it. */
  lemma {:induction false} CutPartReads(s: Slot, bs: seq<Byte>, n: nat)
    requires ParsePart(s, bs).Ok? && ParsePart(s, bs).used <= n <= |bs|
    ensures ParsePart(s, bs[..n]) == ParsePart(s, bs)
  {
    match s
    case WordSlot(w) => assert bs[..n][..w] == bs[..w];
    case ShortSlot => CutStringReads(bs, 1, n);
    case LongSlot => CutStringReads(bs, 4, n);
    case TableSlot => CutStringReads(bs, 4, n);
  }

  lemma {:induction false} CutStringReads(bs: seq<Byte>, prefix: nat, n: nat)
    requires ParseString(bs, prefix).Ok? && ParseString(bs, prefix).used <= n <= |bs|
    ensures ParseString(bs[..n], prefix) == ParseString(bs, prefix)
  {
    hide ToUnsigned;
    var used := ParseString(bs, prefix).used;
    assert bs[..n][..prefix] == bs[..prefix];
    assert bs[..n][prefix..used] == bs[prefix..used];
  }

  /**
   * Whatever the decoder of a row accepts, it rejects every strict prefix of it, and
   * without reading past the end.
   */
  lemma {:induction false} PrefixRejected(ss: seq<Slot>, bs: seq<Byte>, n: nat)
    requires ParseParts(ss, bs).Ok? && n < ParseParts(ss, bs).used
    ensures ParseParts(ss, bs[..n]) == Rejected
    decreases ss
  {
    hide ParsePart;
    var p := ParsePart(ss[0], bs);
    if n < p.used {
      ShortenedPartRejected(ss[0], bs, n);
    } else {
      CutPartReads(ss[0], bs, n);
      PrefixRejected(ss[1..], bs[p.used..], n - p.used);
      assert bs[..n][p.used..] == bs[p.used..][..n - p.used];
    }
  }

  lemma FateOfPartExact(p: Part, room: nat)
    ensures FateOfPart(p, room).Written? <==> EncodablePart(p) && |EncodePart(p)| <= room
    ensures |EncodePart(p)| <= room ==> !FateOfPart(p, room).Aborted?
  {
    hide EncodeTable, FateOfTable, EncodableFields, BigEndian;
    if p.Properties? {
      FateOfTableExact(p.fields, room);
    }
  }

  /** A row is written exactly when every part is encodable and all of it fits. */
  lemma {:induction false} FateOfPartsExact(ps: seq<Part>, room: nat)
    ensures FateOfParts(ps, room).Written? <==>
      (forall p :: p in ps ==> EncodablePart(p)) && |EncodeParts(ps)| <= room
    ensures |EncodeParts(ps)| <= room ==> !FateOfParts(ps, room).Aborted?
  {
    hide FateOfPart, EncodePart, EncodablePart;
    if ps != [] {
      FateOfPartExact(ps[0], room);
      assert forall p :: p in ps <==> p == ps[0] || p in ps[1..];
      if FateOfPart(ps[0], room).Written? {
        FateOfPartsExact(ps[1..], room - |EncodePart(ps[0])|);
      }
    }
  }

  method WritePart(b: Buffer, p: Part) returns (r: Outcome)
    requires b.Valid()
    modifies b, b.mem
    ensures r == FateOfPart(p, old(b.Available()))
    ensures WroteInto(b, r, EncodePart(p))
  {
    hide BigEndian, EncodeTable, FateOfTable, Splice;
    match p {
      case Word(w, n) =>
        var ok := b.WriteIn(BigEndian(n, w));
        r := if ok then Written else Refused;
      case ShortText(text) => r := WriteShortString(b, text);
      case LongText(text) => r := WriteLongString(b, text);
      case Properties(fields) => r := WriteTable(b, fields);
    }
  }

  lemma {:induction false} EncodePartsConcat(a: seq<Part>, b: seq<Part>)
    ensures EncodeParts(a + b) == EncodeParts(a) + EncodeParts(b)
  {
    hide EncodePart;
    if a == [] {
      assert a + b == b;
    } else {
      EncodePartsConcat(a[1..], b);
      assert (a + b)[1..] == a[1..] + b;
      ConcatAssociates(EncodePart(a[0]), EncodeParts(a[1..]), EncodeParts(b));
    }
  }

  method WriteParts(b: Buffer, ps: seq<Part>) returns (r: Outcome)
    requires b.Valid()
    modifies b, b.mem
    ensures r == FateOfParts(ps, old(b.Available()))
    ensures WroteInto(b, r, EncodeParts(ps))
  {
    hide EncodePart, FateOfPart, Splice, SameOutside;
    ghost var before, p, room := b.mem[..], b.Position(), b.Available();
    ghost var done: seq<Byte> := [];
    SpliceNothing(before, p);
    for i := 0 to |ps|
      invariant done == EncodeParts(ps[..i])
      invariant b.Valid() && |done| <= room && b.offset == old(b.offset) + |done|
      invariant b.mem[..] == Splice(before, p, done)
      invariant FateOfParts(ps, room) == FateOfParts(ps[i..], room - |done|)
    {
      ghost var rest := ps[i..];
      assert rest[1..] == ps[i + 1..];
      r := WritePart(b, ps[i]);
      if !r.Written? {
        SpliceThenOutside(before, p, done, b.mem[..], p, p + room);
        return;
      }
      EncodePartsConcat(ps[..i], [ps[i]]);
      assert EncodeParts([ps[i]]) == EncodePart(ps[i]);
      assert ps[..i] + [ps[i]] == ps[..i + 1];
      SpliceAdjacent(before, p, done, EncodePart(ps[i]));
      done := done + EncodePart(ps[i]);
    }
    assert ps[..|ps|] == ps;
    r := Written;
  }

  method ReadPart(b: Buffer, s: Slot) returns (r: Parsed<Part>)
    requires b.Valid()
    modifies b
    ensures b.Valid() && r == ParsePart(s, old(b.Rest()))
    ensures r.Ok? ==> b.offset == old(b.offset) + r.used
  {
    hide ToUnsigned, ParseString, ParseTable;
    match s {
      case WordSlot(w) =>
        if b.Available() < w {
          return Rejected;
        }
        var octets := b.Copy(w);
        r := Ok(Word(w, ToUnsigned(octets)), w);
      case ShortSlot =>
        var text :- ReadString(b, 1);
        r := Ok(ShortText(text.0), text.1);
      case LongSlot =>
        var text :- ReadString(b, 4);
        r := Ok(LongText(text.0), text.1);
      case TableSlot =>
        var fields :- ReadTable(b);
        r := Ok(Properties(fields.0), fields.1);
    }
  }

  method ReadParts(b: Buffer, ss: seq<Slot>) returns (r: Parsed<seq<Part>>)
    requires b.Valid()
    modifies b
    ensures b.Valid() && r == ParseParts(ss, old(b.Rest()))
    ensures r.Ok? ==> b.offset == old(b.offset) + r.used
    decreases ss
  {
    hide ParsePart;
    if ss == [] {
      return Ok([], 0);
    }
    var first :- ReadPart(b, ss[0]);
    assert b.Rest() == old(b.Rest())[first.1..];
    var rest :- ReadParts(b, ss[1..]);
    r := Ok([first.0] + rest.0, first.1 + rest.1);
  }

  // ----- the methods

  datatype Start = Start(major: int, minor: int, properties: seq<Field>, mechanisms: seq<Byte>, locales: seq<Byte>)
  datatype StartOk = StartOk(properties: seq<Field>, mechanism: seq<Byte>, response: seq<Byte>, locale: seq<Byte>)
  datatype Tune = Tune(channelMax: int, frameMax: int, heartbeat: int)
  datatype Close = Close(code: int, text: seq<Byte>, classId: int, methodId: int)

  datatype Method =
    | StartMethod(start: Start) | StartOkMethod(startOk: StartOk)
    | TuneMethod(tune: Tune) | TuneOkMethod(tuneOk: Tune)
    | OpenMethod(vhost: seq<Byte>) | OpenOkMethod
    | CloseMethod(close: Close) | CloseOkMethod

  const CONNECTION_CLASS := 10
  const START_ID := 10
  const START_OK_ID := 11
  const TUNE_ID := 30
  const TUNE_OK_ID := 31
  const OPEN_ID := 40
  const OPEN_OK_ID := 41
  const CLOSE_ID := 50
  const CLOSE_OK_ID := 51

  function MethodId(m: Method): int {
    match m
    case StartMethod(_) => START_ID
    case StartOkMethod(_) => START_OK_ID
    case TuneMethod(_) => TUNE_ID
    case TuneOkMethod(_) => TUNE_OK_ID
    case OpenMethod(_) => OPEN_ID
    case OpenOkMethod => OPEN_OK_ID
    case CloseMethod(_) => CLOSE_ID
    case CloseOkMethod => CLOSE_OK_ID
  }

  function BodyOf(m: Method): seq<Part> {
    match m
    case StartMethod(s) =>
      [Word(1, s.major), Word(1, s.minor), Properties(s.properties), LongText(s.mechanisms), LongText(s.locales)]
    case StartOkMethod(s) =>
      [Properties(s.properties), ShortText(s.mechanism), LongText(s.response), ShortText(s.locale)]
    case TuneMethod(t) => [Word(2, t.channelMax), Word(4, t.frameMax), Word(2, t.heartbeat)]
    case TuneOkMethod(t) => [Word(2, t.channelMax), Word(4, t.frameMax), Word(2, t.heartbeat)]
    case OpenMethod(vhost) => [ShortText(vhost), ShortText([]), Word(1, 0)]
    case OpenOkMethod => [ShortText([])]
    case CloseMethod(c) => [Word(2, c.code), ShortText(c.text), Word(2, c.classId), Word(2, c.methodId)]
    case CloseOkMethod => []
  }

  /** The class and method numbers, then the body. */
  function PartsOf(m: Method): seq<Part> {
    [Word(2, CONNECTION_CLASS), Word(2, MethodId(m))] + BodyOf(m)
  }

  function EncodeMethod(m: Method): (bs: seq<Byte>) {
    EncodeParts(PartsOf(m))
  }

  predicate WellFormedMethod(m: Method) {
    forall p :: p in BodyOf(m) ==> WellFormedPart(p)
  }

  /** What is read of each method; the reserved parts of an Open are left unread. */
  function Layout(id: int): seq<Slot> {
    match id
    case 10 => [WordSlot(1), WordSlot(1), TableSlot, LongSlot, LongSlot]
    case 11 => [TableSlot, ShortSlot, LongSlot, ShortSlot]
    case 30 | 31 => [WordSlot(2), WordSlot(4), WordSlot(2)]
    case 40 | 41 => [ShortSlot]
    case 50 => [WordSlot(2), ShortSlot, WordSlot(2), WordSlot(2)]
    case _ => []
  }

  function DecodeStart(bs: seq<Byte>): Parsed<Start> {
    var (ps, used) :- ParseParts(Layout(START_ID), bs);
    Ok(Start(ps[0].n, ps[1].n, ps[2].fields, ps[3].text, ps[4].text), used)
  }

  function DecodeStartOk(bs: seq<Byte>): Parsed<StartOk> {
    var (ps, used) :- ParseParts(Layout(START_OK_ID), bs);
    Ok(StartOk(ps[0].fields, ps[1].text, ps[2].text, ps[3].text), used)
  }

  function DecodeTune(bs: seq<Byte>): Parsed<Tune> {
    var (ps, used) :- ParseParts(Layout(TUNE_ID), bs);
    Ok(Tune(ps[0].n, ps[1].n, ps[2].n), used)
  }

  function DecodeOpen(bs: seq<Byte>): Parsed<seq<Byte>> {
    var (ps, used) :- ParseParts(Layout(OPEN_ID), bs);
    Ok(ps[0].text, used)
  }

  function DecodeClose(bs: seq<Byte>): Parsed<Close> {
    var (ps, used) :- ParseParts(Layout(CLOSE_ID), bs);
    Ok(Close(ps[0].n, ps[1].text, ps[2].n, ps[3].n), used)
  }

  function EncodeBody(m: Method): (bs: seq<Byte>) {
    EncodeParts(BodyOf(m))
  }

  lemma DecodeEncodedStart(s: Start, tail: seq<Byte>)
    requires WellFormedMethod(StartMethod(s))
    ensures DecodeStart(EncodeBody(StartMethod(s)) + tail) == Ok(s, |EncodeBody(StartMethod(s))|)
  {
    hide ParseParts, EncodeParts, WellFormedPart;
    ParseEncodedParts(BodyOf(StartMethod(s)), Layout(START_ID), tail);
  }

  lemma DecodeEncodedStartOk(s: StartOk, tail: seq<Byte>)
    requires WellFormedMethod(StartOkMethod(s))
    ensures DecodeStartOk(EncodeBody(StartOkMethod(s)) + tail) == Ok(s, |EncodeBody(StartOkMethod(s))|)
  {
    hide ParseParts, EncodeParts, WellFormedPart;
    ParseEncodedParts(BodyOf(StartOkMethod(s)), Layout(START_OK_ID), tail);
  }

  lemma DecodeEncodedTune(m: Method, t: Tune, tail: seq<Byte>)
    requires m == TuneMethod(t) || m == TuneOkMethod(t)
    requires WellFormedMethod(m)
    ensures DecodeTune(EncodeBody(m) + tail) == Ok(t, |EncodeBody(m)|)
  {
    hide ParseParts, EncodeParts, WellFormedPart;
    ParseEncodedParts(BodyOf(m), Layout(TUNE_ID), tail);
  }

  lemma DecodeEncodedOpen(vhost: seq<Byte>, tail: seq<Byte>)
    requires WellFormedMethod(OpenMethod(vhost))
    ensures DecodeOpen(EncodeBody(OpenMethod(vhost)) + tail) == Ok(vhost, 1 + |vhost|)
  {
    hide ParseParts, WellFormedPart, BigEndian;
    var body, first := BodyOf(OpenMethod(vhost)), [ShortText(vhost)];
    assert body[0] == ShortText(vhost) && body[0] in body;
    assert body[1..][1..] == [Word(1, 0)] && body[1..][0] == ShortText([]);
    var rest := EncodeParts(body[1..]) + tail;
    assert EncodeBody(OpenMethod(vhost)) + tail == EncodeParts(first) + rest;
    ParseEncodedParts(first, Layout(OPEN_ID), rest);
  }

  lemma DecodeEncodedClose(c: Close, tail: seq<Byte>)
    requires WellFormedMethod(CloseMethod(c))
    ensures DecodeClose(EncodeBody(CloseMethod(c)) + tail) == Ok(c, |EncodeBody(CloseMethod(c))|)
  {
    hide ParseParts, EncodeParts, WellFormedPart;
    ParseEncodedParts(BodyOf(CloseMethod(c)), Layout(CLOSE_ID), tail);
  }

  /** No strict prefix of what is accepted as a Start or a StartOk is accepted. */
  lemma StartPrefixRejected(bs: seq<Byte>, n: nat)
    requires DecodeStart(bs).Ok? && n < DecodeStart(bs).used
    ensures DecodeStart(bs[..n]) == Rejected
  {
    hide ParseParts;
    PrefixRejected(Layout(START_ID), bs, n);
  }

  lemma StartOkPrefixRejected(bs: seq<Byte>, n: nat)
    requires DecodeStartOk(bs).Ok? && n < DecodeStartOk(bs).used
    ensures DecodeStartOk(bs[..n]) == Rejected
  {
    hide ParseParts;
    PrefixRejected(Layout(START_OK_ID), bs, n);
  }

  /** A method payload read in full: class and method numbers, then the body by number. */
  function DecodeMethod(bs: seq<Byte>): Parsed<Method> {
    var (head, n) :- ParseParts([WordSlot(2), WordSlot(2)], bs);
    var body := bs[n..];
    if head[0].n != CONNECTION_CLASS then Rejected
    else
      match head[1].n
      case 10 => var (s, m) :- DecodeStart(body); Ok(StartMethod(s), n + m)
      case 11 => var (s, m) :- DecodeStartOk(body); Ok(StartOkMethod(s), n + m)
      case 30 => var (t, m) :- DecodeTune(body); Ok(TuneMethod(t), n + m)
      case 31 => var (t, m) :- DecodeTune(body); Ok(TuneOkMethod(t), n + m)
      case 40 => var (vhost, m) :- DecodeOpen(body); Ok(OpenMethod(vhost), n + m)
      case 41 => Ok(OpenOkMethod, n)
      case 50 => var (c, m) :- DecodeClose(body); Ok(CloseMethod(c), n + m)
      case 51 => Ok(CloseOkMethod, n)
      case _ => Rejected
  }

  /** Every well-formed method reads back from its encoding. */
  lemma DecodeEncodedMethod(m: Method)
    requires WellFormedMethod(m)
    ensures DecodeMethod(EncodeMethod(m)).Ok? && DecodeMethod(EncodeMethod(m)).value == m
  {
    hide ParseParts, EncodeParts, DecodeStart, DecodeStartOk, DecodeTune, DecodeOpen, DecodeClose, WellFormedMethod;
    var head := [Word(2, CONNECTION_CLASS), Word(2, MethodId(m))];
    var body := EncodeBody(m);
    EncodePartsConcat(head, BodyOf(m));
    ParseEncodedParts(head, [WordSlot(2), WordSlot(2)], body);
    assert EncodeMethod(m)[|EncodeParts(head)|..] == body == body + [];
    match m
    case StartMethod(s) => DecodeEncodedStart(s, []);
    case StartOkMethod(s) => DecodeEncodedStartOk(s, []);
    case TuneMethod(t) => DecodeEncodedTune(m, t, []);
    case TuneOkMethod(t) => DecodeEncodedTune(m, t, []);
    case OpenMethod(vhost) => DecodeEncodedOpen(vhost, []);
    case OpenOkMethod =>
    case CloseMethod(c) => DecodeEncodedClose(c, []);
    case CloseOkMethod =>
  }

  lemma DecodedOpenIsShort(bs: seq<Byte>)
    requires DecodeOpen(bs).Ok?
    ensures |DecodeOpen(bs).value| <= SHORT_STRING_LIMIT
  {
    hide ToUnsigned;
    assert ParsePart(ShortSlot, bs).Ok?;
    assert Pow256(1) == 256;
  }
}
