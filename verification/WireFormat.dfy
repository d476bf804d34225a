/**
 * The wire format octet by octet: what the codec of field values, frames and methods means, said
 * in plain arithmetic and without its own integer encoding, tags, widths and layouts.
 */
module WireFormat {
  import opened Bytes
  import opened FieldValues
  import opened Frames
  import opened Methods

  // ----- integers

  function Two(n: int): seq<Byte> {
    [n / 256 % 256, n % 256]
  }

  function Four(n: int): seq<Byte> {
    [n / 16777216 % 256, n / 65536 % 256, n / 256 % 256, n % 256]
  }

  function Eight(n: int): seq<Byte> {
    [n / 72057594037927936 % 256, n / 281474976710656 % 256, n / 1099511627776 % 256, n / 4294967296 % 256] + Four(n)
  }

  function Word16(a: Byte, b: Byte): nat {
    256 * a + b
  }

  function Word32(a: Byte, b: Byte, c: Byte, d: Byte): nat {
    16777216 * a + 65536 * b + 256 * c + d
  }

  function Word64(a: Byte, b: Byte, c: Byte, d: Byte, e: Byte, f: Byte, g: Byte, h: Byte): nat {
    4294967296 * Word32(a, b, c, d) + Word32(e, f, g, h)
  }

  /** A word of so many values, the upper half of which stand for the negative numbers. */
  function Signed(n: nat, values: nat): int {
    if 2 * n < values then n else n - values
  }

  lemma Powers()
    ensures Pow256(0) == 1 && Pow256(1) == 256 && Pow256(2) == 65536 && Pow256(3) == 16777216 && Pow256(4) == 4294967296
    ensures Pow256(5) == 1099511627776 && Pow256(6) == 281474976710656 && Pow256(7) == 72057594037927936
    ensures Pow256(8) == 18446744073709551616
  {
    assert Pow256(1) == 256 * Pow256(0) && Pow256(2) == 256 * Pow256(1) && Pow256(3) == 256 * Pow256(2);
    assert Pow256(4) == 256 * Pow256(3) && Pow256(5) == 256 * Pow256(4) && Pow256(6) == 256 * Pow256(5);
    assert Pow256(7) == 256 * Pow256(6) && Pow256(8) == 256 * Pow256(7);
  }

  lemma WrittenInteger(n: int)
    ensures BigEndian(n, 1) == [n % 256] && BigEndian(n, 2) == Two(n) && BigEndian(n, 4) == Four(n) && BigEndian(n, 8) == Eight(n)
  {
    hide BigEndian, Pow256;
    Powers();
    forall width, i | 0 <= i < width <= 8 ensures BigEndian(n, width)[i] == n / Pow256(width - 1 - i) % 256 {
      BigEndianAt(n, width, i);
    }
  }

  lemma ReadShort(a: Byte, b: Byte)
    ensures ToUnsigned([a]) == a && ToUnsigned([a, b]) == Word16(a, b)
    ensures ToSigned([a]) == Signed(a, 256) && ToSigned([a, b]) == Signed(Word16(a, b), 65536)
  {
    Powers();
    FirstCountsMost([a]);
    FirstCountsMost([a, b]);
    FirstCountsMost([b]);
    assert [a, b][1..] == [b] && [b][1..] == [] && [a][1..] == [];
  }

  lemma ReadLong(a: Byte, b: Byte, c: Byte, d: Byte)
    ensures ToUnsigned([a, b, c, d]) == Word32(a, b, c, d) && ToSigned([a, b, c, d]) == Signed(Word32(a, b, c, d), 4294967296)
  {
    Powers();
    ReadShort(c, d);
    FirstCountsMost([a, b, c, d]);
    FirstCountsMost([b, c, d]);
    assert [a, b, c, d][1..] == [b, c, d] && [b, c, d][1..] == [c, d];
    hide ToUnsigned, Pow256;
  }

  lemma ReadLongLong(a: Byte, b: Byte, c: Byte, d: Byte, e: Byte, f: Byte, g: Byte, h: Byte)
    ensures ToUnsigned([a, b, c, d, e, f, g, h]) == Word64(a, b, c, d, e, f, g, h)
    ensures ToSigned([a, b, c, d, e, f, g, h]) == Signed(Word64(a, b, c, d, e, f, g, h), 18446744073709551616)
  {
    hide ToUnsigned, Pow256;
    Powers();
    ReadLong(e, f, g, h);
    FirstCountsMost([a, b, c, d, e, f, g, h]);
    FirstCountsMost([b, c, d, e, f, g, h]);
    FirstCountsMost([c, d, e, f, g, h]);
    FirstCountsMost([d, e, f, g, h]);
    assert [a, b, c, d, e, f, g, h][1..] == [b, c, d, e, f, g, h] && [b, c, d, e, f, g, h][1..] == [c, d, e, f, g, h];
    assert [c, d, e, f, g, h][1..] == [d, e, f, g, h] && [d, e, f, g, h][1..] == [e, f, g, h];
  }

  // ----- reading a field value

  /** A character, then other octets. */
  function Tagged(tag: char, bs: seq<Byte>): seq<Byte> {
    [(tag as int) % 256] + bs
  }

  /** A text behind its length in one octet, or in four. */
  function Short(text: seq<Byte>): seq<Byte>
    requires |text| < 256
  {
    [|text|] + text
  }

  function Long(text: seq<Byte>): seq<Byte> {
    Four(|text|) + text
  }

  lemma Payload(tag: char, payload: seq<Byte>)
    ensures ParseValue(Tagged(tag, payload)) ==
      var r := ParsePayload(ShapeOf((tag as int) % 256), payload);
      if r.Ok? then Ok(r.value, 1 + r.used) else r
  {
    hide ParsePayload, ShapeOf;
    assert Tagged(tag, payload)[1..] == payload;
  }

  lemma IntegerRead(tag: char, octets: seq<Byte>, tail: seq<Byte>)
    ensures var shape, n := ShapeOf((tag as int) % 256), |octets|;
      && (shape.SignedShape? && SignedWidth(shape.sk) == n ==>
            ParseValue(Tagged(tag, octets + tail)) == Ok(FieldValue.Signed(shape.sk, ToSigned(octets)), 1 + n))
      && (shape.UnsignedShape? && UnsignedWidth(shape.uk) == n ==>
            ParseValue(Tagged(tag, octets + tail)) == Ok(Unsigned(shape.uk, ToUnsigned(octets)), 1 + n))
  {
    hide ParseValue, ToUnsigned, ToSigned, Tagged, ShapeOf, SignedWidth, UnsignedWidth;
    assert (octets + tail)[..|octets|] == octets;
    Payload(tag, octets + tail);
  }

  /** Integers of one and two octets. */
  lemma ShortIntegersRead(a: Byte, b: Byte, tail: seq<Byte>)
    ensures ParseValue(Tagged('b', [a] + tail)) == Ok(FieldValue.Signed(ShortShortInt, Signed(a, 256)), 2)
    ensures ParseValue(Tagged('B', [a] + tail)) == Ok(Unsigned(ShortShortUint, a), 2)
    ensures ParseValue(Tagged('s', [a, b] + tail)) == Ok(FieldValue.Signed(ShortInt, Signed(Word16(a, b), 65536)), 3)
    ensures ParseValue(Tagged('U', [a, b] + tail)) == Ok(FieldValue.Signed(ShortInt, Signed(Word16(a, b), 65536)), 3)
    ensures ParseValue(Tagged('u', [a, b] + tail)) == Ok(Unsigned(ShortUint, Word16(a, b)), 3)
  {
    hide ParseValue, ToUnsigned, ToSigned, Tagged, Word16;
    ReadShort(a, b);
    IntegerRead('b', [a], tail);
    IntegerRead('B', [a], tail);
    IntegerRead('s', [a, b], tail);
    IntegerRead('U', [a, b], tail);
    IntegerRead('u', [a, b], tail);
  }

  /** Integers of four octets. */
  lemma LongIntegersRead(a: Byte, b: Byte, c: Byte, d: Byte, tail: seq<Byte>)
    ensures ParseValue(Tagged('I', [a, b, c, d] + tail)) == Ok(FieldValue.Signed(LongInt, Signed(Word32(a, b, c, d), 4294967296)), 5)
    ensures ParseValue(Tagged('i', [a, b, c, d] + tail)) == Ok(Unsigned(LongUint, Word32(a, b, c, d)), 5)
  {
    hide ParseValue, ToUnsigned, ToSigned, Tagged, Word32;
    ReadLong(a, b, c, d);
    IntegerRead('I', [a, b, c, d], tail);
    IntegerRead('i', [a, b, c, d], tail);
  }

  /** Integers of eight octets and times. */
  lemma LongLongIntegersRead(a: Byte, b: Byte, c: Byte, d: Byte, e: Byte, f: Byte, g: Byte, h: Byte, tail: seq<Byte>)
    ensures var n, bs := Word64(a, b, c, d, e, f, g, h), [a, b, c, d, e, f, g, h] + tail;
      && ParseValue(Tagged('l', bs)) == Ok(FieldValue.Signed(LongLongInt, Signed(n, 18446744073709551616)), 9)
      && ParseValue(Tagged('L', bs)) == Ok(FieldValue.Signed(CompatLongLongInt, Signed(n, 18446744073709551616)), 9)
      && ParseValue(Tagged('T', bs)) == Ok(Unsigned(Timestamp, n), 9)
  {
    hide ParseValue, ToUnsigned, ToSigned, Tagged, Word64;
    ReadLongLong(a, b, c, d, e, f, g, h);
    IntegerRead('l', [a, b, c, d, e, f, g, h], tail);
    IntegerRead('L', [a, b, c, d, e, f, g, h], tail);
    IntegerRead('T', [a, b, c, d, e, f, g, h], tail);
  }

  lemma OctetsRead(tag: char, octets: seq<Byte>, tail: seq<Byte>)
    ensures var shape := ShapeOf((tag as int) % 256);
      shape.OctetsShape? && OctetsWidth(shape.ok) == |octets| ==>
        ParseValue(Tagged(tag, octets + tail)) == Ok(Octets(shape.ok, octets), 1 + |octets|)
  {
    hide ParseValue, Tagged, ShapeOf, OctetsWidth;
    assert (octets + tail)[..|octets|] == octets;
    Payload(tag, octets + tail);
  }

  /** Flags, the absent value, and the numbers whose octets are kept as they are. */
  lemma PlainValuesRead(flag: Byte, octets: seq<Byte>, tail: seq<Byte>)
    ensures ParseValue(Tagged('t', [flag] + tail)) == Ok(Boolean(flag != 0), 2)
    ensures ParseValue(Tagged('V', tail)) == Ok(Void, 1)
    ensures |octets| == 4 ==> ParseValue(Tagged('f', octets + tail)) == Ok(Octets(Float, octets), 5)
    ensures |octets| == 8 ==> ParseValue(Tagged('d', octets + tail)) == Ok(Octets(Double, octets), 9)
    ensures |octets| == 5 ==> ParseValue(Tagged('D', octets + tail)) == Ok(Octets(Decimal, octets), 6)
  {
    hide ParseValue, Tagged;
    Payload('t', [flag] + tail);
    Payload('V', tail);
    OctetsRead('f', octets, tail);
    OctetsRead('d', octets, tail);
    OctetsRead('D', octets, tail);
  }

  lemma FourReadsBack(n: nat)
    requires n < 4294967296
    ensures var bs := Four(n); Word32(bs[0], bs[1], bs[2], bs[3]) == n
  {
    var a, b, c := n / 256, n / 65536, n / 16777216;
    assert b == a / 256 && c == b / 256 && c < 256;
  }

  /** A string is its length in four octets or in one, then its text. */
  lemma StringsRead(text: seq<Byte>, tail: seq<Byte>)
    ensures |text| < 4294967296 ==> ParseLongString(Long(text) + tail) == Ok(text, 4 + |text|)
    ensures |text| < 256 ==> ParseShortString(Short(text) + tail) == Ok(text, 1 + |text|)
  {
    hide ToUnsigned;
    var n := |text|;
    if n < 4294967296 {
      var bs := Four(n);
      ReadLong(bs[0], bs[1], bs[2], bs[3]);
      FourReadsBack(n);
      assert (Long(text) + tail)[..4] == bs == [bs[0], bs[1], bs[2], bs[3]] && (Long(text) + tail)[4..4 + n] == text;
    }
    if n < 256 {
      ReadShort(n, 0);
      assert (Short(text) + tail)[..1] == [n] && (Short(text) + tail)[1..1 + n] == text;
    }
  }

  /** Texts and byte arrays. */
  lemma TextsRead(text: seq<Byte>, tail: seq<Byte>)
    requires |text| < 4294967296
    ensures ParseValue(Tagged('S', Long(text) + tail)) == Ok(LongString(text), 5 + |text|)
    ensures ParseValue(Tagged('x', Long(text) + tail)) == Ok(ByteArray(text), 5 + |text|)
  {
    hide ParseValue, ParseLongString, Long, Tagged;
    StringsRead(text, tail);
    Payload('S', Long(text) + tail);
    Payload('x', Long(text) + tail);
  }

  /** Arrays and tables are their length and then values, or fields, up to it. */
  lemma NestedValuesRead(body: seq<Byte>, tail: seq<Byte>)
    requires |body| < 4294967296
    ensures ParseValues(body).Ok? ==> ParseValue(Tagged('A', Long(body) + tail)) == Ok(FieldArray(ParseValues(body).value), 5 + |body|)
    ensures ParseFields(body).Ok? ==>
      && ParseValue(Tagged('F', Long(body) + tail)) == Ok(FieldTable(ParseFields(body).value), 5 + |body|)
      && ParseTable(Long(body) + tail) == Ok(ParseFields(body).value, 4 + |body|)
  {
    hide ParseValue, ParseValues, ParseFields, ParseLongString, Long, Tagged;
    StringsRead(body, tail);
    Payload('A', Long(body) + tail);
    Payload('F', Long(body) + tail);
  }

  /** Values one after another: in arrays they are, and nothing is a row of none. */
  lemma ValuesRead(bs: seq<Byte>, rest: seq<Byte>)
    requires ParseValue(bs + rest).Ok? && ParseValue(bs + rest).used == |bs| && ParseValues(rest).Ok?
    ensures ParseValues(bs + rest) == Ok([ParseValue(bs + rest).value] + ParseValues(rest).value, |bs| + |rest|)
    ensures ParseValues([]) == Ok([], 0)
  {
    hide ParseValue;
    assert (bs + rest)[|bs|..] == rest;
  }

  lemma FieldsStep(bs: seq<Byte>)
    requires bs != [] && ParseField(bs).Ok? && ParseFields(bs[ParseField(bs).used..]).Ok?
    ensures ParseFields(bs) == Ok([ParseField(bs).value] + ParseFields(bs[ParseField(bs).used..]).value, |bs|)
    ensures ParseFields([]) == Ok([], 0)
  {
    hide ParseField;
  }

  /** One field: a short name, then a value. */
  lemma FieldRead(name: seq<Byte>, bs: seq<Byte>)
    requires |name| < 256 && ParseValue(bs).Ok?
    ensures ParseField(Short(name) + bs) == Ok(Field(name, ParseValue(bs).value), 1 + |name| + ParseValue(bs).used)
  {
    hide ParseValue, ParseShortString;
    StringsRead(name, bs);
    assert (Short(name) + bs)[1 + |name|..] == bs;
  }

  /** Fields one after another. */
  lemma FieldsRead(name: seq<Byte>, bs: seq<Byte>, rest: seq<Byte>)
    requires |name| < 256 && ParseValue(bs + rest).Ok? && ParseValue(bs + rest).used == |bs| && ParseFields(rest).Ok?
    ensures ParseFields(Short(name) + (bs + rest)) ==
      Ok([Field(name, ParseValue(bs + rest).value)] + ParseFields(rest).value, 1 + |name| + |bs| + |rest|)
    ensures ParseFields([]) == Ok([], 0)
  {
    hide ParseValue, ParseField, ParseFields;
    var all := Short(name) + (bs + rest);
    FieldRead(name, bs + rest);
    assert all[1 + |name| + |bs|..] == rest;
    FieldsStep(all);
  }

  predicate Known(tag: Byte) {
    || tag == 't' as int || tag == 'b' as int || tag == 'B' as int || tag == 'U' as int || tag == 's' as int
    || tag == 'u' as int || tag == 'I' as int || tag == 'i' as int || tag == 'l' as int || tag == 'L' as int
    || tag == 'f' as int || tag == 'd' as int || tag == 'D' as int || tag == 'S' as int || tag == 'A' as int
    || tag == 'T' as int || tag == 'F' as int || tag == 'V' as int || tag == 'x' as int
  }

  /** No other tag is read. */
  lemma OtherTagsRejected(tag: Byte, payload: seq<Byte>)
    requires !Known(tag)
    ensures ParseValue([tag] + payload) == Rejected
  {
    assert ShapeOf(tag) == NoShape;
    assert ([tag] + payload)[1..] == payload;
  }

  // ----- writing a field value

  lemma IntegersWritten(n: int)
    ensures EncodeValue(FieldValue.Signed(ShortShortInt, n)) == Tagged('b', [n % 256])
    ensures EncodeValue(Unsigned(ShortShortUint, n)) == Tagged('B', [n % 256])
    ensures EncodeValue(FieldValue.Signed(ShortInt, n)) == Tagged('s', Two(n))
    ensures EncodeValue(Unsigned(ShortUint, n)) == Tagged('u', Two(n))
    ensures EncodeValue(FieldValue.Signed(LongInt, n)) == Tagged('I', Four(n))
    ensures EncodeValue(Unsigned(LongUint, n)) == Tagged('i', Four(n))
    ensures EncodeValue(FieldValue.Signed(LongLongInt, n)) == Tagged('l', Eight(n))
    ensures EncodeValue(FieldValue.Signed(CompatLongLongInt, n)) == Tagged('L', Eight(n))
    ensures EncodeValue(Unsigned(Timestamp, n)) == Tagged('T', Eight(n))
  {
    hide BigEndian, Two, Four, Eight;
    WrittenInteger(n);
  }

  lemma PlainValuesWritten(flag: bool, kind: OctetsKind, octets: seq<Byte>)
    ensures EncodeValue(Boolean(flag)) == Tagged('t', [if flag then 1 else 0])
    ensures EncodeValue(Void) == Tagged('V', [])
    ensures EncodeValue(Octets(kind, octets)) == Tagged(if kind == Float then 'f' else if kind == Double then 'd' else 'D', octets)
  {
  }

  lemma TextsWritten(text: seq<Byte>)
    ensures EncodeLongString(text) == Long(text)
    ensures |text| < 256 ==> EncodeShortString(text) == Short(text)
    ensures EncodeValue(LongString(text)) == Tagged('S', Long(text))
    ensures EncodeValue(ByteArray(text)) == Tagged('x', Long(text))
  {
    hide BigEndian, Four;
    WrittenInteger(|text|);
  }

  lemma NestedPayloads(elems: seq<FieldValue>, fields: seq<Field>)
    ensures EncodePayload(FieldArray(elems)) == EncodeArray(elems) && EncodeArray(elems) == EncodeLongString(EncodeValues(elems))
    ensures EncodePayload(FieldTable(fields)) == EncodeTable(fields) && EncodeTable(fields) == EncodeLongString(EncodeFields(fields))
  {
    hide EncodeLongString, EncodeValues, EncodeFields;
  }

  /** Arrays and tables: the length of what follows, then one value, or field, after another. */
  lemma NestedValuesWritten(elems: seq<FieldValue>, fields: seq<Field>)
    ensures EncodeValue(FieldArray(elems)) == Tagged('A', Long(EncodeValues(elems)))
    ensures EncodeValue(FieldTable(fields)) == Tagged('F', Long(EncodeFields(fields)))
    ensures EncodeTable(fields) == Long(EncodeFields(fields))
  {
    hide Long, EncodeLongString, EncodeArray, EncodeTable, EncodeValues, EncodeFields, EncodePayload;
    NestedPayloads(elems, fields);
    TextsWritten(EncodeValues(elems));
    TextsWritten(EncodeFields(fields));
  }

  lemma ValuesWritten(v: FieldValue, elems: seq<FieldValue>)
    ensures EncodeValues([v] + elems) == EncodeValue(v) + EncodeValues(elems)
    ensures EncodeValues([]) == []
  {
    hide EncodeValue;
    assert ([v] + elems)[1..] == elems;
  }

  lemma FieldsWritten(f: Field, fields: seq<Field>)
    requires |f.name| < 256
    ensures EncodeFields([f] + fields) == Short(f.name) + EncodeValue(f.value) + EncodeFields(fields)
    ensures EncodeFields([]) == []
  {
    hide EncodeValue, EncodeShortString;
    TextsWritten(f.name);
    assert ([f] + fields)[1..] == fields;
    assert EncodeFields([f] + fields) == EncodeField(f) + EncodeFields(fields);
  }

  // ----- frames

  /**
   * A frame is its type, two octets of channel, four of length, the payload and 0xCE. It is not
   * decoded while octets are missing, throws if it then announces more than 150000 in all, and
   * throws if it does not end as it should.
   */
  lemma FrameRead(bs: seq<Byte>)
    ensures |bs| < 8 ==> DecodeFrame(bs) == Incomplete
    ensures |bs| >= 8 ==>
      var n := Word32(bs[3], bs[4], bs[5], bs[6]);
      DecodeFrame(bs) ==
        if |bs| < 8 + n then (if 8 + n > 150000 then Oversize else Incomplete)
        else if bs[7 + n] != 0xCE then BadEnd
        else Complete(Frame(bs[0], Word16(bs[1], bs[2]), bs[7..7 + n]), 8 + n)
  {
    hide ToUnsigned;
    if |bs| >= 8 {
      ReadLong(bs[3], bs[4], bs[5], bs[6]);
      ReadShort(bs[1], bs[2]);
      assert bs[3..7] == [bs[3], bs[4], bs[5], bs[6]] && bs[1..3] == [bs[1], bs[2]];
    }
  }

  lemma FrameWritten(f: Frame)
    ensures EncodeFrame(f) == [f.kind] + Two(f.channel) + Four(|f.payload|) + f.payload + [0xCE]
  {
    hide BigEndian;
    WrittenInteger(f.channel);
    WrittenInteger(|f.payload|);
  }

  /** A whole CloseOk, as it comes from the wire. */
  lemma CloseOkRead()
    ensures DecodeFrame([1, 0, 0, 0, 0, 0, 4, 0, 10, 0, 51, 206]) == Complete(Frame(1, 0, [0, 10, 0, 51]), 12)
  {
    hide DecodeFrame;
    var bs: seq<Byte> := [1, 0, 0, 0, 0, 0, 4, 0, 10, 0, 51, 206];
    FrameRead(bs);
    assert bs[7..11] == [0, 10, 0, 51];
  }

  // ----- methods

  lemma RowStep(ps: seq<Part>, p: Part)
    ensures EncodeParts(ps + [p]) == EncodeParts(ps) + EncodePart(p)
  {
    hide EncodePart;
    EncodePartsConcat(ps, [p]);
    assert [p][1..] == [];
    assert EncodeParts([p]) == EncodePart(p) + EncodeParts([]);
  }

  function At(ps: seq<Part>, i: nat): seq<Byte> {
    if i < |ps| then EncodePart(ps[i]) else []
  }

  lemma ShortRow(ps: seq<Part>)
    requires |ps| <= 5
    ensures EncodeParts(ps) == At(ps, 0) + At(ps, 1) + At(ps, 2) + At(ps, 3) + At(ps, 4)
  {
    hide EncodePart, EncodeParts;
    if ps == [] {
      assert EncodeParts([]) == [] by { NoParts(); }
    } else {
      var front, last := ps[..|ps| - 1], ps[|ps| - 1];
      ShortRow(front);
      RowStep(front, last);
      assert front + [last] == ps;
    }
  }

  lemma NoParts()
    ensures EncodeParts([]) == []
  {
  }

  /** The class and method numbers come first. */
  lemma MethodWritten(m: Method)
    ensures EncodeMethod(m) == [0, 10, 0, match m
      case StartMethod(_) => 10 case StartOkMethod(_) => 11 case TuneMethod(_) => 30 case TuneOkMethod(_) => 31
      case OpenMethod(_) => 40 case OpenOkMethod => 41 case CloseMethod(_) => 50 case CloseOkMethod => 51] + EncodeBody(m)
  {
    hide BigEndian, EncodeParts;
    var head := [Word(2, CONNECTION_CLASS), Word(2, MethodId(m))];
    WrittenInteger(CONNECTION_CLASS);
    WrittenInteger(MethodId(m));
    EncodePartsConcat(head, BodyOf(m));
    ShortRow(head);
  }

  lemma StartWritten(s: Start)
    ensures EncodeBody(StartMethod(s)) ==
      [s.major % 256, s.minor % 256] + EncodeTable(s.properties) +
      Long(s.mechanisms) + Long(s.locales)
  {
    hide BigEndian, EncodeParts, EncodeTable, EncodeLongString, Long;
    WrittenInteger(s.major);
    WrittenInteger(s.minor);
    TextsWritten(s.mechanisms);
    TextsWritten(s.locales);
    ShortRow(BodyOf(StartMethod(s)));
  }

  /** Properties, short mechanism, long response, short locale. */
  lemma StartOkWritten(s: StartOk)
    requires |s.mechanism| < 256 && |s.locale| < 256
    ensures EncodeBody(StartOkMethod(s)) ==
      EncodeTable(s.properties) + Short(s.mechanism) + Long(s.response) + Short(s.locale)
  {
    hide BigEndian, EncodeParts, EncodeTable, EncodeShortString, EncodeLongString, Long, Short;
    TextsWritten(s.mechanism);
    TextsWritten(s.response);
    TextsWritten(s.locale);
    ShortRow(BodyOf(StartOkMethod(s)));
  }

  /** Tune and TuneOk: the most channels, the largest frame, the heartbeat. */
  lemma TuneWritten(t: Tune)
    ensures EncodeBody(TuneMethod(t)) == Two(t.channelMax) + Four(t.frameMax) + Two(t.heartbeat)
    ensures EncodeBody(TuneOkMethod(t)) == Two(t.channelMax) + Four(t.frameMax) + Two(t.heartbeat)
  {
    hide BigEndian, EncodeParts, Two, Four;
    WrittenInteger(t.channelMax);
    WrittenInteger(t.frameMax);
    WrittenInteger(t.heartbeat);
    ShortRow(BodyOf(TuneMethod(t)));
    ShortRow(BodyOf(TuneOkMethod(t)));
  }

  /** Open: the vhost, a reserved short string, a reserved octet. OpenOk: a reserved short string. */
  lemma OpenWritten(vhost: seq<Byte>)
    requires |vhost| < 256
    ensures EncodeBody(OpenMethod(vhost)) == Short(vhost) + [0, 0]
    ensures EncodeBody(OpenOkMethod) == [0]
  {
    hide BigEndian, EncodeParts;
    TextsWritten(vhost);
    TextsWritten([]);
    WrittenInteger(0);
    ShortRow(BodyOf(OpenMethod(vhost)));
    ShortRow(BodyOf(OpenOkMethod));
  }

  /** Close: the reply code and text, the class and method that failed. CloseOk: nothing. */
  lemma CloseWritten(c: Close)
    requires |c.text| < 256
    ensures EncodeBody(CloseMethod(c)) == Two(c.code) + Short(c.text) + Two(c.classId) + Two(c.methodId)
    ensures EncodeBody(CloseOkMethod) == []
  {
    hide BigEndian, EncodeParts, EncodeShortString, Two, Short;
    WrittenInteger(c.code);
    TextsWritten(c.text);
    WrittenInteger(c.classId);
    WrittenInteger(c.methodId);
    ShortRow(BodyOf(CloseMethod(c)));
    ShortRow(BodyOf(CloseOkMethod));
  }
}
