/**
 * The parser accepts exactly the renderings of well-formed tables. A rendering is the
 * encoding, except that a short-int may carry the tag 'U' and true may be any non-zero octet.
 */
module FieldRoundTrip {
  import opened Bytes
  import opened FieldValues
  import opened Buffers
  import opened FieldWriter

  // ----- renderings

  predicate RendersTag(tag: Byte, v: FieldValue) {
    tag == Tag(v) || (tag == TAG_U && v.Signed? && v.skind == ShortInt)
  }

  predicate Renders(bs: seq<Byte>, v: FieldValue)
    decreases v, 1
  {
    |bs| >= 1 && RendersTag(bs[0], v) && RendersPayload(bs[1..], v)
  }

  predicate RendersPayload(bs: seq<Byte>, v: FieldValue)
    decreases v, 0
  {
    match v
    case Boolean(flag) => |bs| == 1 && (bs[0] != 0) == flag
    case FieldArray(elems) => RendersArray(bs, elems)
    case FieldTable(fields) => RendersTable(bs, fields)
    case Unsupported(_) => false
    case _ => bs == EncodePayload(v)
  }

  predicate RendersArray(bs: seq<Byte>, elems: seq<FieldValue>)
    decreases elems, 1
  {
    |bs| >= 4 && bs[..4] == BigEndian(|bs| - 4, 4) && RendersValues(bs[4..], elems)
  }

  predicate RendersValues(bs: seq<Byte>, elems: seq<FieldValue>)
    decreases elems, 0
  {
    if elems == [] then bs == []
    else
      var n := |EncodeValue(elems[0])|;
      n <= |bs| && Renders(bs[..n], elems[0]) && RendersValues(bs[n..], elems[1..])
  }

  predicate RendersTable(bs: seq<Byte>, fields: seq<Field>)
    decreases fields, 1
  {
    |bs| >= 4 && bs[..4] == BigEndian(|bs| - 4, 4) && RendersFields(bs[4..], fields)
  }

  predicate RendersField(bs: seq<Byte>, f: Field)
    decreases f, 0
  {
    var name := EncodeShortString(f.name);
    |name| <= |bs| && bs[..|name|] == name && Renders(bs[|name|..], f.value)
  }

  predicate RendersFields(bs: seq<Byte>, fields: seq<Field>)
    decreases fields, 0
  {
    if fields == [] then bs == []
    else
      var n := |EncodeField(fields[0])|;
      n <= |bs| && RendersField(bs[..n], fields[0]) && RendersFields(bs[n..], fields[1..])
  }

  // ----- a rendering is parsed

  lemma {:induction false} ParseEncodedString(text: seq<Byte>, prefix: nat, tail: seq<Byte>)
    requires |text| < Pow256(prefix)
    ensures ParseString(BigEndian(|text|, prefix) + text + tail, prefix) == Ok(text, prefix + |text|)
  {
    var bs := BigEndian(|text|, prefix) + text + tail;
    UnsignedOfBigEndian(|text|, prefix);
    assert bs[..prefix] == BigEndian(|text|, prefix);
    assert bs[prefix..prefix + |text|] == text;
  }

  lemma ParseRenderedInteger(bs: seq<Byte>, v: FieldValue, tail: seq<Byte>)
    requires WellFormed(v) && (v.Signed? || v.Unsigned?) && RendersPayload(bs, v)
    ensures ParsePayload(ShapeOf(Tag(v)), bs + tail) == Ok(v, |bs|)
  {
    hide BigEndian, ToUnsigned, ToSigned, Pow256;
    assert (bs + tail)[..|bs|] == bs;
    match v
    case Signed(k, n) => SignedOfBigEndian(n, SignedWidth(k));
    case Unsigned(k, u) => UnsignedOfBigEndian(u, UnsignedWidth(k));
  }

  lemma ParseRenderedText(bs: seq<Byte>, v: FieldValue, tail: seq<Byte>)
    requires WellFormed(v) && (v.LongString? || v.ByteArray?) && RendersPayload(bs, v)
    ensures ParsePayload(ShapeOf(Tag(v)), bs + tail) == Ok(v, |bs|)
  {
    hide BigEndian, Pow256, ParseString;
    match v
    case LongString(text) => ParseEncodedString(text, 4, tail);
    case ByteArray(blob) => ParseEncodedString(blob, 4, tail);
  }

  lemma ParseRenderedOctets(bs: seq<Byte>, v: FieldValue, tail: seq<Byte>)
    requires WellFormed(v) && (v.Boolean? || v.Octets? || v.Void?) && RendersPayload(bs, v)
    ensures ParsePayload(ShapeOf(Tag(v)), bs + tail) == Ok(v, |bs|)
  {
    assert (bs + tail)[..|bs|] == bs;
  }

  lemma ParseRenderedScalar(bs: seq<Byte>, v: FieldValue, tail: seq<Byte>)
    requires WellFormed(v) && !v.FieldArray? && !v.FieldTable? && RendersPayload(bs, v)
    ensures ParsePayload(ShapeOf(Tag(v)), bs + tail) == Ok(v, |bs|)
  {
    hide ParsePayload, ShapeOf, Tag, BigEndian, Pow256;
    if v.Signed? || v.Unsigned? {
      ParseRenderedInteger(bs, v, tail);
    } else if v.LongString? || v.ByteArray? {
      ParseRenderedText(bs, v, tail);
    } else {
      ParseRenderedOctets(bs, v, tail);
    }
  }

  lemma {:induction false} ParseRenderedValue(bs: seq<Byte>, v: FieldValue, tail: seq<Byte>)
    requires WellFormed(v) && Renders(bs, v)
    ensures ParseValue(bs + tail) == Ok(v, |bs|)
    decreases v, 0
  {
    hide ParseString, ParseArray, ParseTable, RendersArray, RendersTable, WellFormedArray, WellFormedTable;
    var shape, body := ShapeOf(bs[0]), bs[1..];
    assert (bs + tail)[1..] == body + tail;
    assert shape == ShapeOf(Tag(v));
    match v
    case FieldArray(elems) => ParseRenderedArray(body, elems, tail);
    case FieldTable(fields) => ParseRenderedTable(body, fields, tail);
    case _ => ParseRenderedScalar(body, v, tail);
  }

  /** A length prefix that says how much follows it is read back as just that. */
  lemma ParsePrefixed(bs: seq<Byte>, tail: seq<Byte>)
    requires 4 <= |bs| < 4 + Pow256(4) && bs[..4] == BigEndian(|bs| - 4, 4)
    ensures ParseLongString(bs + tail) == Ok(bs[4..], |bs|)
  {
    ParseEncodedString(bs[4..], 4, tail);
    assert bs == bs[..4] + bs[4..];
  }

  lemma {:induction false} ParseRenderedArray(bs: seq<Byte>, elems: seq<FieldValue>, tail: seq<Byte>)
    requires WellFormedArray(elems) && RendersArray(bs, elems)
    ensures ParseArray(bs + tail) == Ok(elems, |bs|)
    decreases elems, 1
  {
    hide ParseString, ParseValues, RendersValues, WellFormedValues;
    ParseRenderedValues(bs[4..], elems);
    ParsePrefixed(bs, tail);
  }

  lemma {:induction false} ParseRenderedValues(bs: seq<Byte>, elems: seq<FieldValue>)
    requires WellFormedValues(elems) && RendersValues(bs, elems)
    ensures ParseValues(bs) == Ok(elems, |bs|) && |bs| == |EncodeValues(elems)|
    decreases elems, 0
  {
    hide EncodeValue, ParseValue, Renders, WellFormed;
    if elems != [] {
      var n := |EncodeValue(elems[0])|;
      ParseRenderedValue(bs[..n], elems[0], bs[n..]);
      ParseRenderedValues(bs[n..], elems[1..]);
      assert bs == bs[..n] + bs[n..];
      assert [elems[0]] + elems[1..] == elems;
    }
  }

  lemma {:induction false} ParseRenderedTable(bs: seq<Byte>, fields: seq<Field>, tail: seq<Byte>)
    requires WellFormedTable(fields) && RendersTable(bs, fields)
    ensures ParseTable(bs + tail) == Ok(fields, |bs|)
    decreases fields, 1
  {
    hide ParseString, ParseFields, RendersFields, WellFormedFields;
    ParseRenderedFields(bs[4..], fields);
    ParsePrefixed(bs, tail);
  }

  lemma {:induction false} ParseRenderedField(bs: seq<Byte>, f: Field, tail: seq<Byte>)
    requires |f.name| <= SHORT_STRING_LIMIT && WellFormed(f.value) && RendersField(bs, f)
    ensures ParseField(bs + tail) == Ok(f, |bs|)
    decreases f, 0
  {
    hide BigEndian, ToUnsigned, Renders, WellFormed, ParseValue, ParseString;
    var n := |EncodeShortString(f.name)|;
    ParseEncodedString(f.name, 1, bs[n..] + tail);
    assert bs + tail == bs[..n] + (bs[n..] + tail);
    assert (bs + tail)[n..] == bs[n..] + tail;
    ParseRenderedValue(bs[n..], f.value, tail);
  }

  lemma {:induction false} ParseRenderedFields(bs: seq<Byte>, fields: seq<Field>)
    requires WellFormedFields(fields) && RendersFields(bs, fields)
    ensures ParseFields(bs) == Ok(fields, |bs|) && |bs| == |EncodeFields(fields)|
    decreases fields, 0
  {
    hide EncodeField, ParseField, RendersField, WellFormed;
    if fields != [] {
      var n := |EncodeField(fields[0])|;
      ParseRenderedField(bs[..n], fields[0], bs[n..]);
      ParseRenderedFields(bs[n..], fields[1..]);
      assert bs == bs[..n] + bs[n..];
      assert [fields[0]] + fields[1..] == fields;
    }
  }

  // ----- the encoding is a rendering

  lemma {:induction false} EncodingRenders(v: FieldValue)
    requires WellFormed(v)
    ensures Renders(EncodeValue(v), v)
    decreases v, 0
  {
    hide BigEndian, EncodeArray, EncodeTable, RendersArray, RendersTable, WellFormedArray, WellFormedTable;
    assert EncodeValue(v)[1..] == EncodePayload(v);
    match v
    case FieldArray(elems) => EncodingRendersArray(elems);
    case FieldTable(fields) => EncodingRendersTable(fields);
    case _ =>
  }

  lemma {:induction false} EncodingRendersArray(elems: seq<FieldValue>)
    requires WellFormedArray(elems)
    ensures RendersArray(EncodeArray(elems), elems)
    decreases elems, 1
  {
    hide BigEndian, EncodeValues, RendersValues, WellFormedValues;
    EncodingRendersValues(elems);
    assert EncodeArray(elems)[4..] == EncodeValues(elems);
  }

  lemma {:induction false} EncodingRendersValues(elems: seq<FieldValue>)
    requires WellFormedValues(elems)
    ensures RendersValues(EncodeValues(elems), elems)
    decreases elems, 0
  {
    hide EncodeValue, Renders, WellFormed;
    if elems != [] {
      EncodingRenders(elems[0]);
      EncodingRendersValues(elems[1..]);
      var n := |EncodeValue(elems[0])|;
      assert EncodeValues(elems)[..n] == EncodeValue(elems[0]);
      assert EncodeValues(elems)[n..] == EncodeValues(elems[1..]);
    }
  }

  lemma {:induction false} EncodingRendersTable(fields: seq<Field>)
    requires WellFormedTable(fields)
    ensures RendersTable(EncodeTable(fields), fields)
    decreases fields, 1
  {
    hide BigEndian, EncodeFields, RendersFields, WellFormedFields;
    EncodingRendersFields(fields);
    assert EncodeTable(fields)[4..] == EncodeFields(fields);
  }

  lemma {:induction false} EncodingRendersFields(fields: seq<Field>)
    requires WellFormedFields(fields)
    ensures RendersFields(EncodeFields(fields), fields)
    decreases fields, 0
  {
    hide BigEndian, EncodeValue, Renders, WellFormed;
    if fields != [] {
      var f := fields[0];
      EncodingRenders(f.value);
      EncodingRendersFields(fields[1..]);
      var n, m := |EncodeField(f)|, |EncodeShortString(f.name)|;
      assert EncodeFields(fields)[..n] == EncodeField(f);
      assert EncodeFields(fields)[n..] == EncodeFields(fields[1..]);
      assert EncodeField(f)[..m] == EncodeShortString(f.name) && EncodeField(f)[m..] == EncodeValue(f.value);
    }
  }

  // ----- what is parsed is a rendering

  lemma {:induction false} ParsedString(bs: seq<Byte>, prefix: nat)
    requires ParseString(bs, prefix).Ok?
    ensures var r := ParseString(bs, prefix);
      && |r.value| < Pow256(prefix)
      && bs[..r.used] == BigEndian(|r.value|, prefix) + r.value
  {
    BigEndianOfUnsigned(bs[..prefix]);
  }

  /** The shapes without nesting. */
  lemma {:induction false} ParsedScalarRenders(shape: Shape, bs: seq<Byte>)
    requires ParsePayload(shape, bs).Ok? && !shape.FieldArrayShape? && !shape.FieldTableShape?
    ensures var r := ParsePayload(shape, bs);
      && WellFormed(r.value) && r.used == |EncodePayload(r.value)|
      && RendersPayload(bs[..r.used], r.value)
  {
    hide BigEndian, ToUnsigned, ToSigned, Pow256, ParseString;
    match shape
    case SignedShape(k) => BigEndianOfSigned(bs[..SignedWidth(k)]);
    case UnsignedShape(k) => BigEndianOfUnsigned(bs[..UnsignedWidth(k)]);
    case LongStringShape => ParsedString(bs, 4);
    case ByteArrayShape => ParsedString(bs, 4);
    case _ =>
  }

  lemma {:induction false} ParsedPayloadRenders(shape: Shape, bs: seq<Byte>)
    requires ParsePayload(shape, bs).Ok?
    ensures var r := ParsePayload(shape, bs);
      && WellFormed(r.value) && r.used == |EncodePayload(r.value)|
      && RendersPayload(bs[..r.used], r.value)
    decreases |bs|, 4
  {
    hide ParseString, ParseArray, ParseTable, EncodeArray, EncodeTable,
      WellFormedArray, WellFormedTable, RendersArray, RendersTable;
    match shape
    case FieldArrayShape => ParsedArrayRenders(bs);
    case FieldTableShape => ParsedTableRenders(bs);
    case _ => ParsedScalarRenders(shape, bs);
  }

  lemma ParsedTagRenders(tag: Byte, body: seq<Byte>)
    requires ParsePayload(ShapeOf(tag), body).Ok?
    ensures RendersTag(tag, ParsePayload(ShapeOf(tag), body).value)
  {
    hide BigEndian, ToUnsigned, ToSigned, ParseString, ParseArray, ParseTable;
  }

  lemma {:induction false} ParsedValueRenders(bs: seq<Byte>)
    requires ParseValue(bs).Ok?
    ensures var r := ParseValue(bs);
      && WellFormed(r.value) && r.used == |EncodeValue(r.value)|
      && Renders(bs[..r.used], r.value)
    decreases |bs|, 0
  {
    hide ParsePayload, EncodePayload, WellFormed, RendersPayload, ShapeOf, Tag, RendersTag;
    var r := ParsePayload(ShapeOf(bs[0]), bs[1..]);
    ParsedPayloadRenders(ShapeOf(bs[0]), bs[1..]);
    ParsedTagRenders(bs[0], bs[1..]);
    assert bs[..1 + r.used][1..] == bs[1..][..r.used];
  }

  lemma {:induction false} ParsedArrayRenders(bs: seq<Byte>)
    requires ParseArray(bs).Ok?
    ensures var r := ParseArray(bs);
      && WellFormedArray(r.value) && r.used == |EncodeArray(r.value)|
      && RendersArray(bs[..r.used], r.value)
    decreases |bs|, 2
  {
    hide BigEndian, ParseString, ParseValues, EncodeValues, WellFormedValues, RendersValues;
    var s := ParseLongString(bs);
    ParsedString(bs, 4);
    ParsedValuesRender(s.value);
    assert bs[..s.used][4..] == s.value;
  }

  lemma ParseValuesStep(bs: seq<Byte>)
    requires bs != [] && ParseValues(bs).Ok?
    ensures var r := ParseValue(bs);
      && r.Ok?
      && var rest := ParseValues(bs[r.used..]);
         rest.Ok? && ParseValues(bs).value == [r.value] + rest.value
  {
    hide ParseValue;
  }

  lemma ValuesCons(bs: seq<Byte>, v: FieldValue, rest: seq<FieldValue>)
    ensures EncodeValues([v] + rest) == EncodeValue(v) + EncodeValues(rest)
    ensures WellFormedValues([v] + rest) <==> WellFormed(v) && WellFormedValues(rest)
    ensures RendersValues(bs, [v] + rest) <==>
      var n := |EncodeValue(v)|; n <= |bs| && Renders(bs[..n], v) && RendersValues(bs[n..], rest)
  {
    hide EncodeValue, WellFormed, Renders;
    assert ([v] + rest)[1..] == rest;
  }

  lemma NoValues()
    ensures ParseValues([]) == Ok([], 0) && EncodeValues([]) == [] && WellFormedValues([]) && RendersValues([], [])
  {
  }

  lemma {:induction false} ParsedValuesRender(bs: seq<Byte>)
    requires ParseValues(bs).Ok?
    ensures var elems := ParseValues(bs).value;
      WellFormedValues(elems) && |bs| == |EncodeValues(elems)| && RendersValues(bs, elems)
    decreases |bs|, 1
  {
    hide ParseValue, ParseValues, EncodeValue, EncodeValues, WellFormed, WellFormedValues, Renders, RendersValues;
    if bs == [] {
      NoValues();
    } else {
      ParseValuesStep(bs);
      var r := ParseValue(bs);
      ParsedValueRenders(bs);
      ParsedValuesRender(bs[r.used..]);
      ValuesCons(bs, r.value, ParseValues(bs[r.used..]).value);
    }
  }

  lemma {:induction false} ParsedTableRenders(bs: seq<Byte>)
    requires ParseTable(bs).Ok?
    ensures var r := ParseTable(bs);
      && WellFormedTable(r.value) && r.used == |EncodeTable(r.value)|
      && RendersTable(bs[..r.used], r.value)
    decreases |bs|, 3
  {
    hide BigEndian, ParseString, ParseFields, EncodeFields, WellFormedFields, RendersFields;
    var s := ParseLongString(bs);
    ParsedString(bs, 4);
    ParsedFieldsRender(s.value);
    assert bs[..s.used][4..] == s.value;
  }

  lemma {:induction false} ParsedFieldRenders(bs: seq<Byte>)
    requires ParseField(bs).Ok?
    ensures var r := ParseField(bs);
      && |r.value.name| <= SHORT_STRING_LIMIT && WellFormed(r.value.value)
      && r.used == |EncodeField(r.value)| && RendersField(bs[..r.used], r.value)
    decreases |bs|, 1
  {
    hide BigEndian, ToUnsigned, ParseValue, EncodeValue, WellFormed, Renders;
    var r := ParseField(bs);
    var n := ParseShortString(bs).used;
    ParsedString(bs, 1);
    ParsedValueRenders(bs[n..]);
    assert bs[..r.used][..n] == bs[..n];
    assert bs[..r.used][n..] == bs[n..][..r.used - n];
  }

  lemma ParseFieldsStep(bs: seq<Byte>)
    requires bs != [] && ParseFields(bs).Ok?
    ensures var r := ParseField(bs);
      && r.Ok?
      && var rest := ParseFields(bs[r.used..]);
         rest.Ok? && ParseFields(bs).value == [r.value] + rest.value
  {
    hide ParseField;
  }

  lemma FieldsCons(bs: seq<Byte>, f: Field, rest: seq<Field>)
    ensures EncodeFields([f] + rest) == EncodeField(f) + EncodeFields(rest)
    ensures WellFormedFields([f] + rest) <==>
      |f.name| <= SHORT_STRING_LIMIT && WellFormed(f.value) && WellFormedFields(rest)
    ensures RendersFields(bs, [f] + rest) <==>
      var n := |EncodeField(f)|; n <= |bs| && RendersField(bs[..n], f) && RendersFields(bs[n..], rest)
  {
    hide EncodeField, WellFormed, RendersField;
    assert ([f] + rest)[1..] == rest;
  }

  lemma NoFields()
    ensures ParseFields([]) == Ok([], 0) && EncodeFields([]) == [] && WellFormedFields([]) && RendersFields([], [])
  {
  }

  lemma {:induction false} ParsedFieldsRender(bs: seq<Byte>)
    requires ParseFields(bs).Ok?
    ensures var fields := ParseFields(bs).value;
      WellFormedFields(fields) && |bs| == |EncodeFields(fields)| && RendersFields(bs, fields)
    decreases |bs|, 2
  {
    hide ParseField, ParseFields, EncodeField, EncodeFields, WellFormed, WellFormedFields, RendersField, RendersFields;
    if bs == [] {
      NoFields();
    } else {
      ParseFieldsStep(bs);
      var r := ParseField(bs);
      ParsedFieldRenders(bs);
      ParsedFieldsRender(bs[r.used..]);
      FieldsCons(bs, r.value, ParseFields(bs[r.used..]).value);
    }
  }

  // ----- the main results

  /** Both directions: a table is parsed from the front of the input exactly when the input begins with a rendering of it. */
  lemma ParsesExactlyRenderings(bs: seq<Byte>, fields: seq<Field>, used: nat)
    ensures ParseTable(bs) == Ok(fields, used) <==>
      used <= |bs| && WellFormedTable(fields) && RendersTable(bs[..used], fields)
  {
    hide ParseTable, WellFormedTable, RendersTable;
    if ParseTable(bs) == Ok(fields, used) {
      ParsedTableRenders(bs);
    }
    if used <= |bs| && WellFormedTable(fields) && RendersTable(bs[..used], fields) {
      ParseRenderedTable(bs[..used], fields, bs[used..]);
      assert bs == bs[..used] + bs[used..];
    }
  }

  /** Any well-formed table, followed by anything, parses back and stops at its own end. */
  lemma ParseEncodedTable(fields: seq<Field>, tail: seq<Byte>)
    requires WellFormedTable(fields)
    ensures ParseTable(EncodeTable(fields) + tail) == Ok(fields, |EncodeTable(fields)|)
  {
    hide ParseTable, WellFormedTable, RendersTable, EncodeTable;
    EncodingRendersTable(fields);
    ParseRenderedTable(EncodeTable(fields), fields, tail);
  }

  lemma ParseEncodedValue(v: FieldValue, tail: seq<Byte>)
    requires WellFormed(v)
    ensures ParseValue(EncodeValue(v) + tail) == Ok(v, |EncodeValue(v)|)
  {
    hide ParseValue, WellFormed, Renders, EncodeValue;
    EncodingRenders(v);
    ParseRenderedValue(EncodeValue(v), v, tail);
  }

  /**
   * Whatever is accepted re-encodes to as many octets, these parse to the same table, and the
   * in-place encoder writes them exactly when it has room for as many as were accepted.
   */
  lemma {:induction false} ReencodeTable(bs: seq<Byte>, tail: seq<Byte>)
    requires ParseTable(bs).Ok?
    ensures var r := ParseTable(bs);
      && |EncodeTable(r.value)| == r.used
      && ParseTable(EncodeTable(r.value) + tail) == r
      && forall room: nat :: FateOfTable(r.value, room).Written? <==> r.used <= room
  {
    hide ParseTable, RendersTable, EncodeTable, FateOfTable;
    var r := ParseTable(bs);
    ParsedTableRenders(bs);
    ParseEncodedTable(r.value, tail);
    WellFormedFieldsEncodable(r.value);
    forall room: nat ensures FateOfTable(r.value, room).Written? <==> r.used <= room {
      FateOfTableExact(r.value, room);
    }
  }

  /** What the in-place encoder leaves in memory reads back as the table it was given. */
  lemma {:induction false} WrittenTableReadsBack(before: seq<Byte>, p: nat, hi: nat, fields: seq<Field>)
    requires WellFormedTable(fields) && p + |EncodeTable(fields)| <= hi <= |before|
    ensures ParseTable(Splice(before, p, EncodeTable(fields))[p..hi]) == Ok(fields, |EncodeTable(fields)|)
  {
    hide ParseTable, EncodeTable, WellFormedTable;
    var bs := EncodeTable(fields);
    ParseEncodedTable(fields, before[p + |bs|..hi]);
    assert Splice(before, p, bs)[p..hi] == bs + before[p + |bs|..hi];
  }

  lemma {:induction false} WrittenValueReadsBack(before: seq<Byte>, p: nat, hi: nat, v: FieldValue)
    requires WellFormed(v) && p + |EncodeValue(v)| <= hi <= |before|
    ensures ParseValue(Splice(before, p, EncodeValue(v))[p..hi]) == Ok(v, |EncodeValue(v)|)
  {
    hide ParseValue, EncodeValue, WellFormed;
    var bs := EncodeValue(v);
    ParseEncodedValue(v, before[p + |bs|..hi]);
    assert Splice(before, p, bs)[p..hi] == bs + before[p + |bs|..hi];
  }
}
