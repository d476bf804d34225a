/** Exactly which octets make the decoder read past their end, where only an assertion stops it. */
module FieldOverrun {
  import opened Bytes
  import opened FieldValues
  import opened FieldRoundTrip

  /** The body of a length-prefixed string that is all there. */
  predicate HasBody(bs: seq<Byte>) {
    |bs| >= 4 && ToUnsigned(bs[..4]) <= |bs| - 4
  }

  function Body(bs: seq<Byte>): (body: seq<Byte>)
    requires HasBody(bs)
    ensures |body| < |bs|
  {
    bs[4..4 + ToUnsigned(bs[..4])]
  }

  /** No octet where a tag should be, or a fixed-width tag with too few octets behind it, at any depth. */
  ghost predicate OverrunsValue(bs: seq<Byte>)
    decreases |bs|, 0
  {
    bs == [] ||
    var rest := bs[1..];
    match ShapeOf(bs[0])
    case BooleanShape => |rest| < 1
    case SignedShape(k) => |rest| < SignedWidth(k)
    case UnsignedShape(k) => |rest| < UnsignedWidth(k)
    case FieldArrayShape => HasBody(rest) && OverrunsValues(Body(rest))
    case FieldTableShape => HasBody(rest) && OverrunsFields(Body(rest))
    case _ => false
  }

  /** The rendered values up to `n`, and then one that overruns. */
  ghost predicate OverrunsValuesAt(bs: seq<Byte>, elems: seq<FieldValue>, n: nat)
    decreases |bs|, 1
  {
    n < |bs| && WellFormedValues(elems) && RendersValues(bs[..n], elems) && OverrunsValue(bs[n..])
  }

  ghost predicate OverrunsValues(bs: seq<Byte>)
    decreases |bs|, 2
  {
    exists elems, n: nat :: OverrunsValuesAt(bs, elems, n)
  }

  /** A name, and then a value that overruns: perhaps nothing at all. */
  ghost predicate OverrunsField(bs: seq<Byte>)
    decreases |bs|, 1
  {
    var r := ParseShortString(bs);
    r.Ok? && OverrunsValue(bs[r.used..])
  }

  ghost predicate OverrunsFieldsAt(bs: seq<Byte>, fields: seq<Field>, n: nat)
    decreases |bs|, 2
  {
    n < |bs| && WellFormedFields(fields) && RendersFields(bs[..n], fields) && OverrunsField(bs[n..])
  }

  /** Rendered fields, and then one that overruns. */
  ghost predicate OverrunsFields(bs: seq<Byte>)
    decreases |bs|, 3
  {
    exists fields, n: nat :: OverrunsFieldsAt(bs, fields, n)
  }

  ghost predicate OverrunsTable(bs: seq<Byte>) {
    HasBody(bs) && OverrunsFields(Body(bs))
  }

  lemma BodyParses(bs: seq<Byte>)
    ensures HasBody(bs) <==> ParseLongString(bs).Ok?
    ensures HasBody(bs) ==> ParseLongString(bs).value == Body(bs)
  {
    hide ToUnsigned;
  }

  lemma {:induction false} ValueOverrunsIff(bs: seq<Byte>)
    ensures ParseValue(bs) == Overrun <==> OverrunsValue(bs)
    decreases |bs|, 0
  {
    if bs != [] {
      var rest, shape := bs[1..], ShapeOf(bs[0]);
      hide ParseString, ToUnsigned, ToSigned, ShapeOf, HasBody, Body;
      BodyParses(rest);
      assert ParseValue(bs) == Overrun <==> ParsePayload(shape, rest) == Overrun;
      assert shape.FieldArrayShape? ==> (ParsePayload(shape, rest) == Overrun <==> ParseArray(rest) == Overrun);
      assert shape.FieldTableShape? ==> (ParsePayload(shape, rest) == Overrun <==> ParseTable(rest) == Overrun);
      assert ParseArray(rest) == Overrun <==> HasBody(rest) && ParseValues(Body(rest)) == Overrun;
      assert ParseTable(rest) == Overrun <==> HasBody(rest) && ParseFields(Body(rest)) == Overrun;
      if HasBody(rest) {
        if shape.FieldArrayShape? {
          ValuesOverrunIff(Body(rest));
        } else if shape.FieldTableShape? {
          FieldsOverrunIff(Body(rest));
        }
      }
    }
  }

  /** Rendered values in front do not matter. */
  lemma {:induction false} SkipValues(bs: seq<Byte>, elems: seq<FieldValue>, n: nat)
    requires OverrunsValuesAt(bs, elems, n)
    ensures ParseValues(bs) == Overrun
    decreases |bs|, 1, |elems|
  {
    hide ParseValue, EncodeValue, Renders, WellFormed, OverrunsValue;
    if elems == [] {
      assert n == 0 && bs[0..] == bs;
      ValueOverrunsIff(bs);
    } else {
      var k := |EncodeValue(elems[0])|;
      assert bs[..n][..k] == bs[..k] && bs[..n][k..] == bs[k..][..n - k];
      ParseRenderedValue(bs[..k], elems[0], bs[k..]);
      assert bs[..k] + bs[k..] == bs && bs[k..][n - k..] == bs[n..];
      SkipValues(bs[k..], elems[1..], n - k);
    }
  }

  lemma OneMoreValue(bs: seq<Byte>, elems: seq<FieldValue>, n: nat)
    requires ParseValue(bs).Ok? && OverrunsValuesAt(bs[ParseValue(bs).used..], elems, n)
    ensures OverrunsValuesAt(bs, [ParseValue(bs).value] + elems, ParseValue(bs).used + n)
  {
    hide ParseValue, EncodeValue, Renders, WellFormed, OverrunsValue, RendersValues, WellFormedValues;
    var r := ParseValue(bs);
    ParsedValueRenders(bs);
    var m := r.used + n;
    assert bs[..m][..r.used] == bs[..r.used] && bs[..m][r.used..] == bs[r.used..][..n];
    assert bs[r.used..][n..] == bs[m..];
    ValuesCons(bs[..m], r.value, elems);
  }

  lemma FirstOverrunningValue(bs: seq<Byte>) returns (elems: seq<FieldValue>, n: nat)
    requires OverrunsValues(bs)
    ensures OverrunsValuesAt(bs, elems, n)
  {
    elems, n :| OverrunsValuesAt(bs, elems, n);
  }

  lemma {:induction false} ValuesOverrunIff(bs: seq<Byte>)
    ensures ParseValues(bs) == Overrun <==> OverrunsValues(bs)
    decreases |bs|, 2
  {
    hide ParseValue;
    if OverrunsValues(bs) {
      var elems, n := FirstOverrunningValue(bs);
      SkipValues(bs, elems, n);
    }
    if ParseValues(bs) == Overrun {
      var r := ParseValue(bs);
      if r.Ok? {
        assert ParseValues(bs[r.used..]) == Overrun;
        ValuesOverrunIff(bs[r.used..]);
        var elems, n := FirstOverrunningValue(bs[r.used..]);
        OneMoreValue(bs, elems, n);
      } else {
        ValueOverrunsIff(bs);
        NothingBeforeValue(bs);
      }
    }
  }

  lemma NothingBeforeValue(bs: seq<Byte>)
    requires bs != [] && OverrunsValue(bs)
    ensures OverrunsValuesAt(bs, [], 0)
  {
    hide OverrunsValue;
    assert bs[0..] == bs;
  }

  lemma FieldOverrunsIff(bs: seq<Byte>)
    requires bs != []
    ensures ParseField(bs) == Overrun <==> OverrunsField(bs)
    decreases |bs|, 1
  {
    hide ParseString, ParseValue, OverrunsValue;
    var r := ParseShortString(bs);
    if r.Ok? {
      ValueOverrunsIff(bs[r.used..]);
    }
  }

  lemma {:induction false} SkipFields(bs: seq<Byte>, fields: seq<Field>, n: nat)
    requires OverrunsFieldsAt(bs, fields, n)
    ensures ParseFields(bs) == Overrun
    decreases |bs|, 2, |fields|
  {
    hide ParseField, EncodeField, RendersField, WellFormed, OverrunsField;
    if fields == [] {
      assert n == 0 && bs[0..] == bs;
      FieldOverrunsIff(bs);
    } else {
      var k := |EncodeField(fields[0])|;
      assert bs[..n][..k] == bs[..k] && bs[..n][k..] == bs[k..][..n - k];
      ParseRenderedField(bs[..k], fields[0], bs[k..]);
      assert bs[..k] + bs[k..] == bs && bs[k..][n - k..] == bs[n..];
      SkipFields(bs[k..], fields[1..], n - k);
    }
  }

  lemma OneMoreField(bs: seq<Byte>, fields: seq<Field>, n: nat)
    requires ParseField(bs).Ok? && OverrunsFieldsAt(bs[ParseField(bs).used..], fields, n)
    ensures OverrunsFieldsAt(bs, [ParseField(bs).value] + fields, ParseField(bs).used + n)
  {
    hide ParseField, EncodeField, RendersField, WellFormed, OverrunsField, RendersFields, WellFormedFields;
    var r := ParseField(bs);
    ParsedFieldRenders(bs);
    var m := r.used + n;
    assert bs[..m][..r.used] == bs[..r.used] && bs[..m][r.used..] == bs[r.used..][..n];
    assert bs[r.used..][n..] == bs[m..];
    FieldsCons(bs[..m], r.value, fields);
  }

  lemma NothingBeforeField(bs: seq<Byte>)
    requires bs != [] && OverrunsField(bs)
    ensures OverrunsFieldsAt(bs, [], 0)
  {
    hide OverrunsField;
    assert bs[0..] == bs;
  }

  lemma FirstOverrunningField(bs: seq<Byte>) returns (fields: seq<Field>, n: nat)
    requires OverrunsFields(bs)
    ensures OverrunsFieldsAt(bs, fields, n)
  {
    fields, n :| OverrunsFieldsAt(bs, fields, n);
  }

  lemma {:induction false} FieldsOverrunIff(bs: seq<Byte>)
    ensures ParseFields(bs) == Overrun <==> OverrunsFields(bs)
    decreases |bs|, 3
  {
    hide ParseField;
    if OverrunsFields(bs) {
      var fields, n := FirstOverrunningField(bs);
      SkipFields(bs, fields, n);
    }
    if ParseFields(bs) == Overrun {
      var r := ParseField(bs);
      if r.Ok? {
        assert ParseFields(bs[r.used..]) == Overrun;
        FieldsOverrunIff(bs[r.used..]);
        var fields, n := FirstOverrunningField(bs[r.used..]);
        OneMoreField(bs, fields, n);
      } else {
        FieldOverrunsIff(bs);
        NothingBeforeField(bs);
      }
    }
  }

  /**
   * Decoding a table reads past its end exactly when its body is all there and consists of
   * rendered fields followed by a name behind which a value begins that is not all there:
   * nothing, a fixed-width tag with too few octets, or a nested body of which the same holds.
   */
  lemma TableOverrunsIff(bs: seq<Byte>)
    ensures ParseTable(bs) == Overrun <==> OverrunsTable(bs)
  {
    hide ParseString, ParseFields, OverrunsFields, HasBody, Body;
    BodyParses(bs);
    if HasBody(bs) {
      FieldsOverrunIff(Body(bs));
    }
  }
}
