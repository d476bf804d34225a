/**
 * The decoder as it runs: a cursor moving over shared memory, views for nested bodies,
 * loops until a view is used up. Each method refines the parser of FieldValues.
 */
module FieldReader {
  import opened Bytes
  import opened FieldValues
  import opened Buffers

  // ----- where the cursor stops, whatever the outcome

  /** Behind the prefix if it claims more than there is; an array or table is passed over as a whole. */
  function StringStop(bs: seq<Byte>, prefix: nat): nat {
    if |bs| < prefix then 0
    else
      var n := ToUnsigned(bs[..prefix]);
      if n > |bs| - prefix then prefix else prefix + n
  }

  function PayloadStop(shape: Shape, bs: seq<Byte>): nat {
    match shape
    case LongStringShape => StringStop(bs, 4)
    case ByteArrayShape => StringStop(bs, 4)
    case FieldArrayShape => StringStop(bs, 4)
    case FieldTableShape => StringStop(bs, 4)
    case _ => var r := ParsePayload(shape, bs); if r.Ok? then r.used else 0
  }

  function ValueStop(bs: seq<Byte>): nat {
    if |bs| < 1 then 0 else 1 + PayloadStop(ShapeOf(bs[0]), bs[1..])
  }

  function FieldStop(bs: seq<Byte>): nat {
    var name := ParseShortString(bs);
    if name.Ok? then name.used + ValueStop(bs[name.used..]) else StringStop(bs, 1)
  }

  method ReadString(b: Buffer, prefix: nat) returns (r: Parsed<seq<Byte>>)
    requires b.Valid()
    modifies b
    ensures b.Valid() && r == ParseString(old(b.Rest()), prefix)
    ensures r.Ok? ==> b.offset == old(b.offset) + r.used
    ensures b.offset == old(b.offset) + StringStop(old(b.Rest()), prefix)
  {
    if b.Available() < prefix {
      return Rejected;
    }
    var octets := b.Copy(prefix);
    var n := ToUnsigned(octets);
    if n > b.Available() {
      return Rejected;
    }
    var view := b.Consume(n);
    r := Ok(view.Rest(), prefix + n);
    SubSlice(b.mem[..], old(b.Position()), old(b.Available()), prefix, prefix + n);
    assert view.Rest() == old(b.Rest())[prefix..prefix + n];
  }

  method ReadScalar(b: Buffer, shape: Shape) returns (r: Parsed<FieldValue>)
    requires b.Valid() && !shape.FieldArrayShape? && !shape.FieldTableShape?
    modifies b
    ensures b.Valid() && r == ParsePayload(shape, old(b.Rest()))
    ensures r.Ok? ==> b.offset == old(b.offset) + r.used
    ensures b.offset == old(b.offset) + PayloadStop(shape, old(b.Rest()))
  {
    hide ToUnsigned, ToSigned, ParseString;
    match shape {
      case BooleanShape =>
        if b.Available() < 1 {
          return Overrun;
        }
        var octets := b.Copy(1);
        r := Ok(Boolean(octets[0] != 0), 1);
      case SignedShape(k) =>
        if b.Available() < SignedWidth(k) {
          return Overrun;
        }
        var octets := b.Copy(SignedWidth(k));
        r := Ok(Signed(k, ToSigned(octets)), SignedWidth(k));
      case UnsignedShape(k) =>
        if b.Available() < UnsignedWidth(k) {
          return Overrun;
        }
        var octets := b.Copy(UnsignedWidth(k));
        r := Ok(Unsigned(k, ToUnsigned(octets)), UnsignedWidth(k));
      case OctetsShape(k) =>
        if b.Available() < OctetsWidth(k) {
          return Rejected;
        }
        var octets := b.Copy(OctetsWidth(k));
        r := Ok(Octets(k, octets), OctetsWidth(k));
      case LongStringShape =>
        var s :- ReadString(b, 4);
        r := Ok(LongString(s.0), s.1);
      case ByteArrayShape =>
        var s :- ReadString(b, 4);
        r := Ok(ByteArray(s.0), s.1);
      case VoidShape => r := Ok(Void, 0);
      case NoShape => r := Rejected;
    }
  }

  method ReadValue(b: Buffer) returns (r: Parsed<FieldValue>)
    requires b.Valid()
    modifies b
    ensures b.Valid() && r == ParseValue(old(b.Rest()))
    ensures r.Ok? ==> b.offset == old(b.offset) + r.used
    ensures b.offset == old(b.offset) + ValueStop(old(b.Rest()))
    decreases b.Available(), 0
  {
    hide ParsePayload, PayloadStop, ShapeOf;
    if b.Available() < 1 {
      return Overrun;
    }
    var tag := b.Copy(1);
    assert b.Rest() == old(b.Rest())[1..];
    var s :- ReadPayload(b, ShapeOf(tag[0]));
    r := Ok(s.0, 1 + s.1);
  }

  method ReadPayload(b: Buffer, shape: Shape) returns (r: Parsed<FieldValue>)
    requires b.Valid()
    modifies b
    ensures b.Valid() && r == ParsePayload(shape, old(b.Rest()))
    ensures r.Ok? ==> b.offset == old(b.offset) + r.used
    ensures b.offset == old(b.offset) + PayloadStop(shape, old(b.Rest()))
    decreases b.Available(), 3
  {
    hide ParseArray, ParseTable, ParseString, ToUnsigned, ToSigned, StringStop;
    match shape {
      case FieldArrayShape =>
        var s :- ReadArray(b);
        r := Ok(FieldArray(s.0), s.1);
      case FieldTableShape =>
        var s :- ReadTable(b);
        r := Ok(FieldTable(s.0), s.1);
      case _ => r := ReadScalar(b, shape);
    }
  }

  /** The view of a length-prefixed body, once it is known to be all there. */
  method ReadBody(b: Buffer) returns (body: Buffer, r: Parsed<seq<Byte>>)
    requires b.Valid()
    modifies b
    ensures b.Valid() && r == ParseLongString(old(b.Rest()))
    ensures r.Ok? ==> b.offset == old(b.offset) + r.used
    ensures b.offset == old(b.offset) + StringStop(old(b.Rest()), 4)
    ensures fresh(body) && body.Valid()
    ensures r.Ok? ==> body.Rest() == r.value && body.Available() == |r.value| <= old(b.Available()) - 4
  {
    hide ToUnsigned;
    body := new Buffer(b.mem, 0, 0);
    if 4 > b.Available() {
      return body, Rejected;
    }
    var octets := b.Copy(4);
    var length := ToUnsigned(octets);
    if length > b.Available() {
      return body, Rejected;
    }
    body := b.Consume(length);
    r := Ok(body.Rest(), 4 + length);
    SubSlice(b.mem[..], old(b.Position()), old(b.Available()), 4, 4 + length);
    assert body.Rest() == old(b.Rest())[4..4 + length];
  }

  /** `whole` is the elements `done` followed by what `rest` gives. */
  ghost predicate Continues<T(!new)>(whole: Parsed<seq<T>>, done: seq<T>, rest: Parsed<seq<T>>) {
    if rest.Ok? then whole.Ok? && whole.value == done + rest.value else whole == rest
  }

  method ReadArray(b: Buffer) returns (r: Parsed<seq<FieldValue>>)
    requires b.Valid()
    modifies b
    ensures b.Valid() && r == ParseArray(old(b.Rest()))
    ensures r.Ok? ==> b.offset == old(b.offset) + r.used
    ensures b.offset == old(b.offset) + StringStop(old(b.Rest()), 4)
    decreases b.Available(), 2
  {
    hide ParseString, ParseValue, StringStop, ValueStop;
    var body, head := ReadBody(b);
    if !head.Ok? {
      return head.PropagateFailure();
    }
    var elems: seq<FieldValue> := [];
    while body.Available() > 0
      invariant b.Valid() && b.offset == old(b.offset) + head.used
      invariant body.Valid() && body.Available() <= |head.value|
      invariant Continues(ParseValues(head.value), elems, ParseValues(body.Rest()))
      decreases body.Available()
    {
      ghost var rest := body.Rest();
      var s :- ReadValue(body);
      assert body.Rest() == rest[s.1..];
      elems := elems + [s.0];
    }
    assert body.Rest() == [] && elems + [] == elems;
    r := Ok(elems, head.used);
  }

  method ReadField(b: Buffer) returns (r: Parsed<Field>)
    requires b.Valid()
    modifies b
    ensures b.Valid() && r == ParseField(old(b.Rest()))
    ensures r.Ok? ==> b.offset == old(b.offset) + r.used
    ensures b.offset == old(b.offset) + FieldStop(old(b.Rest()))
    decreases b.Available(), 1
  {
    hide ParseString, ParseValue, StringStop, ValueStop;
    var name :- ReadString(b, 1);
    assert b.Rest() == old(b.Rest())[name.1..];
    var value :- ReadValue(b);
    r := Ok(Field(name.0, value.0), name.1 + value.1);
  }

  method ReadTable(b: Buffer) returns (r: Parsed<seq<Field>>)
    requires b.Valid()
    modifies b
    ensures b.Valid() && r == ParseTable(old(b.Rest()))
    ensures r.Ok? ==> b.offset == old(b.offset) + r.used
    ensures b.offset == old(b.offset) + StringStop(old(b.Rest()), 4)
    decreases b.Available(), 2
  {
    hide ParseString, ParseField, StringStop, FieldStop;
    var body, head := ReadBody(b);
    if !head.Ok? {
      return head.PropagateFailure();
    }
    var fields: seq<Field> := [];
    while body.Available() > 0
      invariant b.Valid() && b.offset == old(b.offset) + head.used
      invariant body.Valid() && body.Available() <= |head.value|
      invariant Continues(ParseFields(head.value), fields, ParseFields(body.Rest()))
      decreases body.Available()
    {
      ghost var rest := body.Rest();
      var s :- ReadField(body);
      assert body.Rest() == rest[s.1..];
      fields := fields + [s.0];
    }
    assert body.Rest() == [] && fields + [] == fields;
    r := Ok(fields, head.used);
  }
}
