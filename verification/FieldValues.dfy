/**
 * AMQP field values, field arrays and field tables (AMQP 0-9-1 section 4.2.5.5 with
 * the RabbitMQ errata), their wire encoding as a function on octet strings, and the
 * parser for it.
 */
module FieldValues {
  import opened Bytes

  datatype SignedKind = ShortShortInt | ShortInt | LongInt | LongLongInt | CompatLongLongInt
  datatype UnsignedKind = ShortShortUint | ShortUint | LongUint | Timestamp
  datatype OctetsKind = Float | Double | Decimal

  /**
   * `Unsupported` stands for a value object that carries a tag the encoder has no
   * case for. 'U' is such a tag: the parser turns it into a short-int.
   */
  datatype FieldValue =
    | Boolean(flag: bool)
    | Signed(skind: SignedKind, n: int)
    | Unsigned(ukind: UnsignedKind, u: int)
    | Octets(okind: OctetsKind, octets: seq<Byte>)
    | LongString(text: seq<Byte>)
    | ByteArray(blob: seq<Byte>)
    | FieldArray(elems: seq<FieldValue>)
    | FieldTable(fields: seq<Field>)
    | Void
    | Unsupported(tag: Byte)

  datatype Field = Field(name: seq<Byte>, value: FieldValue)

  const SHORT_STRING_LIMIT := 255

  function SignedWidth(k: SignedKind): nat {
    match k
    case ShortShortInt => 1
    case ShortInt => 2
    case LongInt => 4
    case LongLongInt | CompatLongLongInt => 8
  }

  function UnsignedWidth(k: UnsignedKind): nat {
    match k
    case ShortShortUint => 1
    case ShortUint => 2
    case LongUint => 4
    case Timestamp => 8
  }

  function OctetsWidth(k: OctetsKind): nat {
    match k
    case Float => 4
    case Double => 8
    case Decimal => 5
  }

  // ----- tags

  function SignedTag(k: SignedKind): Byte {
    match k
    case ShortShortInt => 98       // 'b'
    case ShortInt => 115           // 's'
    case LongInt => 73             // 'I'
    case LongLongInt => 108        // 'l'
    case CompatLongLongInt => 76   // 'L'
  }

  function UnsignedTag(k: UnsignedKind): Byte {
    match k
    case ShortShortUint => 66      // 'B'
    case ShortUint => 117          // 'u'
    case LongUint => 105           // 'i'
    case Timestamp => 84           // 'T'
  }

  function OctetsTag(k: OctetsKind): Byte {
    match k
    case Float => 102              // 'f'
    case Double => 100             // 'd'
    case Decimal => 68             // 'D'
  }

  function Tag(v: FieldValue): Byte {
    match v
    case Boolean(_) => 116         // 't'
    case Signed(k, _) => SignedTag(k)
    case Unsigned(k, _) => UnsignedTag(k)
    case Octets(k, _) => OctetsTag(k)
    case LongString(_) => 83       // 'S'
    case ByteArray(_) => 120       // 'x'
    case FieldArray(_) => 65       // 'A'
    case FieldTable(_) => 70       // 'F'
    case Void => 86                // 'V'
    case Unsupported(tag) => tag
  }

  const TAG_U: Byte := 85          // 'U', read as a short-int and never written

  /** What the parser does on seeing a tag. */
  datatype Shape =
    | BooleanShape | SignedShape(sk: SignedKind) | UnsignedShape(uk: UnsignedKind)
    | OctetsShape(ok: OctetsKind) | LongStringShape | ByteArrayShape
    | FieldArrayShape | FieldTableShape | VoidShape | NoShape

  function ShapeOf(tag: Byte): Shape {
    match tag
    case 116 => BooleanShape
    case 98 => SignedShape(ShortShortInt)
    case 66 => UnsignedShape(ShortShortUint)
    case 85 => SignedShape(ShortInt)
    case 115 => SignedShape(ShortInt)
    case 117 => UnsignedShape(ShortUint)
    case 73 => SignedShape(LongInt)
    case 105 => UnsignedShape(LongUint)
    case 108 => SignedShape(LongLongInt)
    case 76 => SignedShape(CompatLongLongInt)
    case 102 => OctetsShape(Float)
    case 100 => OctetsShape(Double)
    case 68 => OctetsShape(Decimal)
    case 83 => LongStringShape
    case 65 => FieldArrayShape
    case 84 => UnsignedShape(Timestamp)
    case 70 => FieldTableShape
    case 86 => VoidShape
    case 120 => ByteArrayShape
    case _ => NoShape
  }

  // ----- encoding

  function EncodeLongString(text: seq<Byte>): (bs: seq<Byte>) {
    BigEndian(|text|, 4) + text
  }

  function EncodeShortString(text: seq<Byte>): (bs: seq<Byte>) {
    BigEndian(|text|, 1) + text
  }

  function EncodeValue(v: FieldValue): (bs: seq<Byte>)
    decreases v, 1
  {
    [Tag(v)] + EncodePayload(v)
  }

  /** What follows the tag. */
  function EncodePayload(v: FieldValue): (bs: seq<Byte>)
    decreases v, 0
  {
    match v
    case Boolean(flag) => [if flag then 1 else 0]
    case Signed(k, n) => BigEndian(n, SignedWidth(k))
    case Unsigned(k, u) => BigEndian(u, UnsignedWidth(k))
    case Octets(_, octets) => octets
    case LongString(text) => EncodeLongString(text)
    case ByteArray(blob) => EncodeLongString(blob)
    case FieldArray(elems) => EncodeArray(elems)
    case FieldTable(fields) => EncodeTable(fields)
    case Void => []
    case Unsupported(_) => []
  }

  function EncodeArray(elems: seq<FieldValue>): (bs: seq<Byte>)
    decreases elems, 1
  {
    EncodeLongString(EncodeValues(elems))
  }

  function EncodeValues(elems: seq<FieldValue>): (bs: seq<Byte>)
    decreases elems, 0
  {
    if elems == [] then [] else EncodeValue(elems[0]) + EncodeValues(elems[1..])
  }

  function EncodeTable(fields: seq<Field>): (bs: seq<Byte>)
    decreases fields, 1
  {
    EncodeLongString(EncodeFields(fields))
  }

  function EncodeField(f: Field): (bs: seq<Byte>)
    decreases f, 0
  {
    EncodeShortString(f.name) + EncodeValue(f.value)
  }

  function EncodeFields(fields: seq<Field>): (bs: seq<Byte>)
    decreases fields, 0
  {
    if fields == [] then [] else EncodeField(fields[0]) + EncodeFields(fields[1..])
  }

  // ----- which values the encoder takes, and which it takes without loss

  /** Every name fits its length octet and every tag has an encoding. */
  predicate Encodable(v: FieldValue)
    decreases v, 0
  {
    match v
    case FieldArray(elems) => EncodableValues(elems)
    case FieldTable(fields) => EncodableFields(fields)
    case Unsupported(_) => false
    case _ => true
  }

  predicate EncodableValues(elems: seq<FieldValue>)
    decreases elems, 0
  {
    elems != [] ==> Encodable(elems[0]) && EncodableValues(elems[1..])
  }

  predicate EncodableFields(fields: seq<Field>)
    decreases fields, 0
  {
    fields != [] ==>
      && |fields[0].name| <= SHORT_STRING_LIMIT
      && Encodable(fields[0].value)
      && EncodableFields(fields[1..])
  }

  /** Encodable, every integer in the range of its tag, every length below 2^32. */
  predicate WellFormed(v: FieldValue)
    decreases v, 0
  {
    match v
    case Boolean(_) => true
    case Signed(k, n) => -Pow256(SignedWidth(k)) <= 2 * n < Pow256(SignedWidth(k))
    case Unsigned(k, u) => 0 <= u < Pow256(UnsignedWidth(k))
    case Octets(k, octets) => |octets| == OctetsWidth(k)
    case LongString(text) => |text| < Pow256(4)
    case ByteArray(blob) => |blob| < Pow256(4)
    case FieldArray(elems) => WellFormedArray(elems)
    case FieldTable(fields) => WellFormedTable(fields)
    case Void => true
    case Unsupported(_) => false
  }

  predicate WellFormedArray(elems: seq<FieldValue>)
    decreases elems, 1
  {
    WellFormedValues(elems) && |EncodeValues(elems)| < Pow256(4)
  }

  predicate WellFormedValues(elems: seq<FieldValue>)
    decreases elems, 0
  {
    elems != [] ==> WellFormed(elems[0]) && WellFormedValues(elems[1..])
  }

  predicate WellFormedTable(fields: seq<Field>)
    decreases fields, 1
  {
    WellFormedFields(fields) && |EncodeFields(fields)| < Pow256(4)
  }

  predicate WellFormedFields(fields: seq<Field>)
    decreases fields, 0
  {
    fields != [] ==>
      && |fields[0].name| <= SHORT_STRING_LIMIT
      && WellFormed(fields[0].value)
      && WellFormedFields(fields[1..])
  }

  // ----- parsing

  /**
   * `Rejected` is a `false` return. `Overrun` is a fixed-width read past the end of
   * the input, which the source guards only by an assertion.
   */
  datatype Parsed<+T> = Ok(value: T, used: nat) | Rejected | Overrun {
    predicate IsFailure() { !Ok? }

    function PropagateFailure<U>(): Parsed<U>
      requires IsFailure()
    {
      if Rejected? then Rejected else Overrun
    }

    function Extract(): (T, nat)
      requires Ok?
    {
      (value, used)
    }
  }

  function ParseString(bs: seq<Byte>, prefix: nat): (r: Parsed<seq<Byte>>)
    ensures r.Ok? ==> prefix <= r.used == prefix + |r.value| <= |bs|
    ensures !r.Overrun?
  {
    if |bs| < prefix then Rejected
    else
      var n := ToUnsigned(bs[..prefix]);
      if n > |bs| - prefix then Rejected else Ok(bs[prefix..prefix + n], prefix + n)
  }

  function ParseLongString(bs: seq<Byte>): (r: Parsed<seq<Byte>>) {
    ParseString(bs, 4)
  }

  function ParseShortString(bs: seq<Byte>): (r: Parsed<seq<Byte>>) {
    ParseString(bs, 1)
  }

  function ParseValue(bs: seq<Byte>): (r: Parsed<FieldValue>)
    ensures r.Ok? ==> 1 <= r.used <= |bs|
    decreases |bs|, 0
  {
    if |bs| == 0 then Overrun
    else
      var (v, used) :- ParsePayload(ShapeOf(bs[0]), bs[1..]);
      Ok(v, 1 + used)
  }

  function ParsePayload(shape: Shape, bs: seq<Byte>): (r: Parsed<FieldValue>)
    ensures r.Ok? ==> r.used <= |bs|
    decreases |bs|, 4
  {
    match shape
    case BooleanShape =>
      if |bs| < 1 then Overrun else Ok(Boolean(bs[0] != 0), 1)
    case SignedShape(k) =>
      var w := SignedWidth(k);
      if |bs| < w then Overrun else Ok(Signed(k, ToSigned(bs[..w])), w)
    case UnsignedShape(k) =>
      var w := UnsignedWidth(k);
      if |bs| < w then Overrun else Ok(Unsigned(k, ToUnsigned(bs[..w])), w)
    case OctetsShape(k) =>
      var w := OctetsWidth(k);
      if |bs| < w then Rejected else Ok(Octets(k, bs[..w]), w)
    case LongStringShape =>
      var (text, used) :- ParseLongString(bs);
      Ok(LongString(text), used)
    case ByteArrayShape =>
      var (blob, used) :- ParseLongString(bs);
      Ok(ByteArray(blob), used)
    case FieldArrayShape =>
      var (elems, used) :- ParseArray(bs);
      Ok(FieldArray(elems), used)
    case FieldTableShape =>
      var (fields, used) :- ParseTable(bs);
      Ok(FieldTable(fields), used)
    case VoidShape => Ok(Void, 0)
    case NoShape => Rejected
  }

  function ParseArray(bs: seq<Byte>): (r: Parsed<seq<FieldValue>>)
    ensures r.Ok? ==> 4 <= r.used <= |bs|
    decreases |bs|, 2
  {
    var (body, used) :- ParseLongString(bs);
    var (elems, _) :- ParseValues(body);
    Ok(elems, used)
  }

  /** Values up to the end of the input. */
  function ParseValues(bs: seq<Byte>): (r: Parsed<seq<FieldValue>>)
    ensures r.Ok? ==> r.used == |bs|
    decreases |bs|, 1
  {
    if |bs| == 0 then Ok([], 0)
    else
      var (v, used) :- ParseValue(bs);
      var (vs, rest) :- ParseValues(bs[used..]);
      Ok([v] + vs, used + rest)
  }

  function ParseTable(bs: seq<Byte>): (r: Parsed<seq<Field>>)
    ensures r.Ok? ==> 4 <= r.used <= |bs|
    decreases |bs|, 3
  {
    var (body, used) :- ParseLongString(bs);
    var (fields, _) :- ParseFields(body);
    Ok(fields, used)
  }

  /** One name and its value. */
  function ParseField(bs: seq<Byte>): (r: Parsed<Field>)
    ensures r.Ok? ==> 2 <= r.used <= |bs|
    decreases |bs|, 1
  {
    var (name, n) :- ParseShortString(bs);
    var (v, m) :- ParseValue(bs[n..]);
    Ok(Field(name, v), n + m)
  }

  /** Fields up to the end of the input. */
  function ParseFields(bs: seq<Byte>): (r: Parsed<seq<Field>>)
    ensures r.Ok? ==> r.used == |bs|
    decreases |bs|, 2
  {
    if |bs| == 0 then Ok([], 0)
    else
      var (f, used) :- ParseField(bs);
      var (fs, rest) :- ParseFields(bs[used..]);
      Ok([f] + fs, used + rest)
  }
}
