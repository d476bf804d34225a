/**
 * The in-place encoder: it skips four octets, writes the body through views of the same
 * memory, then seeks back and patches the length. Each method refines the encoding
 * functions of FieldValues.
 */
module FieldWriter {
  import opened Bytes
  import opened FieldValues
  import opened Buffers

  /**
   * `Refused` is a `false` return. `Aborted` is the failed assertion when fewer than
   * four octets are left for the length of a table or an array.
   */
  datatype Outcome = Written | Refused | Aborted

  // ----- what becomes of a value given `room` octets

  function Fate(v: FieldValue, room: nat): (r: Outcome)
    ensures r.Written? ==> |EncodeValue(v)| <= room
    decreases v, 1
  {
    if room < 1 then Refused else FateOfPayload(v, room - 1)
  }

  function FateOfPayload(v: FieldValue, room: nat): (r: Outcome)
    ensures r.Written? ==> |EncodePayload(v)| <= room
    decreases v, 0
  {
    match v
    case FieldArray(elems) => FateOfArray(elems, room)
    case FieldTable(fields) => FateOfTable(fields, room)
    case Unsupported(_) => Refused
    case _ => if |EncodePayload(v)| <= room then Written else Refused
  }

  function FateOfArray(elems: seq<FieldValue>, room: nat): (r: Outcome)
    ensures r.Written? ==> |EncodeArray(elems)| <= room
    decreases elems, 1
  {
    if room < 4 then Aborted else FateOfValues(elems, room - 4)
  }

  function FateOfValues(elems: seq<FieldValue>, room: nat): (r: Outcome)
    ensures r.Written? ==> |EncodeValues(elems)| <= room
    decreases elems, 0
  {
    if elems == [] then Written
    else
      var r := Fate(elems[0], room);
      if r.Written? then FateOfValues(elems[1..], room - |EncodeValue(elems[0])|) else r
  }

  function FateOfTable(fields: seq<Field>, room: nat): (r: Outcome)
    ensures r.Written? ==> |EncodeTable(fields)| <= room
    decreases fields, 1
  {
    if room < 4 then Aborted else FateOfFields(fields, room - 4)
  }

  function FateOfShortString(text: seq<Byte>, room: nat): (r: Outcome)
    ensures r.Written? <==> |EncodeShortString(text)| <= room && |text| <= SHORT_STRING_LIMIT
    ensures !r.Aborted?
  {
    if room < 1 + |text| || |text| > SHORT_STRING_LIMIT then Refused else Written
  }

  function FateOfField(f: Field, room: nat): (r: Outcome)
    ensures r.Written? ==> |EncodeField(f)| <= room
    decreases f, 0
  {
    var r := FateOfShortString(f.name, room);
    if r.Written? then Fate(f.value, room - |EncodeShortString(f.name)|) else r
  }

  function FateOfFields(fields: seq<Field>, room: nat): (r: Outcome)
    ensures r.Written? ==> |EncodeFields(fields)| <= room
    decreases fields, 0
  {
    if fields == [] then Written
    else
      var r := FateOfField(fields[0], room);
      if r.Written? then FateOfFields(fields[1..], room - |EncodeField(fields[0])|) else r
  }

  /**
   * A value is written exactly when it is encodable and fits; with enough room the
   * assertion is never reached, whether or not the value is encodable.
   */
  lemma {:induction false} FateExact(v: FieldValue, room: nat)
    ensures Fate(v, room).Written? <==> Encodable(v) && |EncodeValue(v)| <= room
    ensures |EncodeValue(v)| <= room ==> !Fate(v, room).Aborted?
    decreases v, 0
  {
    hide BigEndian;
    if room >= 1 {
      match v
      case FieldArray(elems) => FateOfArrayExact(elems, room - 1);
      case FieldTable(fields) => FateOfTableExact(fields, room - 1);
      case _ =>
    }
  }

  lemma {:induction false} FateOfArrayExact(elems: seq<FieldValue>, room: nat)
    ensures FateOfArray(elems, room).Written? <==> EncodableValues(elems) && |EncodeArray(elems)| <= room
    ensures |EncodeArray(elems)| <= room ==> !FateOfArray(elems, room).Aborted?
    decreases elems, 1
  {
    if room >= 4 {
      FateOfValuesExact(elems, room - 4);
    }
  }

  lemma {:induction false} FateOfValuesExact(elems: seq<FieldValue>, room: nat)
    ensures FateOfValues(elems, room).Written? <==> EncodableValues(elems) && |EncodeValues(elems)| <= room
    ensures |EncodeValues(elems)| <= room ==> !FateOfValues(elems, room).Aborted?
    decreases elems, 0
  {
    if elems != [] {
      FateExact(elems[0], room);
      if Fate(elems[0], room).Written? {
        FateOfValuesExact(elems[1..], room - |EncodeValue(elems[0])|);
      }
    }
  }

  lemma {:induction false} FateOfTableExact(fields: seq<Field>, room: nat)
    ensures FateOfTable(fields, room).Written? <==> EncodableFields(fields) && |EncodeTable(fields)| <= room
    ensures |EncodeTable(fields)| <= room ==> !FateOfTable(fields, room).Aborted?
    decreases fields, 1
  {
    if room >= 4 {
      FateOfFieldsExact(fields, room - 4);
    }
  }

  lemma {:induction false} FateOfFieldsExact(fields: seq<Field>, room: nat)
    ensures FateOfFields(fields, room).Written? <==> EncodableFields(fields) && |EncodeFields(fields)| <= room
    ensures |EncodeFields(fields)| <= room ==> !FateOfFields(fields, room).Aborted?
    decreases fields, 0
  {
    hide BigEndian;
    if fields != [] {
      var f := fields[0];
      if FateOfShortString(f.name, room).Written? {
        FateExact(f.value, room - |EncodeShortString(f.name)|);
        if FateOfField(f, room).Written? {
          FateOfFieldsExact(fields[1..], room - |EncodeField(f)|);
        }
      }
    }
  }

  lemma {:induction false} WellFormedIsEncodable(v: FieldValue)
    requires WellFormed(v)
    ensures Encodable(v)
    decreases v, 0
  {
    match v
    case FieldArray(elems) => WellFormedValuesEncodable(elems);
    case FieldTable(fields) => WellFormedFieldsEncodable(fields);
    case _ =>
  }

  lemma {:induction false} WellFormedValuesEncodable(elems: seq<FieldValue>)
    requires WellFormedValues(elems)
    ensures EncodableValues(elems)
    decreases elems, 0
  {
    if elems != [] {
      WellFormedIsEncodable(elems[0]);
      WellFormedValuesEncodable(elems[1..]);
    }
  }

  lemma {:induction false} WellFormedFieldsEncodable(fields: seq<Field>)
    requires WellFormedFields(fields)
    ensures EncodableFields(fields)
    decreases fields, 0
  {
    if fields != [] {
      WellFormedIsEncodable(fields[0].value);
      WellFormedFieldsEncodable(fields[1..]);
    }
  }

  // ----- appending at the end of a list

  lemma {:induction false} EncodeValuesAppend(a: seq<FieldValue>, v: FieldValue)
    ensures EncodeValues(a + [v]) == EncodeValues(a) + EncodeValue(v)
  {
    if a == [] {
      assert a + [v] == [v];
    } else {
      EncodeValuesAppend(a[1..], v);
      assert (a + [v])[1..] == a[1..] + [v];
    }
  }

  lemma {:induction false} EncodeFieldsAppend(a: seq<Field>, f: Field)
    ensures EncodeFields(a + [f]) == EncodeFields(a) + EncodeField(f)
  {
    hide EncodeField;
    if a == [] {
      assert a + [f] == [f];
      assert [f][1..] == [];
    } else {
      EncodeFieldsAppend(a[1..], f);
      assert (a + [f])[1..] == a[1..] + [f];
    }
  }

  // ----- the writer

  /** `bs` is at the old cursor and nothing else changed; or only the view's rest changed. */
  twostate predicate WroteInto(b: Buffer, r: Outcome, bs: seq<Byte>)
    requires old(b.Valid())
    reads b, b.mem
  {
    && b.Valid()
    && (r.Written? ==>
          && |bs| <= old(b.Available())
          && b.offset == old(b.offset) + |bs|
          && b.mem[..] == Splice(old(b.mem[..]), old(b.Position()), bs))
    && (!r.Written? ==>
          SameOutside(old(b.mem[..]), b.mem[..], old(b.Position()), b.start + b.length))
  }

  /** The same, and on failure the cursor has not moved. */
  twostate predicate Wrote(b: Buffer, r: Outcome, bs: seq<Byte>)
    requires old(b.Valid())
    reads b, b.mem
  {
    WroteInto(b, r, bs) && (!r.Written? ==> b.offset == old(b.offset))
  }

  method WriteLongString(b: Buffer, text: seq<Byte>) returns (r: Outcome)
    requires b.Valid()
    modifies b, b.mem
    ensures r == if |EncodeLongString(text)| <= old(b.Available()) then Written else Refused
    ensures Wrote(b, r, EncodeLongString(text))
  {
    hide BigEndian;
    if b.Available() < |text| + 4 {
      return Refused;
    }
    var _ := b.WriteIn(BigEndian(|text|, 4));
    var _ := b.WriteIn(text);
    SpliceAdjacent(old(b.mem[..]), old(b.Position()), BigEndian(|text|, 4), text);
    r := Written;
  }

  method WriteShortString(b: Buffer, text: seq<Byte>) returns (r: Outcome)
    requires b.Valid()
    modifies b, b.mem
    ensures r == FateOfShortString(text, old(b.Available()))
    ensures Wrote(b, r, EncodeShortString(text))
  {
    hide BigEndian;
    if b.Available() < |text| + 1 {
      return Refused;
    }
    if |text| > SHORT_STRING_LIMIT {
      return Refused;
    }
    var _ := b.WriteIn(BigEndian(|text|, 1));
    var _ := b.WriteIn(text);
    SpliceAdjacent(old(b.mem[..]), old(b.Position()), BigEndian(|text|, 1), text);
    r := Written;
  }

  /** Unlike a long string, the length is written even when the octets do not fit. */
  method WriteByteArray(b: Buffer, blob: seq<Byte>) returns (r: Outcome)
    requires b.Valid()
    modifies b, b.mem
    ensures r == if |EncodeLongString(blob)| <= old(b.Available()) then Written else Refused
    ensures WroteInto(b, r, EncodeLongString(blob))
  {
    hide BigEndian;
    var ok := b.WriteIn(BigEndian(|blob|, 4));
    if !ok {
      return Refused;
    }
    ok := b.WriteIn(blob);
    if !ok {
      return Refused;
    }
    SpliceAdjacent(old(b.mem[..]), old(b.Position()), BigEndian(|blob|, 4), blob);
    r := Written;
  }

  /** The payload of every value that is neither an array nor a table. */
  method WriteScalarPayload(b: Buffer, v: FieldValue) returns (r: Outcome)
    requires b.Valid() && !v.FieldArray? && !v.FieldTable?
    modifies b, b.mem
    ensures r == FateOfPayload(v, old(b.Available()))
    ensures WroteInto(b, r, EncodePayload(v))
  {
    hide BigEndian;
    var ok := true;
    match v {
      case Boolean(flag) =>
        if flag {
          ok := b.WriteIn([1]);
        } else {
          ok := b.WriteIn([0]);
        }
      case Signed(k, n) => ok := b.WriteIn(BigEndian(n, SignedWidth(k)));
      case Unsigned(k, u) => ok := b.WriteIn(BigEndian(u, UnsignedWidth(k)));
      case Octets(_, octets) => ok := b.WriteIn(octets);
      case LongString(text) =>
        r := WriteLongString(b, text);
        return;
      case Void =>
      case ByteArray(blob) =>
        r := WriteByteArray(b, blob);
        return;
      case Unsupported(_) => ok := false;
    }
    r := if ok then Written else Refused;
  }

  method WritePayload(b: Buffer, v: FieldValue) returns (r: Outcome)
    requires b.Valid()
    modifies b, b.mem
    ensures r == FateOfPayload(v, old(b.Available()))
    ensures WroteInto(b, r, EncodePayload(v))
    decreases v, 0
  {
    hide BigEndian, Splice, SameOutside;
    match v {
      case FieldArray(elems) =>
        var spaceLeft := b.Remaining();
        r := WriteArray(spaceLeft, elems);
        if r.Written? {
          b.Skip(spaceLeft.offset);
        }
      case FieldTable(fields) =>
        var spaceLeft := b.Remaining();
        r := WriteTable(spaceLeft, fields);
        if r.Written? {
          b.Skip(spaceLeft.offset);
        }
      case _ => r := WriteScalarPayload(b, v);
    }
  }

  method WriteValue(b: Buffer, v: FieldValue) returns (r: Outcome)
    requires b.Valid()
    modifies b, b.mem
    ensures r == Fate(v, old(b.Available()))
    ensures Wrote(b, r, EncodeValue(v))
    decreases v, 1
  {
    hide Splice, SameOutside, EncodePayload, FateOfPayload;
    ghost var before, p, room := b.mem[..], b.Position(), b.Available();
    var writeBuffer := b.Remaining();
    var ok := writeBuffer.WriteIn([Tag(v)]);
    if !ok {
      SameOutsideReflexive(before, p, p + room);
      return Refused;
    }
    r := WritePayload(writeBuffer, v);
    if !r.Written? {
      SpliceThenOutside(before, p, [Tag(v)], b.mem[..], p, p + room);
      return;
    }
    SpliceAdjacent(before, p, [Tag(v)], EncodePayload(v));
    b.Skip(writeBuffer.offset);
  }

  method WriteArray(b: Buffer, elems: seq<FieldValue>) returns (r: Outcome)
    requires b.Valid()
    modifies b, b.mem
    ensures r == FateOfArray(elems, old(b.Available()))
    ensures Wrote(b, r, EncodeArray(elems))
    decreases elems, 1
  {
    hide BigEndian, EncodeValues, FateOfValues, Splice, SameOutside;
    ghost var before, p, room := b.mem[..], b.Position(), b.Available();
    var writeBuffer := b.Remaining();
    if writeBuffer.Available() < 4 {
      SameOutsideReflexive(before, p, p + room);
      return Aborted;
    }
    writeBuffer.Skip(4);
    r := WriteValues(writeBuffer, elems);
    if !r.Written? {
      SpliceNothing(before, p + 4);
      SpliceThenOutside(before, p + 4, [], b.mem[..], p, p + room);
      return;
    }
    var endOffset := PatchLength(writeBuffer);
    SpliceAdjacent(before, p, BigEndian(endOffset - 4, 4), EncodeValues(elems));
    b.Skip(endOffset);
  }

  lemma FateOfValuesStep(elems: seq<FieldValue>, room: nat)
    requires elems != []
    ensures var r := Fate(elems[0], room);
      FateOfValues(elems, room) ==
      if r.Written? then FateOfValues(elems[1..], room - |EncodeValue(elems[0])|) else r
  {
    hide Fate, EncodeValue;
  }

  lemma NoValuesWritten(room: nat)
    ensures EncodeValues([]) == [] && FateOfValues([], room) == Written
  {
  }

  /** The body of an array. */
  method WriteValues(b: Buffer, elems: seq<FieldValue>) returns (r: Outcome)
    requires b.Valid()
    modifies b, b.mem
    ensures r == FateOfValues(elems, old(b.Available()))
    ensures WroteInto(b, r, EncodeValues(elems))
    decreases elems, 0
  {
    hide EncodeValue, EncodeValues, Fate, FateOfValues, Splice, SameOutside;
    ghost var before, p, room := b.mem[..], b.Position(), b.Available();
    ghost var done: seq<Byte> := [];
    SpliceNothing(before, p);
    NoValuesWritten(room);
    assert elems[..0] == [] && elems[0..] == elems;
    for i := 0 to |elems|
      invariant done == EncodeValues(elems[..i])
      invariant b.Valid() && |done| <= room && b.offset == old(b.offset) + |done|
      invariant b.mem[..] == Splice(before, p, done)
      invariant FateOfValues(elems, room) == FateOfValues(elems[i..], room - |done|)
    {
      ghost var rest := elems[i..];
      assert rest[1..] == elems[i + 1..];
      FateOfValuesStep(rest, room - |done|);
      r := WriteValue(b, elems[i]);
      if !r.Written? {
        SpliceThenOutside(before, p, done, b.mem[..], p, p + room);
        return;
      }
      EncodeValuesAppend(elems[..i], elems[i]);
      assert elems[..i] + [elems[i]] == elems[..i + 1];
      SpliceAdjacent(before, p, done, EncodeValue(elems[i]));
      done := done + EncodeValue(elems[i]);
    }
    NoValuesWritten(room - |done|);
    assert elems[..|elems|] == elems && elems[|elems|..] == [];
    r := Written;
  }

  /** Seeks back and writes the length of what follows the first four octets. */
  method PatchLength(view: Buffer) returns (endOffset: nat)
    requires view.Valid() && view.offset >= 4
    modifies view, view.mem
    ensures endOffset == old(view.offset)
    ensures view.mem[..] == Splice(old(view.mem[..]), view.start, BigEndian(endOffset - 4, 4))
  {
    hide BigEndian, Splice;
    endOffset := view.offset;
    view.Seek(0);
    var _ := view.WriteIn(BigEndian(endOffset - 4, 4));
  }

  method WriteField(b: Buffer, f: Field) returns (r: Outcome)
    requires b.Valid()
    modifies b, b.mem
    ensures r == FateOfField(f, old(b.Available()))
    ensures WroteInto(b, r, EncodeField(f))
    decreases f, 0
  {
    hide BigEndian, EncodeValue, EncodeShortString, Fate, Splice, SameOutside;
    ghost var before, p, room := b.mem[..], b.Position(), b.Available();
    r := WriteShortString(b, f.name);
    if !r.Written? {
      return;
    }
    r := WriteValue(b, f.value);
    if !r.Written? {
      SpliceThenOutside(before, p, EncodeShortString(f.name), b.mem[..], p, p + room);
      return;
    }
    SpliceAdjacent(before, p, EncodeShortString(f.name), EncodeValue(f.value));
  }

  method WriteTable(b: Buffer, fields: seq<Field>) returns (r: Outcome)
    requires b.Valid()
    modifies b, b.mem
    ensures r == FateOfTable(fields, old(b.Available()))
    ensures Wrote(b, r, EncodeTable(fields))
    decreases fields, 1
  {
    hide BigEndian, EncodeFields, FateOfFields, Splice, SameOutside;
    ghost var before, p, room := b.mem[..], b.Position(), b.Available();
    var writeBuffer := b.Remaining();
    if writeBuffer.Available() < 4 {
      SameOutsideReflexive(before, p, p + room);
      return Aborted;
    }
    writeBuffer.Skip(4);
    r := WriteFields(writeBuffer, fields);
    if !r.Written? {
      SpliceNothing(before, p + 4);
      SpliceThenOutside(before, p + 4, [], b.mem[..], p, p + room);
      return;
    }
    var endOffset := PatchLength(writeBuffer);
    SpliceAdjacent(before, p, BigEndian(endOffset - 4, 4), EncodeFields(fields));
    b.Skip(endOffset);
  }

  lemma FateOfFieldsStep(fields: seq<Field>, room: nat)
    requires fields != []
    ensures var r := FateOfField(fields[0], room);
      FateOfFields(fields, room) ==
      if r.Written? then FateOfFields(fields[1..], room - |EncodeField(fields[0])|) else r
  {
    hide FateOfField, EncodeField;
  }

  lemma NoFieldsWritten(room: nat)
    ensures EncodeFields([]) == [] && FateOfFields([], room) == Written
  {
  }

  /** The body of a table. */
  method WriteFields(b: Buffer, fields: seq<Field>) returns (r: Outcome)
    requires b.Valid()
    modifies b, b.mem
    ensures r == FateOfFields(fields, old(b.Available()))
    ensures WroteInto(b, r, EncodeFields(fields))
    decreases fields, 0
  {
    hide EncodeField, EncodeFields, FateOfField, FateOfFields, Splice, SameOutside;
    ghost var before, p, room := b.mem[..], b.Position(), b.Available();
    ghost var done: seq<Byte> := [];
    SpliceNothing(before, p);
    NoFieldsWritten(room);
    assert fields[..0] == [] && fields[0..] == fields;
    for i := 0 to |fields|
      invariant done == EncodeFields(fields[..i])
      invariant b.Valid() && |done| <= room && b.offset == old(b.offset) + |done|
      invariant b.mem[..] == Splice(before, p, done)
      invariant FateOfFields(fields, room) == FateOfFields(fields[i..], room - |done|)
    {
      ghost var rest := fields[i..];
      assert rest[1..] == fields[i + 1..];
      FateOfFieldsStep(rest, room - |done|);
      r := WriteField(b, fields[i]);
      if !r.Written? {
        SpliceThenOutside(before, p, done, b.mem[..], p, p + room);
        return;
      }
      EncodeFieldsAppend(fields[..i], fields[i]);
      assert fields[..i] + [fields[i]] == fields[..i + 1];
      SpliceAdjacent(before, p, done, EncodeField(fields[i]));
      done := done + EncodeField(fields[i]);
    }
    NoFieldsWritten(room - |done|);
    assert fields[..|fields|] == fields && fields[|fields|..] == [];
    r := Written;
  }
}
