/** Encoding and decoding are inverse on exactly the domain of the codec. */
module ArchiveCodec {
  import opened Base
  import opened Bytes
  import opened Archive

  // ---------------------------------------------------------------------
  // Parts of a value.
  // ---------------------------------------------------------------------

  lemma TagRound(tag: Byte, body: seq<Byte>)
    ensures GetTag([tag] + body, tag) == Ok(body)
  {
    assert ([tag] + body)[1..] == body;
  }

  lemma BlobRound(bytes: seq<Byte>, tag: Byte, rest: seq<Byte>)
    requires |bytes| <= MAX_BLOB
    ensures DecBlob([tag] + U32(|bytes|) + bytes + rest, tag) == Ok(Read(bytes, rest))
  {
    var body := U32(|bytes|) + bytes + rest;
    assert [tag] + U32(|bytes|) + bytes + rest == [tag] + body;
    TagRound(tag, body);
    U32RoundTrip(|bytes|);
    assert body[..4] == U32(|bytes|) && body[4..] == bytes + rest;
    assert (bytes + rest)[..|bytes|] == bytes && (bytes + rest)[|bytes|..] == rest;
    hide U32, GetTag;
  }

  lemma BlobCanonical(data: seq<Byte>, tag: Byte)
    requires DecBlob(data, tag).Ok?
    ensures var r := DecBlob(data, tag).value;
      |r.value| <= MAX_BLOB && data == [tag] + U32(|r.value|) + r.value + r.rest
  {
    var r := DecBlob(data, tag).value;
    var body := data[1..];
    assert data == [tag] + body;
    LittleOfNumber(body[..4]);
    hide Number, Little;
    assert body == body[..4] + r.value + r.rest;
  }

  lemma IntRound(n: nat, tag: Byte, limit: nat, rest: seq<Byte>)
    requires n < limit <= TWO64
    ensures DecInt([tag] + U64(n) + rest, tag, limit) == Ok(Read(n, rest))
  {
    var body := U64(n) + rest;
    assert [tag] + U64(n) + rest == [tag] + body;
    TagRound(tag, body);
    U64RoundTrip(n);
    assert body[..8] == U64(n) && body[8..] == rest;
    hide U64, GetTag;
  }

  lemma IntCanonical(data: seq<Byte>, tag: Byte, limit: nat)
    requires DecInt(data, tag, limit).Ok? && limit <= TWO64
    ensures var r := DecInt(data, tag, limit).value;
      r.value < limit && data == [tag] + U64(r.value) + r.rest
  {
    var body := data[1..];
    assert data == [tag] + body;
    LittleOfNumber(body[..8]);
    hide Number, Little;
    assert body == body[..8] + body[8..];
  }

  lemma ObjectRound(name: seq<Byte>, rest: seq<Byte>)
    requires |name| <= MAX_BLOB
    ensures DecObject(EncObject(name) + rest, name) == Ok(rest)
  {
    var body := EncText(name) + rest;
    assert EncObject(name) + rest == [OBJECT_TAG] + body;
    TagRound(OBJECT_TAG, body);
    BlobRound(name, 4, rest);
    hide DecBlob, GetTag;
  }

  lemma ObjectCanonical(data: seq<Byte>, name: seq<Byte>)
    requires DecObject(data, name).Ok?
    ensures |name| <= MAX_BLOB && data == EncObject(name) + DecObject(data, name).value
  {
    var rest := DecObject(data, name).value;
    assert data == [OBJECT_TAG] + data[1..];
    BlobCanonical(data[1..], 4);
    hide DecBlob;
    assert data[1..] == EncText(name) + rest;
  }

  // ---------------------------------------------------------------------
  // Decoding what was encoded.
  // ---------------------------------------------------------------------

  /** Decoding an encoding followed by anything returns the value and what follows. */
  lemma {:induction false} DecodeEncoded(s: Schema, v: Value, max: nat, rest: seq<Byte>)
    requires Typed(s, v) && InDomain(s, v, max)
    ensures Dec(s, Enc(s, v) + rest, max) == Ok(Read(v, rest))
    decreases s, 0
  {
    match s
    case Flag => TagRound(1, [if v.flag then 1 else 0] + rest); FlagRound(v, max, rest);
    case Unsigned(w) => IntRound(v.number, 2, Span(w), rest);
    case Signed(w) => IntRound(v.number, 3, Span(w) / 2, rest);
    case Text => BlobRound(v.bytes, 4, rest);
    case Blob => BlobRound(v.bytes, 5, rest);
    case Fixed32 => Fixed32Round(v, max, rest);
    case Identity => BlobRound(v.bytes, 4, rest);
    case Enumeration(names) => NameRound(names, v, max, rest);
    case Optional(of) => OptionalRound(of, v, max, rest);
    case Sequence(of) => SequenceRound(of, v, max, rest);
    case Record(name, fields) => RecordRound(name, fields, v, max, rest);
    case Variant(alternatives) => VariantRound(alternatives, v, max, rest);
  }

  lemma FlagRound(v: Value, max: nat, rest: seq<Byte>)
    requires Typed(Flag, v)
    ensures Dec(Flag, Enc(Flag, v) + rest, max) == Ok(Read(v, rest))
  {
    var bit: Byte := if v.flag then 1 else 0;
    assert Enc(Flag, v) + rest == [1] + ([bit] + rest);
    TagRound(1, [bit] + rest);
    assert ([bit] + rest)[1..] == rest;
  }

  lemma Fixed32Round(v: Value, max: nat, rest: seq<Byte>)
    requires Typed(Fixed32, v)
    ensures Dec(Fixed32, Enc(Fixed32, v) + rest, max) == Ok(Read(v, rest))
  {
    assert Enc(Fixed32, v) + rest == [9] + (v.bytes + rest);
    TagRound(9, v.bytes + rest);
    assert (v.bytes + rest)[..32] == v.bytes && (v.bytes + rest)[32..] == rest;
  }

  lemma NameRound(names: seq<seq<Byte>>, v: Value, max: nat, rest: seq<Byte>)
    requires Typed(Enumeration(names), v) && InDomain(Enumeration(names), v, max)
    ensures Dec(Enumeration(names), Enc(Enumeration(names), v) + rest, max) == Ok(Read(v, rest))
  {
    var body := EncText(names[v.index]) + rest;
    assert Enc(Enumeration(names), v) + rest == [8] + body;
    TagRound(8, body);
    BlobRound(names[v.index], 4, rest);
    hide DecBlob, GetTag, NameIndex;
  }

  /** Decoding a present optional value is decoding the value after its flag. */
  lemma PresentStep(of: Schema, body: seq<Byte>, max: nat)
    ensures var r := Dec(of, body, max);
      Dec(Optional(of), [1] + body, max) == if r.Err? then r else Ok(Read(Present(r.value.value), r.value.rest))
  {
    assert ([1] + body)[1..] == body;
  }

  lemma AbsentStep(of: Schema, rest: seq<Byte>, max: nat)
    ensures Dec(Optional(of), [0] + rest, max) == Ok(Read(Absent, rest))
  {
    assert ([0] + rest)[1..] == rest;
  }

  lemma EncPresent(of: Schema, v: Value, rest: seq<Byte>)
    requires Typed(of, v)
    ensures Typed(Optional(of), Present(v)) && Enc(Optional(of), Present(v)) + rest == [1] + (Enc(of, v) + rest)
  {
    assert [1] + Enc(of, v) + rest == [1] + (Enc(of, v) + rest);
  }

  lemma {:induction false} OptionalRound(of: Schema, v: Value, max: nat, rest: seq<Byte>)
    requires Typed(Optional(of), v) && InDomain(Optional(of), v, max)
    ensures Dec(Optional(of), Enc(Optional(of), v) + rest, max) == Ok(Read(v, rest))
    decreases of, 1
  {
    if v.Present? {
      DecodeEncoded(of, v.value, max, rest);
      EncPresent(of, v.value, rest);
      PresentStep(of, Enc(of, v.value) + rest, max);
      hide Dec, Enc;
    } else {
      assert Enc(Optional(of), v) == [0];
      AbsentStep(of, rest, max);
      hide Dec, Enc;
    }
  }

  lemma {:induction false} SequenceRound(of: Schema, v: Value, max: nat, rest: seq<Byte>)
    requires Typed(Sequence(of), v) && InDomain(Sequence(of), v, max)
    ensures Dec(Sequence(of), Enc(Sequence(of), v) + rest, max) == Ok(Read(v, rest))
    decreases of, |v.items| + 2
  {
    var n := |v.items|;
    var tail := EncItems(of, v.items) + rest;
    var body := U32(n) + tail;
    assert Enc(Sequence(of), v) + rest == [6] + body;
    TagRound(6, body);
    U32RoundTrip(n);
    assert body[..4] == U32(n) && body[4..] == tail;
    ItemsRound(of, v.items, max, rest);
    hide U32, GetTag, DecItems, EncItems;
  }

  lemma {:induction false} ItemsRound(of: Schema, vs: seq<Value>, max: nat, rest: seq<Byte>)
    requires forall x :: x in vs ==> Typed(of, x)
    requires forall x :: x in vs ==> InDomain(of, x, max)
    ensures DecItems(of, |vs|, EncItems(of, vs) + rest, max) == Ok(Read(vs, rest))
    decreases of, |vs| + 1
  {
    hide Dec, Enc, Typed, InDomain;
    if vs != [] {
      var tail := EncItems(of, vs[1..]) + rest;
      assert vs[0] in vs;
      DecodeEncoded(of, vs[0], max, tail);
      ItemsRound(of, vs[1..], max, rest);
      assert EncItems(of, vs) + rest == Enc(of, vs[0]) + tail;
      assert vs == [vs[0]] + vs[1..];
    } else {
      assert EncItems(of, vs) + rest == rest;
    }
  }

  lemma {:induction false} RecordRound(name: seq<Byte>, fields: seq<Schema>, v: Value, max: nat, rest: seq<Byte>)
    requires Typed(Record(name, fields), v) && InDomain(Record(name, fields), v, max)
    ensures Dec(Record(name, fields), Enc(Record(name, fields), v) + rest, max) == Ok(Read(v, rest))
    decreases fields, 1
  {
    var tail := EncFields(fields, v.members) + rest;
    assert Enc(Record(name, fields), v) + rest == EncObject(name) + tail;
    ObjectRound(name, tail);
    FieldsRound(fields, v.members, max, rest);
    hide DecObject, EncObject, DecFields, EncFields;
  }

  lemma {:induction false} FieldsRound(fields: seq<Schema>, vs: seq<Value>, max: nat, rest: seq<Byte>)
    requires TypedAll(fields, vs) && AllInDomain(fields, vs, max)
    ensures DecFields(fields, EncFields(fields, vs) + rest, max) == Ok(Read(vs, rest))
    decreases fields, 0
  {
    hide Dec, Enc, Typed, InDomain;
    if fields != [] {
      var tail := EncFields(fields[1..], vs[1..]) + rest;
      DecodeEncoded(fields[0], vs[0], max, tail);
      FieldsRound(fields[1..], vs[1..], max, rest);
      assert EncFields(fields, vs) + rest == Enc(fields[0], vs[0]) + tail;
      assert vs == [vs[0]] + vs[1..];
    } else {
      assert EncFields(fields, vs) + rest == rest;
    }
  }

  lemma {:induction false} VariantRound(alternatives: seq<Schema>, v: Value, max: nat, rest: seq<Byte>)
    requires Typed(Variant(alternatives), v) && InDomain(Variant(alternatives), v, max)
    ensures Dec(Variant(alternatives), Enc(Variant(alternatives), v) + rest, max) == Ok(Read(v, rest))
    decreases alternatives, 1
  {
    VariantEnc(alternatives, v.index, v.value, max);
    hide Enc, Dec, Typed, InDomain, DecObject, EncObject, DecInt, U64;
    var inner := Enc(alternatives[v.index], v.value);
    var body := [2] + U64(v.index) + (inner + rest);
    Regroup(EncObject(VARIANT_NAME), [2] + U64(v.index), inner, rest);
    ObjectRound(VARIANT_NAME, body);
    IntRound(v.index, 2, TWO32, inner + rest);
    DecodeEncoded(alternatives[v.index], v.value, max, rest);
    VariantIs(alternatives, EncObject(VARIANT_NAME) + body, max);
  }

  // ---------------------------------------------------------------------
  // Encoding what was decoded.
  // ---------------------------------------------------------------------

  /** The read value lies in the domain and its encoding is exactly what was read. */
  ghost predicate Faithful(s: Schema, data: seq<Byte>, max: nat, r: Read<Value>) {
    Typed(s, r.value) && InDomain(s, r.value, max) && data == Enc(s, r.value) + r.rest
  }

  /** Bytes that decode are the encoding of what they decode to. */
  lemma {:induction false} EncodeDecoded(s: Schema, data: seq<Byte>, max: nat)
    requires Dec(s, data, max).Ok?
    ensures Faithful(s, data, max, Dec(s, data, max).value)
    decreases s, 0
  {
    match s
    case Flag => FlagCanonical(data, max);
    case Unsigned(w) => IntCanonical(data, 2, Span(w));
    case Signed(w) => IntCanonical(data, 3, Span(w) / 2);
    case Text => BlobCanonical(data, 4);
    case Blob => BlobCanonical(data, 5);
    case Fixed32 => Fixed32Canonical(data, max);
    case Identity => BlobCanonical(data, 4);
    case Enumeration(names) => NameCanonical(names, data, max);
    case Optional(of) => OptionalCanonical(of, data, max);
    case Sequence(of) => SequenceCanonical(of, data, max);
    case Record(name, fields) => RecordCanonical(name, fields, data, max);
    case Variant(alternatives) => VariantCanonical(alternatives, data, max);
  }

  lemma FlagCanonical(data: seq<Byte>, max: nat)
    requires Dec(Flag, data, max).Ok?
    ensures Faithful(Flag, data, max, Dec(Flag, data, max).value)
  {
    var r := Dec(Flag, data, max).value;
    assert data == [1] + data[1..] && data[1..] == [data[1]] + r.rest;
  }

  lemma Fixed32Canonical(data: seq<Byte>, max: nat)
    requires Dec(Fixed32, data, max).Ok?
    ensures Faithful(Fixed32, data, max, Dec(Fixed32, data, max).value)
  {
    var r := Dec(Fixed32, data, max).value;
    assert data == [9] + data[1..] && data[1..] == r.value.bytes + r.rest;
  }

  lemma NameCanonical(names: seq<seq<Byte>>, data: seq<Byte>, max: nat)
    requires Dec(Enumeration(names), data, max).Ok?
    ensures Faithful(Enumeration(names), data, max, Dec(Enumeration(names), data, max).value)
  {
    var r := Dec(Enumeration(names), data, max).value;
    assert data == [8] + data[1..];
    BlobCanonical(data[1..], 4);
    hide DecBlob;
    FirstName(names, names[r.value.index], r.value.index);
    hide NameIndex;
    assert data[1..] == EncText(names[r.value.index]) + r.rest;
  }

  lemma FirstName(names: seq<seq<Byte>>, name: seq<Byte>, k: nat)
    requires k < |names| && names[k] == name && forall j :: 0 <= j < k ==> names[j] != name
    ensures NameIndex(names, name) == k
  {
    hide NameIndex;
  }

  lemma {:induction false} OptionalCanonical(of: Schema, data: seq<Byte>, max: nat)
    requires Dec(Optional(of), data, max).Ok?
    ensures Faithful(Optional(of), data, max, Dec(Optional(of), data, max).value)
    decreases of, 1
  {
    var r := Dec(Optional(of), data, max).value;
    assert data == [data[0]] + data[1..];
    if data[0] == 1 {
      var inner := Dec(of, data[1..], max);
      assert inner.Ok? && r == Read(Present(inner.value.value), inner.value.rest);
      EncodeDecoded(of, data[1..], max);
      EncPresent(of, inner.value.value, inner.value.rest);
      hide Dec, Enc;
    } else {
      assert r == Read(Absent, data[1..]) && Enc(Optional(of), Absent) == [0];
      hide Dec, Enc;
    }
  }

  lemma {:induction false} ItemsCanonical(of: Schema, n: nat, data: seq<Byte>, max: nat)
    requires DecItems(of, n, data, max).Ok?
    ensures var r := DecItems(of, n, data, max).value;
      && |r.value| == n && (forall x :: x in r.value ==> Typed(of, x)) && (forall x :: x in r.value ==> InDomain(of, x, max))
      && data == EncItems(of, r.value) + r.rest
    decreases of, n + 1
  {
    hide Dec, Enc, Typed, InDomain;
    if n > 0 {
      var first := Dec(of, data, max).value;
      var r := DecItems(of, n - 1, first.rest, max).value;
      EncodeDecoded(of, data, max);
      ItemsCanonical(of, n - 1, first.rest, max);
      var all := [first.value] + r.value;
      assert all[1..] == r.value && all[0] == first.value;
      assert Enc(of, first.value) + (EncItems(of, r.value) + r.rest) == Enc(of, first.value) + EncItems(of, r.value) + r.rest;
    } else {
      assert data == [] + data;
    }
  }

  lemma SequenceStep(of: Schema, data: seq<Byte>, max: nat)
    requires Dec(Sequence(of), data, max).Ok?
    ensures |data| >= 5 && data[0] == 6
    ensures var n := Number(data[1..5]);
      var r := DecItems(of, n, data[5..], max);
      n <= max && r.Ok? && Dec(Sequence(of), data, max) == Ok(Read(Items(r.value.value), r.value.rest))
  {
    hide DecItems, Number;
    assert |data| >= 5 ==> data[1..][..4] == data[1..5] && data[1..][4..] == data[5..];
  }

  lemma SequenceEnc(of: Schema, items: seq<Value>, max: nat)
    requires |items| <= max && |items| < TWO32
    requires (forall x :: x in items ==> Typed(of, x)) && (forall x :: x in items ==> InDomain(of, x, max))
    ensures Typed(Sequence(of), Items(items)) && InDomain(Sequence(of), Items(items), max)
    ensures Enc(Sequence(of), Items(items)) == [6] + U32(|items|) + EncItems(of, items)
  {
    hide EncItems, U32;
  }

  lemma {:induction false} SequenceCanonical(of: Schema, data: seq<Byte>, max: nat)
    requires Dec(Sequence(of), data, max).Ok?
    ensures Faithful(Sequence(of), data, max, Dec(Sequence(of), data, max).value)
    decreases of, TWO32 + 2
  {
    SequenceStep(of, data, max);
    hide Dec, Enc, DecItems, EncItems, Typed, InDomain;
    var n := Number(data[1..5]);
    LittleOfNumber(data[1..5]);
    WordBound(data[1..5]);
    hide Number, Little;
    var r := DecItems(of, n, data[5..], max).value;
    ItemsCanonical(of, n, data[5..], max);
    SequenceEnc(of, r.value, max);
    assert data == [6] + (data[1..5] + data[5..]);
    Regroup([6], U32(n), EncItems(of, r.value), r.rest);
  }

  lemma {:induction false} FieldsCanonical(fields: seq<Schema>, data: seq<Byte>, max: nat)
    requires DecFields(fields, data, max).Ok?
    ensures var r := DecFields(fields, data, max).value;
      TypedAll(fields, r.value) && AllInDomain(fields, r.value, max) && data == EncFields(fields, r.value) + r.rest
    decreases fields, 0
  {
    hide Dec, Enc, Typed, InDomain;
    if fields != [] {
      var first := Dec(fields[0], data, max).value;
      var r := DecFields(fields[1..], first.rest, max).value;
      EncodeDecoded(fields[0], data, max);
      FieldsCanonical(fields[1..], first.rest, max);
      var all := [first.value] + r.value;
      assert all[1..] == r.value && all[0] == first.value;
      assert Enc(fields[0], first.value) + (EncFields(fields[1..], r.value) + r.rest)
          == Enc(fields[0], first.value) + EncFields(fields[1..], r.value) + r.rest;
    } else {
      assert data == [] + data;
    }
  }

  lemma {:induction false} RecordCanonical(name: seq<Byte>, fields: seq<Schema>, data: seq<Byte>, max: nat)
    requires Dec(Record(name, fields), data, max).Ok?
    ensures Faithful(Record(name, fields), data, max, Dec(Record(name, fields), data, max).value)
    decreases fields, 1
  {
    var r := Dec(Record(name, fields), data, max).value;
    var body := DecObject(data, name).value;
    ObjectCanonical(data, name);
    FieldsCanonical(fields, body, max);
    hide DecObject, EncObject, DecFields, EncFields;
    assert EncObject(name) + (EncFields(fields, r.value.members) + r.rest) == EncObject(name) + EncFields(fields, r.value.members) + r.rest;
  }

  /** One level of decoding a variant. */
  lemma VariantIs(alternatives: seq<Schema>, here: seq<Byte>, max: nat)
    ensures Dec(Variant(alternatives), here, max) ==
      var o := DecObject(here, VARIANT_NAME);
      if o.Err? then Err(o.code)
      else
        var n := DecInt(o.value, 2, TWO32);
        if n.Err? then Err(n.code)
        else if n.value.value >= |alternatives| then Err(InvalidEnumeration)
        else
          var r := Dec(alternatives[n.value.value], n.value.rest, max);
          if r.Err? then r else Ok(Read(Alternative(n.value.value, r.value.value), r.value.rest))
  {
    hide DecInt, DecObject;
  }

  lemma VariantStep(alternatives: seq<Schema>, data: seq<Byte>, max: nat)
    requires Dec(Variant(alternatives), data, max).Ok?
    ensures var o := DecObject(data, VARIANT_NAME);
      && o.Ok?
      && var n := DecInt(o.value, 2, TWO32);
      && n.Ok? && n.value.value < |alternatives|
      && var r := Dec(alternatives[n.value.value], n.value.rest, max);
      && r.Ok? && Dec(Variant(alternatives), data, max) == Ok(Read(Alternative(n.value.value, r.value.value), r.value.rest))
  {
    hide DecObject, DecInt;
  }

  lemma VariantEnc(alternatives: seq<Schema>, k: nat, v: Value, max: nat)
    requires k < |alternatives| && k < TWO32 && Typed(alternatives[k], v) && InDomain(alternatives[k], v, max)
    ensures Typed(Variant(alternatives), Alternative(k, v)) && InDomain(Variant(alternatives), Alternative(k, v), max)
    ensures Enc(Variant(alternatives), Alternative(k, v)) == EncObject(VARIANT_NAME) + ([2] + U64(k)) + Enc(alternatives[k], v)
  {
    hide EncObject, U64;
  }

  lemma {:induction false} VariantCanonical(alternatives: seq<Schema>, data: seq<Byte>, max: nat)
    requires Dec(Variant(alternatives), data, max).Ok?
    ensures Faithful(Variant(alternatives), data, max, Dec(Variant(alternatives), data, max).value)
    decreases alternatives, 1
  {
    VariantStep(alternatives, data, max);
    hide Dec, Enc, Typed, InDomain;
    var body := DecObject(data, VARIANT_NAME).value;
    ObjectCanonical(data, VARIANT_NAME);
    var n := DecInt(body, 2, TWO32).value;
    IntCanonical(body, 2, TWO32);
    hide DecObject, EncObject, DecInt, U64;
    EncodeDecoded(alternatives[n.value], n.rest, max);
    var r := Dec(alternatives[n.value], n.rest, max).value;
    VariantEnc(alternatives, n.value, r.value, max);
    Regroup(EncObject(VARIANT_NAME), [2] + U64(n.value), Enc(alternatives[n.value], r.value), r.rest);
  }

  lemma Regroup(a: seq<Byte>, b: seq<Byte>, c: seq<Byte>, d: seq<Byte>)
    ensures a + (b + (c + d)) == a + b + c + d
  {
  }

  // ---------------------------------------------------------------------
  // The codec.
  // ---------------------------------------------------------------------

  /** A value comes back from its encoding exactly when it lies in the domain. */
  lemma RoundTripExactly(s: Schema, v: Value, max: nat)
    requires Typed(s, v)
    ensures Decode(s, Enc(s, v), max) == Ok(v) <==> InDomain(s, v, max)
  {
    assert Enc(s, v) + [] == Enc(s, v);
    if InDomain(s, v, max) { DecodeEncoded(s, v, max, []); }
    if Decode(s, Enc(s, v), max) == Ok(v) { EncodeDecoded(s, Enc(s, v), max); }
    hide Dec, Enc;
  }

  /** Only one byte string decodes to a value: its encoding. */
  lemma DecodesOnlyEncodings(s: Schema, data: seq<Byte>, max: nat)
    requires Decode(s, data, max).Ok?
    ensures var v := Decode(s, data, max).value;
      Typed(s, v) && InDomain(s, v, max) && data == Enc(s, v)
  {
    EncodeDecoded(s, data, max);
    hide Dec, Enc;
    assert forall x: seq<Byte> :: x + [] == x;
  }

  /** No strict prefix or extension of bytes that decode also decodes. */
  lemma PrefixFree(s: Schema, data: seq<Byte>, more: seq<Byte>, max: nat)
    requires Decode(s, data, max).Ok? && Decode(s, data + more, max).Ok?
    ensures more == []
  {
    DecodesOnlyEncodings(s, data, max);
    var v := Decode(s, data, max).value;
    DecodeEncoded(s, v, max, more);
    hide Dec, Enc;
  }

  /** Different values of the domain have different encodings. */
  lemma EncodingInjective(s: Schema, v: Value, w: Value, max: nat)
    requires Typed(s, v) && Typed(s, w) && InDomain(s, v, max) && InDomain(s, w, max) && Enc(s, v) == Enc(s, w)
    ensures v == w
  {
    RoundTripExactly(s, v, max);
    RoundTripExactly(s, w, max);
    hide Dec, Enc, Decode, InDomain, Typed;
  }
}
