/** The binary archive over every schema: values, their encoding, and decoding with
    the first refusal kept. */
module Archive {
  import opened Base
  import opened Bytes

  // ---------------------------------------------------------------------
  // Schemas and values.
  // ---------------------------------------------------------------------

  datatype Width = W8 | W16 | W32 | W64

  function Span(w: Width): nat {
    match w
    case W8 => 0x100
    case W16 => 0x1_0000
    case W32 => TWO32
    case W64 => TWO64
  }

  /** What `do_value` dispatches on. A counter is an unsigned 64-bit field. */
  datatype Schema =
    | Flag
    | Unsigned(width: Width)
    | Signed(width: Width)
    | Text
    | Blob
    | Fixed32
    | Identity
    | Enumeration(names: seq<seq<Byte>>)
    | Optional(of: Schema)
    | Sequence(of: Schema)
    | Record(name: seq<Byte>, fields: seq<Schema>)
    | Variant(alternatives: seq<Schema>)

  datatype Value =
    | Bool(flag: bool)
    | Int(number: int)
    | Raw(bytes: seq<Byte>)
    | Choice(index: nat)
    | Absent
    | Present(value: Value)
    | Items(items: seq<Value>)
    | Tuple(members: seq<Value>)
    | Alternative(index: nat, value: Value)

  const MAX_BLOB: nat := 0x10_0000

  const OBJECT_TAG: Byte := 7

  /** The type name variants are written under. */
  const VARIANT_NAME: seq<Byte> := [86, 97, 114, 105, 97, 110, 116]

  predicate Letter(b: Byte) { 65 <= b <= 90 || 97 <= b <= 122 }
  predicate Digit(b: Byte) { 48 <= b <= 57 }

  /** Identity text: a letter or digit, then letters, digits and `.`, `_`, `:`, `-`. */
  predicate IdentityText(bytes: seq<Byte>) {
    && 0 < |bytes| <= 64 && (Letter(bytes[0]) || Digit(bytes[0]))
    && forall b :: b in bytes ==> Letter(b) || Digit(b) || b == 46 || b == 95 || b == 58 || b == 45
  }

  /** The values a field of this type can hold. */
  ghost predicate Typed(s: Schema, v: Value) {
    match s
    case Flag => v.Bool?
    case Unsigned(w) => v.Int? && 0 <= v.number < Span(w)
    case Signed(w) => v.Int? && 0 <= 2 * v.number + Span(w) && 2 * v.number < Span(w)
    case Text => v.Raw?
    case Blob => v.Raw?
    case Fixed32 => v.Raw? && |v.bytes| == 32
    case Identity => v.Raw? && (v.bytes == [] || IdentityText(v.bytes))
    case Enumeration(names) => v.Choice? && v.index < |names|
    case Optional(of) => v.Absent? || (v.Present? && Typed(of, v.value))
    case Sequence(of) => v.Items? && forall x :: x in v.items ==> Typed(of, x)
    case Record(_, fields) => v.Tuple? && TypedAll(fields, v.members)
    case Variant(alternatives) =>
      v.Alternative? && v.index < |alternatives| && Typed(alternatives[v.index], v.value)
  }

  ghost predicate TypedAll(fields: seq<Schema>, vs: seq<Value>) {
    if fields == [] then vs == [] else vs != [] && Typed(fields[0], vs[0]) && TypedAll(fields[1..], vs[1..])
  }

  // ---------------------------------------------------------------------
  // Encoding.
  // ---------------------------------------------------------------------

  function EncText(bytes: seq<Byte>): seq<Byte> { [4] + U32(|bytes|) + bytes }

  function EncObject(name: seq<Byte>): seq<Byte> { [OBJECT_TAG] + EncText(name) }

  /** Two's complement in 64 bits. */
  function Twos(n: int): nat
    requires 0 <= n + TWO64 && n < TWO64
  {
    if n < 0 then n + TWO64 else n
  }

  function CountWord(n: nat): nat { if n >= TWO32 then TWO32 - 1 else n }

  ghost function Enc(s: Schema, v: Value): seq<Byte>
    requires Typed(s, v)
    decreases s, 0
  {
    match s
    case Flag => [1, if v.flag then 1 else 0]
    case Unsigned(_) => [2] + U64(v.number)
    case Signed(_) => [3] + U64(Twos(v.number))
    case Text => EncText(v.bytes)
    case Blob => [5] + U32(|v.bytes|) + v.bytes
    case Fixed32 => [9] + v.bytes
    case Identity => EncText(v.bytes)
    case Enumeration(names) => [8] + EncText(names[v.index])
    case Optional(of) => if v.Absent? then [0] else [1] + Enc(of, v.value)
    case Sequence(of) => [6] + U32(CountWord(|v.items|)) + EncItems(of, v.items)
    case Record(name, fields) => EncObject(name) + EncFields(fields, v.members)
    case Variant(alternatives) =>
      EncObject(VARIANT_NAME) + ([2] + U64(v.index % TWO32)) + Enc(alternatives[v.index], v.value)
  }

  ghost function EncItems(of: Schema, vs: seq<Value>): seq<Byte>
    requires forall x :: x in vs ==> Typed(of, x)
    decreases of, |vs| + 1
  {
    if vs == [] then [] else Enc(of, vs[0]) + EncItems(of, vs[1..])
  }

  ghost function EncFields(fields: seq<Schema>, vs: seq<Value>): seq<Byte>
    requires TypedAll(fields, vs)
    decreases fields, 0
  {
    if fields == [] then [] else Enc(fields[0], vs[0]) + EncFields(fields[1..], vs[1..])
  }

  // ---------------------------------------------------------------------
  // Decoding.
  // ---------------------------------------------------------------------

  function GetTag(data: seq<Byte>, tag: Byte): Result<seq<Byte>> {
    if data == [] then Err(TruncatedInput)
    else if data[0] != tag then Err(InvalidTag)
    else Ok(data[1..])
  }

  function GetWord(data: seq<Byte>, k: nat): Result<Read<nat>> {
    if |data| < k then Err(TruncatedInput) else Ok(Read(Number(data[..k]), data[k..]))
  }

  function GetRaw(data: seq<Byte>, n: nat): Result<Read<seq<Byte>>> {
    if |data| < n then Err(TruncatedInput) else Ok(Read(data[..n], data[n..]))
  }

  /** A length-prefixed byte string under the given tag. */
  function DecBlob(data: seq<Byte>, tag: Byte): Result<Read<seq<Byte>>> {
    var t := GetTag(data, tag);
    if t.Err? then Err(t.code)
    else
      var n := GetWord(t.value, 4);
      if n.Err? then Err(n.code)
      else if n.value.value > MAX_BLOB then Err(OversizedInput)
      else GetRaw(n.value.rest, n.value.value)
  }

  function DecObject(data: seq<Byte>, name: seq<Byte>): Result<seq<Byte>> {
    var t := GetTag(data, OBJECT_TAG);
    if t.Err? then Err(t.code)
    else
      var text := DecBlob(t.value, 4);
      if text.Err? then Err(text.code)
      else if text.value.value != name then Err(InvalidTag)
      else Ok(text.value.rest)
  }

  function DecInt(data: seq<Byte>, tag: Byte, limit: nat): Result<Read<nat>> {
    var t := GetTag(data, tag);
    if t.Err? then Err(t.code)
    else
      var n := GetWord(t.value, 8);
      if n.Err? then n
      else if n.value.value >= limit then Err(ValueOutOfRange)
      else n
  }

  function NameIndex(names: seq<seq<Byte>>, name: seq<Byte>): (k: nat)
    ensures k <= |names| && (k < |names| ==> names[k] == name)
    ensures forall j :: 0 <= j < k ==> names[j] != name
  {
    if names == [] || names[0] == name then 0 else 1 + NameIndex(names[1..], name)
  }

  function Dec(s: Schema, data: seq<Byte>, max: nat): Result<Read<Value>>
    decreases s, 0
  {
    match s
    case Flag =>
      var t := GetTag(data, 1);
      if t.Err? then Err(t.code)
      else if t.value == [] then Err(TruncatedInput)
      else if t.value[0] > 1 then Err(MalformedInput)
      else Ok(Read(Bool(t.value[0] == 1), t.value[1..]))
    case Unsigned(w) =>
      var n := DecInt(data, 2, Span(w));
      if n.Err? then Err(n.code) else Ok(Read(Int(n.value.value), n.value.rest))
    case Signed(w) =>
      var n := DecInt(data, 3, Span(w) / 2);
      if n.Err? then Err(n.code) else Ok(Read(Int(n.value.value), n.value.rest))
    case Text =>
      var b := DecBlob(data, 4);
      if b.Err? then Err(b.code) else Ok(Read(Raw(b.value.value), b.value.rest))
    case Blob =>
      var b := DecBlob(data, 5);
      if b.Err? then Err(b.code) else Ok(Read(Raw(b.value.value), b.value.rest))
    case Fixed32 =>
      var t := GetTag(data, 9);
      if t.Err? then Err(t.code)
      else
        var b := GetRaw(t.value, 32);
        if b.Err? then Err(b.code) else Ok(Read(Raw(b.value.value), b.value.rest))
    case Identity =>
      var b := DecBlob(data, 4);
      if b.Err? then Err(b.code)
      else if b.value.value == [] || IdentityText(b.value.value) then Ok(Read(Raw(b.value.value), b.value.rest))
      else Err(if |b.value.value| > 64 then OversizedInput else InvalidIdentity)
    case Enumeration(names) =>
      var t := GetTag(data, 8);
      if t.Err? then Err(t.code)
      else
        var b := DecBlob(t.value, 4);
        if b.Err? then Err(b.code)
        else
          var k := NameIndex(names, b.value.value);
          if k == |names| then Err(InvalidEnumeration) else Ok(Read(Choice(k), b.value.rest))
    case Optional(of) =>
      if data == [] then Err(TruncatedInput)
      else if data[0] > 1 then Err(MalformedInput)
      else if data[0] == 0 then Ok(Read(Absent, data[1..]))
      else
        var r := Dec(of, data[1..], max);
        if r.Err? then r else Ok(Read(Present(r.value.value), r.value.rest))
    case Sequence(of) =>
      var t := GetTag(data, 6);
      if t.Err? then Err(t.code)
      else
        var n := GetWord(t.value, 4);
        if n.Err? then Err(n.code)
        else if n.value.value > max then Err(OversizedInput)
        else
          var r := DecItems(of, n.value.value, n.value.rest, max);
          if r.Err? then Err(r.code) else Ok(Read(Items(r.value.value), r.value.rest))
    case Record(name, fields) =>
      var o := DecObject(data, name);
      if o.Err? then Err(o.code)
      else
        var r := DecFields(fields, o.value, max);
        if r.Err? then Err(r.code) else Ok(Read(Tuple(r.value.value), r.value.rest))
    case Variant(alternatives) =>
      var o := DecObject(data, VARIANT_NAME);
      if o.Err? then Err(o.code)
      else
        var n := DecInt(o.value, 2, TWO32);
        if n.Err? then Err(n.code)
        else if n.value.value >= |alternatives| then Err(InvalidEnumeration)
        else
          var r := Dec(alternatives[n.value.value], n.value.rest, max);
          if r.Err? then r else Ok(Read(Alternative(n.value.value, r.value.value), r.value.rest))
  }

  function DecItems(of: Schema, n: nat, data: seq<Byte>, max: nat): Result<Read<seq<Value>>>
    decreases of, n + 1
  {
    if n == 0 then Ok(Read([], data))
    else
      var first := Dec(of, data, max);
      if first.Err? then Err(first.code)
      else
        var r := DecItems(of, n - 1, first.value.rest, max);
        if r.Err? then r else Ok(Read([first.value.value] + r.value.value, r.value.rest))
  }

  function DecFields(fields: seq<Schema>, data: seq<Byte>, max: nat): Result<Read<seq<Value>>>
    decreases fields, 0
  {
    if fields == [] then Ok(Read([], data))
    else
      var first := Dec(fields[0], data, max);
      if first.Err? then Err(first.code)
      else
        var r := DecFields(fields[1..], first.value.rest, max);
        if r.Err? then r else Ok(Read([first.value.value] + r.value.value, r.value.rest))
  }

  /** `decode_binary`: one value and nothing after it. */
  function Decode(s: Schema, data: seq<Byte>, max: nat): Result<Value> {
    var r := Dec(s, data, max);
    if r.Err? then Err(r.code)
    else if r.value.rest != [] then Err(MalformedInput)
    else Ok(r.value.value)
  }

  // ---------------------------------------------------------------------
  // The domain of the codec.
  // ---------------------------------------------------------------------

  /** The values that survive: no negative signed field, no text or blob beyond the
      blob bound, no sequence beyond the reader's bound. */
  ghost predicate InDomain(s: Schema, v: Value, max: nat)
    requires Typed(s, v)
  {
    match s
    case Signed(_) => v.number >= 0
    case Text => |v.bytes| <= MAX_BLOB
    case Blob => |v.bytes| <= MAX_BLOB
    case Enumeration(names) => |names[v.index]| <= MAX_BLOB && NameIndex(names, names[v.index]) == v.index
    case Optional(of) => v.Present? ==> InDomain(of, v.value, max)
    case Sequence(of) => |v.items| <= max && |v.items| < TWO32 && forall x :: x in v.items ==> InDomain(of, x, max)
    case Record(name, fields) => |name| <= MAX_BLOB && AllInDomain(fields, v.members, max)
    case Variant(alternatives) => v.index < TWO32 && InDomain(alternatives[v.index], v.value, max)
    case _ => true
  }

  ghost predicate AllInDomain(fields: seq<Schema>, vs: seq<Value>, max: nat)
    requires TypedAll(fields, vs)
  {
    fields == [] || (InDomain(fields[0], vs[0], max) && AllInDomain(fields[1..], vs[1..], max))
  }
}
