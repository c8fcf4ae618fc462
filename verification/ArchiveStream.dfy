/** The writer appends to a buffer and the reader walks a position with a sticky
    status; both carry out exactly the codec. */
module ArchiveStream {
  import opened Base
  import opened Bytes
  import opened Archive
  import opened ArchiveCodec

  lemma {:induction false} EncItemsSnoc(of: Schema, vs: seq<Value>, i: nat)
    requires i < |vs| && forall x :: x in vs ==> Typed(of, x)
    ensures EncItems(of, vs[..i + 1]) == EncItems(of, vs[..i]) + Enc(of, vs[i])
    decreases i
  {
    hide Enc, Typed;
    if i == 0 {
      assert vs[..1][1..] == [] && vs[..0] == [];
      assert EncItems(of, []) == [];
      assert Enc(of, vs[0]) + [] == Enc(of, vs[0]) && [] + Enc(of, vs[0]) == Enc(of, vs[0]);
    } else {
      var tail := vs[1..];
      assert vs[..i + 1][1..] == tail[..i] && vs[..i][1..] == tail[..i - 1] && tail[i - 1] == vs[i];
      EncItemsSnoc(of, tail, i - 1);
      assert Enc(of, vs[0]) + (EncItems(of, tail[..i - 1]) + Enc(of, vs[i]))
          == Enc(of, vs[0]) + EncItems(of, tail[..i - 1]) + Enc(of, vs[i]);
    }
  }

  lemma U32Bytes(n: nat)
    ensures U32(n) == [n % 256, n / 256 % 256, n / 256 / 256 % 256, n / 256 / 256 / 256 % 256]
  {
    var a := n / 256;
    var b := a / 256;
    var c := b / 256;
    assert Little(c, 1) == [c % 256] + Little(c / 256, 0);
    assert Little(b, 2) == [b % 256] + Little(c, 1);
    assert Little(a, 3) == [a % 256] + Little(b, 2);
  }

  class BinaryWriter {
    var buffer: seq<Byte>

    constructor ()
      ensures buffer == []
    {
      buffer := [];
    }

    method PutU8(b: Byte)
      modifies this
      ensures buffer == old(buffer) + [b]
    {
      buffer := buffer + [b];
    }

    method PutU32(n: nat)
      modifies this
      ensures buffer == old(buffer) + U32(n)
    {
      U32Bytes(n);
      PutU8(n % 256);
      PutU8(n / 256 % 256);
      PutU8(n / 256 / 256 % 256);
      PutU8(n / 256 / 256 / 256 % 256);
    }

    method PutU64(n: nat)
      modifies this
      ensures buffer == old(buffer) + U64(n)
    {
      var k, left := 0, n;
      ghost var start := buffer;
      while k < 8
        invariant 0 <= k <= 8 && |buffer| == |start| + k
        invariant buffer + Little(left, 8 - k) == start + Little(n, 8)
      {
        assert Little(left, 8 - k) == [left % 256] + Little(left / 256, 7 - k);
        assert buffer + ([left % 256] + Little(left / 256, 7 - k)) == buffer + [left % 256] + Little(left / 256, 7 - k);
        PutU8(left % 256);
        k, left := k + 1, left / 256;
      }
      assert buffer + [] == buffer;
    }

    method PutRaw(data: seq<Byte>)
      modifies this
      ensures buffer == old(buffer) + data
    {
      buffer := buffer + data;
    }

    /** A tagged, length-prefixed byte string. */
    method PutBlob(tag: Byte, bytes: seq<Byte>)
      modifies this
      ensures buffer == old(buffer) + ([tag] + U32(|bytes|) + bytes)
    {
      PutU8(tag);
      PutU32(|bytes|);
      PutRaw(bytes);
      assert old(buffer) + [tag] + U32(|bytes|) + bytes == old(buffer) + ([tag] + U32(|bytes|) + bytes);
    }

    method PutInt(tag: Byte, n: nat)
      modifies this
      ensures buffer == old(buffer) + ([tag] + U64(n))
    {
      PutU8(tag);
      PutU64(n);
      assert old(buffer) + [tag] + U64(n) == old(buffer) + ([tag] + U64(n));
    }

    method BeginObject(name: seq<Byte>)
      modifies this
      ensures buffer == old(buffer) + EncObject(name)
    {
      PutU8(OBJECT_TAG);
      PutBlob(4, name);
      assert old(buffer) + [OBJECT_TAG] + EncText(name) == old(buffer) + EncObject(name);
    }

    /** `do_value`: appends exactly the encoding of the value. */
    method PutValue(s: Schema, v: Value)
      requires Typed(s, v)
      modifies this
      ensures buffer == old(buffer) + Enc(s, v)
      decreases s, 2
    {
      match s
      case Flag => PutRaw([1, if v.flag then 1 else 0]);
      case Unsigned(_) => PutInt(2, v.number);
      case Signed(_) => PutInt(3, Twos(v.number));
      case Text => PutBlob(4, v.bytes);
      case Blob => PutBlob(5, v.bytes);
      case Fixed32 => PutRaw([9] + v.bytes);
      case Identity => PutBlob(4, v.bytes);
      case Enumeration(names) =>
        PutU8(8);
        PutBlob(4, names[v.index]);
        assert old(buffer) + [8] + EncText(names[v.index]) == old(buffer) + ([8] + EncText(names[v.index]));
      case Optional(of) => PutOptional(of, v);
      case Sequence(of) => PutSequence(of, v.items);
      case Record(name, fields) =>
        BeginObject(name);
        PutFields(fields, v.members);
        Chain(old(buffer), EncObject(name), EncFields(fields, v.members));
      case Variant(alternatives) => PutVariant(alternatives, v.index, v.value);
    }

    method PutOptional(of: Schema, v: Value)
      requires Typed(Optional(of), v)
      modifies this
      ensures buffer == old(buffer) + Enc(Optional(of), v)
      decreases of, 3
    {
      if v.Absent? {
        PutU8(0);
      } else {
        PutU8(1);
        PutValue(of, v.value);
        Chain(old(buffer), [1], Enc(of, v.value));
      }
    }

    method PutSequence(of: Schema, items: seq<Value>)
      requires forall x :: x in items ==> Typed(of, x)
      modifies this
      ensures buffer == old(buffer) + ([6] + U32(CountWord(|items|)) + EncItems(of, items))
      decreases of, 3
    {
      hide Enc, Typed, U32;
      PutU8(6);
      PutU32(CountWord(|items|));
      ghost var head := [6] + U32(CountWord(|items|));
      Chain(old(buffer), [6], U32(CountWord(|items|)));
      var i := 0;
      assert items[..0] == [];
      while i < |items|
        invariant 0 <= i <= |items|
        invariant buffer == old(buffer) + head + EncItems(of, items[..i])
      {
        EncItemsSnoc(of, items, i);
        PutValue(of, items[i]);
        Chain(old(buffer) + head, EncItems(of, items[..i]), Enc(of, items[i]));
        i := i + 1;
      }
      assert items[..|items|] == items;
      Chain(old(buffer), head, EncItems(of, items));
    }

    method PutFields(fields: seq<Schema>, vs: seq<Value>)
      requires TypedAll(fields, vs)
      modifies this
      ensures buffer == old(buffer) + EncFields(fields, vs)
      decreases fields, 1
    {
      if fields != [] {
        PutValue(fields[0], vs[0]);
        PutFields(fields[1..], vs[1..]);
        Chain(old(buffer), Enc(fields[0], vs[0]), EncFields(fields[1..], vs[1..]));
      }
    }

    method PutVariant(alternatives: seq<Schema>, index: nat, v: Value)
      requires index < |alternatives| && Typed(alternatives[index], v)
      modifies this
      ensures buffer == old(buffer) + (EncObject(VARIANT_NAME) + ([2] + U64(index % TWO32)) + Enc(alternatives[index], v))
      decreases alternatives, 1
    {
      hide Enc, EncObject, U64;
      BeginObject(VARIANT_NAME);
      PutInt(2, index % TWO32);
      PutValue(alternatives[index], v);
      Chain(old(buffer), EncObject(VARIANT_NAME), [2] + U64(index % TWO32));
      Chain(old(buffer), EncObject(VARIANT_NAME) + ([2] + U64(index % TWO32)), Enc(alternatives[index], v));
    }
  }

  /** `encode_binary` */
  method EncodeBinary(s: Schema, v: Value) returns (bytes: seq<Byte>)
    requires Typed(s, v)
    ensures bytes == Enc(s, v)
    ensures forall max :: InDomain(s, v, max) ==> Decode(s, bytes, max) == Ok(v)
  {
    var writer := new BinaryWriter();
    writer.PutValue(s, v);
    bytes := writer.buffer;
    hide Enc, Decode, InDomain, Typed;
    ghost var image := bytes;
    assert image == Enc(s, v);
    forall max | InDomain(s, v, max) ensures Decode(s, bytes, max) == Ok(v) { RoundTripExactly(s, v, max); }
  }

  // ---------------------------------------------------------------------
  // Reading.
  // ---------------------------------------------------------------------

  /** What reading leaves behind: nothing moves once refused, otherwise the outcome of
      the codec on the remaining bytes. */
  ghost predicate Carried<T>(before: Reason, from: nat, data: seq<Byte>, outcome: Result<Read<T>>,
                             after: Reason, to: nat, value: T)
    requires from <= |data|
  {
    && to <= |data|
    && if before != Nominal then after == before && to == from
       else if outcome.Ok? then after == Nominal && value == outcome.value.value && data[to..] == outcome.value.rest
       else after == outcome.code && after != Nominal
  }

  class BinaryReader {
    const data: seq<Byte>
    const max: nat
    var position: nat
    var status: Reason

    ghost predicate Valid() reads this { position <= |data| }

    constructor (bytes: seq<Byte>, bound: nat)
      ensures Valid() && data == bytes && max == bound && position == 0 && status == Nominal
    {
      data, max, position, status := bytes, bound, 0, Nominal;
    }

    /** Only the first refusal is kept. */
    method Fail(code: Reason)
      requires Valid()
      modifies this
      ensures Valid() && position == old(position)
      ensures status == if old(status) == Nominal then code else old(status)
    {
      if status == Nominal { status := code; }
    }

    method GetU8() returns (b: Byte)
      requires Valid()
      modifies this
      ensures Valid()
      ensures if old(status) != Nominal then status == old(status) && position == old(position) && b == 0
              else if old(position) < |data|
              then status == Nominal && position == old(position) + 1 && b == data[old(position)]
              else status == TruncatedInput && position == old(position) && b == 0
    {
      if status != Nominal { return 0; }
      if position >= |data| {
        Fail(TruncatedInput);
        return 0;
      }
      b := data[position];
      position := position + 1;
    }

    /** `get_u32` and `get_u64`: little-endian accumulation. */
    method GetNumber(k: nat) returns (n: nat)
      requires Valid()
      modifies this
      ensures Valid() && Carried(old(status), old(position), data, GetWord(data[old(position)..], k), status, position, n)
    {
      ghost var from := position;
      ghost var before := status;
      n := 0;
      var i: nat, weight: nat := 0, 1;
      while i < k
        invariant 0 <= i <= k && position <= |data| && weight == Pow256(i)
        invariant before != Nominal ==> status == before && position == from
        invariant before == Nominal && status == Nominal ==> position == from + i && n == Number(data[from..from + i])
        invariant before == Nominal && status != Nominal ==> status == TruncatedInput && |data| - from < k
      {
        ghost var was := position;
        var b := GetU8();
        if before == Nominal && status == Nominal {
          OneMore(data, from, i, b, n, weight);
        }
        n := n + b * weight;
        i, weight := i + 1, 256 * weight;
      }
      if before == Nominal && status == Nominal {
        assert data[from..][..k] == data[from..from + k] && data[from..][k..] == data[from + k..];
      }
    }

    method TakeRaw(n: nat) returns (bytes: seq<Byte>)
      requires Valid()
      modifies this
      ensures Valid() && Carried(old(status), old(position), data, GetRaw(data[old(position)..], n), status, position, bytes)
    {
      if status != Nominal { return []; }
      if n > |data| - position {
        Fail(TruncatedInput);
        return [];
      }
      bytes := data[position..position + n];
      assert data[position..][..n] == bytes && data[position..][n..] == data[position + n..];
      position := position + n;
    }

    method ExpectTag(tag: Byte) returns (ok: bool)
      requires Valid()
      modifies this
      ensures Valid() && ok == (status == Nominal)
      ensures old(status) != Nominal ==> status == old(status) && position == old(position)
      ensures old(status) == Nominal ==>
        var t := GetTag(data[old(position)..], tag);
        if t.Ok? then status == Nominal && data[position..] == t.value else status == t.code && status != Nominal
    {
      if status != Nominal { return false; }
      var raw := GetU8();
      if status != Nominal { return false; }
      if raw != tag {
        Fail(InvalidTag);
        return false;
      }
      assert data[old(position)..][1..] == data[position..];
      return true;
    }

    method GetBlob(tag: Byte) returns (bytes: seq<Byte>)
      requires Valid()
      modifies this
      ensures Valid() && Carried(old(status), old(position), data, DecBlob(data[old(position)..], tag), status, position, bytes)
    {
      var ok := ExpectTag(tag);
      if !ok { return []; }
      var n := GetNumber(4);
      if status != Nominal { return []; }
      if n > MAX_BLOB {
        Fail(OversizedInput);
        return [];
      }
      bytes := TakeRaw(n);
    }

    method GetInt(tag: Byte, limit: nat) returns (n: nat)
      requires Valid()
      modifies this
      ensures Valid() && Carried(old(status), old(position), data, DecInt(data[old(position)..], tag, limit), status, position, n)
    {
      var ok := ExpectTag(tag);
      if !ok { return 0; }
      n := GetNumber(8);
      if status != Nominal { return 0; }
      if n >= limit { Fail(ValueOutOfRange); }
    }

    method BeginObject(name: seq<Byte>)
      requires Valid()
      modifies this
      ensures Valid()
      ensures old(status) != Nominal ==> status == old(status) && position == old(position)
      ensures old(status) == Nominal ==>
        var o := DecObject(data[old(position)..], name);
        if o.Ok? then status == Nominal && data[position..] == o.value else status == o.code && status != Nominal
    {
      var ok := ExpectTag(OBJECT_TAG);
      if !ok { return; }
      var text := GetBlob(4);
      if status != Nominal { return; }
      if text != name { Fail(InvalidTag); }
    }

    /** `do_value`: reads exactly what the codec decodes at the current position. */
    method GetValue(s: Schema) returns (v: Value)
      requires Valid()
      modifies this
      ensures Valid() && Carried(old(status), old(position), data, Dec(s, data[old(position)..], max), status, position, v)
      decreases s, 2
    {
      match s
      case Flag => v := GetFlag();
      case Unsigned(w) =>
        var n := GetInt(2, Span(w));
        v := Int(n);
      case Signed(w) =>
        var n := GetInt(3, Span(w) / 2);
        v := Int(n);
      case Text =>
        var b := GetBlob(4);
        v := Raw(b);
      case Blob =>
        var b := GetBlob(5);
        v := Raw(b);
      case Fixed32 => v := GetFixed32();
      case Identity => v := GetIdentity();
      case Enumeration(names) => v := GetName(names);
      case Optional(of) => v := GetOptional(of);
      case Sequence(of) => v := GetSequence(of);
      case Record(name, fields) => v := GetRecord(name, fields);
      case Variant(alternatives) => v := GetVariant(alternatives);
    }

    method GetFlag() returns (v: Value)
      requires Valid()
      modifies this
      ensures Valid() && Carried(old(status), old(position), data, Dec(Flag, data[old(position)..], max), status, position, v)
    {
      v := Bool(false);
      var ok := ExpectTag(1);
      if !ok { return; }
      ghost var mid := position;
      var raw := GetU8();
      if status != Nominal { return; }
      assert data[mid..][1..] == data[position..];
      if raw > 1 {
        Fail(MalformedInput);
        return;
      }
      v := Bool(raw == 1);
    }

    method GetFixed32() returns (v: Value)
      requires Valid()
      modifies this
      ensures Valid() && Carried(old(status), old(position), data, Dec(Fixed32, data[old(position)..], max), status, position, v)
    {
      v := Raw([]);
      var ok := ExpectTag(9);
      if !ok { return; }
      var b := TakeRaw(32);
      v := Raw(b);
    }

    method GetIdentity() returns (v: Value)
      requires Valid()
      modifies this
      ensures Valid() && Carried(old(status), old(position), data, Dec(Identity, data[old(position)..], max), status, position, v)
    {
      IdentityIs(data[position..], max);
      hide Dec, DecBlob;
      var text := GetBlob(4);
      v := Raw(text);
      if status != Nominal { return; }
      if text != [] && !IdentityText(text) { Fail(if |text| > 64 then OversizedInput else InvalidIdentity); }
    }

    method GetName(names: seq<seq<Byte>>) returns (v: Value)
      requires Valid()
      modifies this
      ensures Valid() && Carried(old(status), old(position), data, Dec(Enumeration(names), data[old(position)..], max), status, position, v)
    {
      EnumerationIs(names, data[position..], max);
      hide Dec, DecBlob, NameIndex;
      v := Choice(0);
      var ok := ExpectTag(8);
      if !ok { return; }
      var name := GetBlob(4);
      if status != Nominal { return; }
      var k := FindName(names, name);
      if k == |names| { Fail(InvalidEnumeration); }
      v := Choice(k);
    }

    method GetOptional(of: Schema) returns (v: Value)
      requires Valid()
      modifies this
      ensures Valid() && Carried(old(status), old(position), data, Dec(Optional(of), data[old(position)..], max), status, position, v)
      decreases of, 3
    {
      ghost var here := data[position..];
      v := Absent;
      var flag := GetU8();
      if status != Nominal { return; }
      assert here == [flag] + data[position..];
      ghost var body := data[position..];
      if flag > 1 {
        Fail(MalformedInput);
        return;
      }
      if flag == 0 {
        AbsentStep(of, body, max);
        hide Dec;
        return;
      }
      PresentStep(of, body, max);
      hide Dec;
      var inner := GetValue(of);
      v := Present(inner);
    }

    method GetSequence(of: Schema) returns (v: Value)
      requires Valid()
      modifies this
      ensures Valid() && Carried(old(status), old(position), data, Dec(Sequence(of), data[old(position)..], max), status, position, v)
      decreases of, 4
    {
      ghost var here := data[position..];
      v := Items([]);
      SequenceIs(of, here, max);
      hide Dec, DecItems;
      var ok := ExpectTag(6);
      if !ok { return; }
      var n := GetNumber(4);
      if status != Nominal { return; }
      if n > max {
        Fail(OversizedInput);
        return;
      }
      var items := GetItems(of, n);
      v := Items(items);
    }

    /** The element loop, left at the first refusal. */
    method GetItems(of: Schema, n: nat) returns (items: seq<Value>)
      requires Valid() && status == Nominal
      modifies this
      ensures Valid() && Carried(Nominal, old(position), data, DecItems(of, n, data[old(position)..], max), status, position, items)
      decreases of, 3
    {
      hide Dec, DecItems;
      items := [];
      var i := 0;
      ghost var whole := DecItems(of, n, data[position..], max);
      assert whole.Ok? ==> [] + whole.value.value == whole.value.value;
      while i < n
        invariant 0 <= i <= n && Valid() && |items| == i && status == Nominal
        invariant whole == Join(items, DecItems(of, n - i, data[position..], max))
      {
        ghost var from := data[position..];
        ItemsAre(of, n - i, from, max);
        var x := GetValue(of);
        if status != Nominal { return; }
        JoinSnoc(items, x, DecItems(of, n - i - 1, data[position..], max));
        items := items + [x];
        i := i + 1;
      }
      NoItems(of, data[position..], max);
      assert items + [] == items;
    }

    method GetRecord(name: seq<Byte>, fields: seq<Schema>) returns (v: Value)
      requires Valid()
      modifies this
      ensures Valid() && Carried(old(status), old(position), data, Dec(Record(name, fields), data[old(position)..], max), status, position, v)
      decreases fields, 1
    {
      RecordIs(name, fields, data[position..], max);
      hide Dec, DecObject, DecFields;
      v := Tuple([]);
      BeginObject(name);
      var members := GetFields(fields);
      v := Tuple(members);
    }

    method GetFields(fields: seq<Schema>) returns (members: seq<Value>)
      requires Valid()
      modifies this
      ensures Valid() && Carried(old(status), old(position), data, DecFields(fields, data[old(position)..], max), status, position, members)
      decreases fields, 0
    {
      FieldsAre(fields, data[position..], max);
      hide Dec, DecFields;
      if fields == [] { return []; }
      var first := GetValue(fields[0]);
      var rest := GetFields(fields[1..]);
      members := [first] + rest;
    }

    method GetVariant(alternatives: seq<Schema>) returns (v: Value)
      requires Valid()
      modifies this
      ensures Valid() && Carried(old(status), old(position), data, Dec(Variant(alternatives), data[old(position)..], max), status, position, v)
      decreases alternatives, 1
    {
      VariantIs(alternatives, data[position..], max);
      hide Dec, DecObject, DecInt;
      v := Absent;
      BeginObject(VARIANT_NAME);
      var k := GetInt(2, TWO32);
      if status != Nominal { return; }
      if k >= |alternatives| {
        Fail(InvalidEnumeration);
        return;
      }
      var inner := GetValue(alternatives[k]);
      v := Alternative(k, inner);
    }
  }

  /** The linear search of `from_string`. */
  method FindName(names: seq<seq<Byte>>, name: seq<Byte>) returns (k: nat)
    ensures k == NameIndex(names, name)
  {
    k := 0;
    while k < |names|
      invariant k <= |names| && forall j :: 0 <= j < k ==> names[j] != name
    {
      if names[k] == name {
        FirstName(names, name, k);
        return;
      }
      k := k + 1;
    }
    hide NameIndex;
  }

  // One level of the codec, so that the reader's steps can be matched against it.

  lemma IdentityIs(here: seq<Byte>, max: nat)
    ensures Dec(Identity, here, max) ==
      var b := DecBlob(here, 4);
      if b.Err? then Err(b.code)
      else if b.value.value == [] || IdentityText(b.value.value) then Ok(Read(Raw(b.value.value), b.value.rest))
      else Err(if |b.value.value| > 64 then OversizedInput else InvalidIdentity)
  {
    hide DecBlob;
  }

  lemma EnumerationIs(names: seq<seq<Byte>>, here: seq<Byte>, max: nat)
    ensures Dec(Enumeration(names), here, max) ==
      var t := GetTag(here, 8);
      if t.Err? then Err(t.code)
      else
        var b := DecBlob(t.value, 4);
        if b.Err? then Err(b.code)
        else
          var k := NameIndex(names, b.value.value);
          if k == |names| then Err(InvalidEnumeration) else Ok(Read(Choice(k), b.value.rest))
  {
    hide DecBlob, GetTag;
  }

  lemma NoItems(of: Schema, here: seq<Byte>, max: nat)
    ensures DecItems(of, 0, here, max) == Ok(Read([], here))
  {
  }

  lemma ItemsAre(of: Schema, n: nat, here: seq<Byte>, max: nat)
    requires n > 0
    ensures DecItems(of, n, here, max) ==
      var first := Dec(of, here, max);
      if first.Err? then Err(first.code) else Join([first.value.value], DecItems(of, n - 1, first.value.rest, max))
  {
    hide Dec;
  }

  lemma FieldsAre(fields: seq<Schema>, here: seq<Byte>, max: nat)
    ensures DecFields(fields, here, max) ==
      if fields == [] then Ok(Read([], here))
      else
        var first := Dec(fields[0], here, max);
        if first.Err? then Err(first.code)
        else
          var r := DecFields(fields[1..], first.value.rest, max);
          if r.Err? then r else Ok(Read([first.value.value] + r.value.value, r.value.rest))
  {
    hide Dec;
  }

  lemma SequenceIs(of: Schema, here: seq<Byte>, max: nat)
    ensures Dec(Sequence(of), here, max) ==
      var t := GetTag(here, 6);
      if t.Err? then Err(t.code)
      else
        var n := GetWord(t.value, 4);
        if n.Err? then Err(n.code)
        else if n.value.value > max then Err(OversizedInput)
        else
          var r := DecItems(of, n.value.value, n.value.rest, max);
          if r.Err? then Err(r.code) else Ok(Read(Items(r.value.value), r.value.rest))
  {
    hide DecItems, GetTag, GetWord;
  }

  lemma RecordIs(name: seq<Byte>, fields: seq<Schema>, here: seq<Byte>, max: nat)
    ensures Dec(Record(name, fields), here, max) ==
      var o := DecObject(here, name);
      if o.Err? then Err(o.code)
      else
        var r := DecFields(fields, o.value, max);
        if r.Err? then Err(r.code) else Ok(Read(Tuple(r.value.value), r.value.rest))
  {
    hide DecFields, DecObject;
  }

  /** `decode_binary` */
  method DecodeBinary(s: Schema, data: seq<Byte>, max: nat) returns (r: Result<Value>)
    ensures r == Decode(s, data, max)
    ensures r.Ok? ==> Typed(s, r.value) && InDomain(s, r.value, max) && data == Enc(s, r.value)
  {
    hide Dec, Enc, Typed, InDomain;
    var reader := new BinaryReader(data, max);
    assert data[0..] == data;
    var v := reader.GetValue(s);
    assert |data[reader.position..]| == |data| - reader.position;
    if reader.status != Nominal {
      r := Err(reader.status);
    } else if reader.position != |data| {
      r := Err(MalformedInput);
    } else {
      r := Ok(v);
      DecodesOnlyEncodings(s, data, max);
    }
  }

  lemma {:induction false} NumberSnoc(bytes: seq<Byte>, b: Byte)
    ensures Number(bytes + [b]) == Number(bytes) + b * Pow256(|bytes|)
  {
    if bytes == [] {
      assert [b][1..] == [];
      assert Number([b]) == b + 256 * Number([]);
      assert bytes + [b] == [b];
    } else {
      NumberSnoc(bytes[1..], b);
      assert (bytes + [b])[1..] == bytes[1..] + [b];
      Scaled(b, Pow256(|bytes| - 1));
    }
  }

  /** The number read so far, one byte later. */
  lemma OneMore(data: seq<Byte>, from: nat, i: nat, b: Byte, n: nat, weight: nat)
    requires from + i < |data| && data[from + i] == b && n == Number(data[from..from + i]) && weight == Pow256(i)
    ensures n + b * weight == Number(data[from..from + i + 1])
  {
    hide Number, Pow256;
    NumberSnoc(data[from..from + i], b);
    assert data[from..from + i + 1] == data[from..from + i] + [b];
  }

  lemma Scaled(b: nat, p: nat)
    ensures 256 * (b * p) == b * (256 * p)
  {
  }
}
