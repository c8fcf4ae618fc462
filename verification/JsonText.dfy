/** The JSON parser and writer as they work: a position moving through the text, and a
    buffer that grows. */
module JsonText {
  import opened Base
  import opened Bytes
  import opened Json
  import opened JsonCodec

  /** The parser did what the grammar says from here on. */
  ghost predicate Did<T>(text: seq<Byte>, outcome: Result<Read<T>>, code: Reason, to: nat, value: T) {
    && to <= |text|
    && if outcome.Ok? then code == Nominal && value == outcome.value.value && text[to..] == outcome.value.rest
       else code == outcome.code && code != Nominal
  }

  lemma Next(text: seq<Byte>, i: nat)
    requires i < |text|
    ensures text[i..] != [] && text[i..][0] == text[i] && text[i..][1..] == text[i + 1..]
  {
  }

  lemma Skip(text: seq<Byte>, i: nat, k: nat)
    requires i + k <= |text|
    ensures text[i..][k..] == text[i + k..] && |text[i..]| == |text| - i
  {
  }

  class Parser {
    const text: seq<Byte>
    var position: nat

    ghost predicate Valid() reads this { position <= |text| }

    constructor (t: seq<Byte>)
      ensures Valid() && text == t && position == 0
    {
      text, position := t, 0;
    }

    method SkipWs()
      requires Valid()
      modifies this
      ensures Valid() && position >= old(position) && text[position..] == SkipBlanks(text[old(position)..])
    {
      while position < |text|
        invariant old(position) <= position <= |text|
        invariant SkipBlanks(text[position..]) == SkipBlanks(text[old(position)..])
        decreases |text| - position
      {
        Next(text, position);
        if !Blank(text[position]) { return; }
        position := position + 1;
      }
    }

    method ReadLiteral(literal: seq<Byte>, v: Json) returns (code: Reason, value: Json)
      requires Valid() && literal != []
      modifies this
      ensures Valid() && position >= old(position)
      ensures Did(text, ParseLiteral(text[old(position)..], literal, v), code, position, value)
    {
      var n := |literal|;
      if position + n > |text| || text[position..position + n] != literal {
        assert position + n <= |text| ==> text[position..][..n] == text[position..position + n];
        return MalformedInput, Null;
      }
      assert text[position..][..n] == text[position..position + n];
      Skip(text, position, n);
      position := position + n;
      return Nominal, v;
    }

    /** Moves past the digits. */
    method SkipDigits() returns (k: nat)
      requires Valid()
      modifies this
      ensures Valid() && k == DigitCount(text[old(position)..]) && position == old(position) + k
    {
      k := 0;
      while position < |text|
        invariant position == old(position) + k <= |text|
        invariant DigitCount(text[old(position)..]) == k + DigitCount(text[position..])
        decreases |text| - position
      {
        Next(text, position);
        if !IsDigit(text[position]) { return; }
        position, k := position + 1, k + 1;
      }
    }

    method ReadNumber() returns (code: Reason, value: Json)
      requires Valid() && position < |text|
      modifies this
      ensures Valid() && position >= old(position)
      ensures Did(text, ParseNumber(text[old(position)..]), code, position, value)
    {
      hide ParseNumber, DigitCount, Accumulate;
      value := Null;
      var start := position;
      var sign := if text[position] == MINUS then 1 else 0;
      if sign == 1 { position := position + 1; }
      var k := SkipDigits();
      NumberIs(text, start, sign, k);
      if k == 0 { return MalformedInput, Null; }
      if position < |text| && (text[position] == 46 || text[position] == 101 || text[position] == 69) {
        return UnsupportedValue, Null;
      }
      if sign + k > MAX_DIGITS { return ValueOutOfRange, Null; }
      var n := Sum(text[start + sign..position]);
      if n.None? { return ValueOutOfRange, Null; }
      var m: int := n.value;
      return Nominal, Int(if sign == 1 then -m else m);
    }

    method ReadHex4() returns (code: Reason, n: nat)
      requires Valid()
      modifies this
      ensures Valid() && position >= old(position)
      ensures var h := ParseHex4(text[old(position)..]);
        if h.Ok? then code == Nominal && n == h.value && position == old(position) + 4 else code == h.code && code != Nominal
    {
      ghost var t := text[position..];
      if position + 4 > |text| { return TruncatedInput, 0; }
      var i := 0;
      n := 0;
      ghost var start := position;
      while i < 4
        invariant 0 <= i <= 4 && position == start + i <= |text|
        invariant forall j :: 0 <= j < i ==> HexValue(t[j]).Some?
        invariant i > 0 ==> HexValue(t[0]).Some?
        invariant n == Hex(t, i)
      {
        assert text[position] == t[i];
        var digit := HexValue(text[position]);
        position := position + 1;
        if digit.None? { return InvalidEncoding, 0; }
        n := n * 16 + digit.value;
        i := i + 1;
      }
      HexFour(t);
      return Nominal, n;
    }

    /** After the opening quote, up to and including the closing one. */
    method ReadBody() returns (code: Reason, out: seq<Byte>)
      requires Valid()
      modifies this
      ensures Valid() && position >= old(position)
      ensures Did(text, ParseBody(text[old(position)..]), code, position, out)
    {
      hide ParseBody, EscapeOf;
      out := [];
      ghost var whole := ParseBody(text[position..]);
      assert Prepend([], whole) == whole by { assert whole.Ok? ==> [] + whole.value.value == whole.value.value; }
      while position < |text|
        invariant old(position) <= position <= |text|
        invariant whole == Prepend(out, ParseBody(text[position..]))
        decreases |text| - position
      {
        BodyStep(text[position..]);
        Next(text, position);
        var c := text[position];
        position := position + 1;
        if c == QUOTE {
          assert out + [] == out;
          return Nominal, out;
        }
        if c < 32 { return InvalidEncoding, out; }
        if c != BACKSLASH {
          PrependTwice(out, [c], ParseBody(text[position..]));
          out := out + [c];
        } else {
          var code', bytes := ReadEscape();
          if code' != Nominal { return code', out; }
          PrependTwice(out, bytes, ParseBody(text[position..]));
          out := out + bytes;
        }
      }
      assert text[position..] == [];
      BodyStep([]);
      return TruncatedInput, out;
    }

    method ReadEscape() returns (code: Reason, bytes: seq<Byte>)
      requires Valid()
      modifies this
      ensures Valid() && position >= old(position)
      ensures Did(text, EscapeOf(text[old(position)..]), code, position, bytes)
      ensures code == Nominal ==> position > old(position)
    {
      hide ParseUnicode;
      if position >= |text| { return TruncatedInput, []; }
      Next(text, position);
      var esc := text[position];
      position := position + 1;
      if esc == 117 {
        code, bytes := ReadUnicode();
      } else {
        var e := SimpleEscape(esc);
        if e.None? { return InvalidEncoding, []; }
        return Nominal, [e.value];
      }
    }

    /** Refuses past the nesting bound, then dispatches on the first character. */
    method ReadValue(depth: nat) returns (code: Reason, value: Json)
      requires Valid()
      modifies this
      ensures Valid() && position >= old(position)
      ensures Did(text, ParseValue(text[old(position)..], depth), code, position, value)
      decreases |text| - position, 2
    {
      ValueIs(text, position, depth);
      hide ParseValue, ParseItems, ParseMembers, ParseNumber, ParseBody, ParseLiteral, SkipBlanks;
      value := Null;
      if depth > MAX_DEPTH { return DepthLimitExceeded, Null; }
      if position >= |text| { return TruncatedInput, Null; }
      var c := text[position];
      if c == OPEN_OBJECT { code, value := ReadObject(depth); return; }
      if c == OPEN_ARRAY { code, value := ReadArray(depth); return; }
      if c == QUOTE {
        position := position + 1;
        var code', s := ReadBody();
        return code', Str(s);
      }
      ghost var from := position;
      if c == 116 { code, value := ReadLiteral(TRUE_TEXT, Bool(true)); }
      else if c == 102 { code, value := ReadLiteral(FALSE_TEXT, Bool(false)); }
      else if c == 110 { code, value := ReadLiteral(NULL_TEXT, Null); }
      else if c == MINUS || IsDigit(c) { code, value := ReadNumber(); }
      else { code := MalformedInput; }
    }

    /** The element loop, after the opening bracket. */
    method ReadArray(depth: nat) returns (code: Reason, value: Json)
      requires Valid() && position < |text|
      modifies this
      ensures Valid() && position >= old(position)
      ensures Did(text, ArrayOf(text[old(position) + 1..], depth), code, position, value)
      decreases |text| - position, 1
    {
      hide ParseValue, ParseItems, SkipBlanks;
      value := Null;
      position := position + 1;
      SkipWs();
      Head(text, position);
      if position < |text| && text[position] == CLOSE_ARRAY {
        Next(text, position);
        position := position + 1;
        return Nominal, Arr([]);
      }
      ghost var whole := ParseItems(text[position..], depth + 1);
      assert whole.Ok? ==> [] + whole.value.value == whole.value.value;
      var items: seq<Json> := [];
      while true
        invariant Valid() && position > old(position)
        invariant whole == Join(items, ParseItems(text[position..], depth + 1))
        decreases |text| - position
      {
        ItemsIs(text[position..], depth + 1);
        ghost var had := items;
        var code', v := ReadItem(depth + 1);
        if code' != Nominal { return code', Null; }
        items := items + [v];
        SkipWs();
        Head(text, position);
        if position < |text| && text[position] == COMMA {
          Next(text, position);
          position := position + 1;
          JoinSnoc(had, v, ParseItems(text[position..], depth + 1));
          continue;
        }
        if position < |text| && text[position] == CLOSE_ARRAY {
          Next(text, position);
          position := position + 1;
          return Nominal, Arr(items);
        }
        return MalformedInput, Null;
      }
    }

    method ReadItem(depth: nat) returns (code: Reason, v: Json)
      requires Valid()
      modifies this
      ensures Valid() && position >= old(position) && (code == Nominal ==> position > old(position))
      ensures Did(text, ParseValue(SkipBlanks(text[old(position)..]), depth), code, position, v)
      decreases |text| - position, 3
    {
      hide ParseValue, SkipBlanks;
      ghost var from := position;
      SkipWs();
      code, v := ReadValue(depth);
      if code == Nominal { Shorter(text, from, position, depth); }
    }

    /** The member loop, after the opening brace. */
    method ReadObject(depth: nat) returns (code: Reason, value: Json)
      requires Valid() && position < |text|
      modifies this
      ensures Valid() && position >= old(position)
      ensures Did(text, ObjectOf(text[old(position) + 1..], depth), code, position, value)
      decreases |text| - position, 1
    {
      hide ParseMembers, SkipBlanks, MemberOf;
      value := Null;
      position := position + 1;
      SkipWs();
      Head(text, position);
      if position < |text| && text[position] == CLOSE_OBJECT {
        Next(text, position);
        position := position + 1;
        return Nominal, Obj([]);
      }
      ghost var whole := ParseMembers(text[position..], depth + 1, []);
      var members: seq<Member> := [];
      while true
        invariant Valid() && position > old(position)
        invariant whole == ParseMembers(text[position..], depth + 1, members)
        decreases |text| - position
      {
        MembersAre(text[position..], depth + 1, members);
        ghost var from := position;
        var code', m := ReadMember(depth + 1, members);
        if code' != Nominal { return code', Null; }
        members := members + [m];
        SkipWs();
        Head(text, position);
        if position < |text| && text[position] == COMMA {
          Next(text, position);
          position := position + 1;
          continue;
        }
        if position < |text| && text[position] == CLOSE_OBJECT {
          Next(text, position);
          position := position + 1;
          return Nominal, Obj(members);
        }
        return MalformedInput, Null;
      }
    }

    /** A member name and the colon after it. */
    method ReadName() returns (code: Reason, name: seq<Byte>)
      requires Valid()
      modifies this
      ensures Valid() && position >= old(position) && (code == Nominal ==> position > old(position))
      ensures Did(text, NameOf(text[old(position)..]), code, position, name)
    {
      hide SkipBlanks, ParseBody;
      name := [];
      SkipWs();
      Head(text, position);
      if position >= |text| || text[position] != QUOTE { return MalformedInput, name; }
      Next(text, position);
      position := position + 1;
      code, name := ReadBody();
      if code != Nominal { return; }
      SkipWs();
      Head(text, position);
      if position >= |text| || text[position] != COLON { return MalformedInput, name; }
      Next(text, position);
      position := position + 1;
    }

    /** One member: its name, the colon, its value, and the check for a repeated name. */
    method ReadMember(depth: nat, before: seq<Member>) returns (code: Reason, m: Member)
      requires Valid()
      modifies this
      ensures Valid() && position >= old(position) && (code == Nominal ==> position > old(position))
      ensures Did(text, MemberOf(text[old(position)..], depth, before), code, position, m)
      decreases |text| - position, 3
    {
      hide ParseValue, SkipBlanks, NameOf, Named;
      m := Member([], Null);
      var code', name := ReadName();
      if code' != Nominal { return code', m; }
      SkipWs();
      var code'', v := ReadValue(depth);
      if code'' != Nominal { return code'', m; }
      var known := Find(before, name);
      if known { return DuplicateIdentity, m; }
      return Nominal, Member(name, v);
    }

    method ReadUnicode() returns (code: Reason, bytes: seq<Byte>)
      requires Valid()
      modifies this
      ensures Valid() && position >= old(position)
      ensures Did(text, ParseUnicode(text[old(position)..]), code, position, bytes)
      ensures code == Nominal ==> position > old(position)
    {
      hide ParseHex4, Utf8;
      ghost var t := text[position..];
      ghost var start := position;
      var code', high := ReadHex4();
      if code' != Nominal { return code', []; }
      Skip(text, start, 4);
      ghost var u := t[4..];
      if 0xD800 <= high <= 0xDBFF {
        if position + 1 >= |text| || text[position] != BACKSLASH || text[position + 1] != 117 {
          return InvalidEncoding, [];
        }
        Skip(text, position, 2);
        position := position + 2;
        var code'', low := ReadHex4();
        if code'' != Nominal { return code'', []; }
        if low < 0xDC00 || low > 0xDFFF { return InvalidEncoding, []; }
        Skip(text, start + 4, 6);
        return Nominal, Utf8(0x1_0000 + (high - 0xD800) * 1024 + (low - 0xDC00));
      }
      if 0xDC00 <= high <= 0xDFFF { return InvalidEncoding, []; }
      return Nominal, Utf8(high);
    }
  }

  /** `ParseNumber` in terms of positions. */
  lemma NumberIs(text: seq<Byte>, start: nat, sign: nat, k: nat)
    requires start < |text| && sign == (if text[start] == MINUS then 1 else 0) && k == DigitCount(text[start + sign..])
    ensures start + sign + k <= |text| && AllDigits(text[start + sign..start + sign + k])
    ensures var end := start + sign + k;
      var n := Accumulate(text[start + sign..end], 0);
      ParseNumber(text[start..]) ==
        if k == 0 then Err(MalformedInput)
        else if end < |text| && (text[end] == 46 || text[end] == 101 || text[end] == 69) then Err(UnsupportedValue)
        else if sign + k > MAX_DIGITS then Err(ValueOutOfRange)
        else if n.None? then Err(ValueOutOfRange)
        else Ok(Read(Int(if sign == 1 then 0 - n.value else n.value), text[end..]))
  {
    hide DigitCount, Accumulate, AllDigits;
    var end := start + sign + k;
    Skip(text, start, sign);
    AllDigitsHere(text[start + sign..], k);
    Skip(text, start, sign + k);
    Slice(text, start, sign, k);
    Head(text, start);
    Head(text, end);
    NumberOf(text[start..], sign, k);
    hide ParseNumber;
  }

  lemma NumberOf(t: seq<Byte>, sign: nat, k: nat)
    requires t != [] && sign == (if t[0] == MINUS then 1 else 0) && k == DigitCount(t[sign..])
    ensures sign + k <= |t| && AllDigits(t[sign..sign + k])
    ensures var rest := t[sign + k..];
      var n := Accumulate(t[sign..sign + k], 0);
      ParseNumber(t) ==
        if k == 0 then Err(MalformedInput)
        else if rest != [] && (rest[0] == 46 || rest[0] == 101 || rest[0] == 69) then Err(UnsupportedValue)
        else if sign + k > MAX_DIGITS then Err(ValueOutOfRange)
        else if n.None? then Err(ValueOutOfRange)
        else Ok(Read(Int(if sign == 1 then 0 - n.value else n.value), rest))
  {
    AllDigitsHere(t[sign..], k);
    hide DigitCount, Accumulate;
    assert t[sign..][..k] == t[sign..sign + k];
  }

  lemma Slice(text: seq<Byte>, start: nat, sign: nat, k: nat)
    requires start + sign + k <= |text|
    ensures text[start..][sign..sign + k] == text[start + sign..start + sign + k] == text[start + sign..][..k]
  {
  }

  lemma Head(text: seq<Byte>, i: nat)
    requires i <= |text|
    ensures text[i..] == [] <==> i == |text|
    ensures i < |text| ==> text[i..][0] == text[i]
  {
  }

  /** `JsonValue::find` */
  method Find(members: seq<Member>, name: seq<Byte>) returns (found: bool)
    ensures found <==> Named(members, name)
  {
    var i := 0;
    while i < |members|
      invariant 0 <= i <= |members| && forall j :: 0 <= j < i ==> members[j].name != name
    {
      if members[i].name == name { return true; }
      i := i + 1;
    }
    return false;
  }

  function ArrayOf(t: seq<Byte>, depth: nat): Result<Read<Json>> {
    var u := SkipBlanks(t);
    if u != [] && u[0] == CLOSE_ARRAY then Ok(Read(Arr([]), u[1..]))
    else
      var r := ParseItems(u, depth + 1);
      if r.Err? then Err(r.code) else Ok(Read(Arr(r.value.value), r.value.rest))
  }

  function ObjectOf(t: seq<Byte>, depth: nat): Result<Read<Json>> {
    var u := SkipBlanks(t);
    if u != [] && u[0] == CLOSE_OBJECT then Ok(Read(Obj([]), u[1..]))
    else
      var r := ParseMembers(u, depth + 1, []);
      if r.Err? then Err(r.code) else Ok(Read(Obj(r.value.value), r.value.rest))
  }

  function NameOf(t: seq<Byte>): Result<Read<seq<Byte>>> {
    var n := SkipBlanks(t);
    if n == [] || n[0] != QUOTE then Err(MalformedInput)
    else
      var name := ParseBody(n[1..]);
      if name.Err? then name
      else
        var c := SkipBlanks(name.value.rest);
        if c == [] || c[0] != COLON then Err(MalformedInput) else Ok(Read(name.value.value, c[1..]))
  }

  function MemberOf(t: seq<Byte>, depth: nat, before: seq<Member>): Result<Read<Member>> {
    var name := NameOf(t);
    if name.Err? then Err(name.code)
    else
      var v := ParseValue(SkipBlanks(name.value.rest), depth);
      if v.Err? then Err(v.code)
      else if Named(before, name.value.value) then Err(DuplicateIdentity)
      else Ok(Read(Member(name.value.value, v.value.value), v.value.rest))
  }

  lemma MembersAre(t: seq<Byte>, depth: nat, before: seq<Member>)
    ensures var m := MemberOf(t, depth, before);
      ParseMembers(t, depth, before) ==
        if m.Err? then Err(m.code)
        else
          (var u := SkipBlanks(m.value.rest);
          if u != [] && u[0] == COMMA then ParseMembers(u[1..], depth, before + [m.value.value])
          else if u != [] && u[0] == CLOSE_OBJECT then Ok(Read(before + [m.value.value], u[1..]))
          else Err(MalformedInput))
  {
    hide ParseValue, SkipBlanks, ParseBody, Named;
  }

  lemma ItemsIs(t: seq<Byte>, depth: nat)
    ensures var v := ParseValue(SkipBlanks(t), depth);
      ParseItems(t, depth) ==
        if v.Err? then Err(v.code)
        else
          (var u := SkipBlanks(v.value.rest);
          if u != [] && u[0] == COMMA then Join([v.value.value], ParseItems(u[1..], depth))
          else if u != [] && u[0] == CLOSE_ARRAY then Ok(Read([v.value.value], u[1..]))
          else Err(MalformedInput))
  {
    hide ParseValue, SkipBlanks;
  }

  /** A parsed value takes at least one character. */
  lemma Shorter(text: seq<Byte>, from: nat, to: nat, depth: nat)
    requires from <= |text| && to <= |text|
    requires ParseValue(SkipBlanks(text[from..]), depth).Ok?
    requires text[to..] == ParseValue(SkipBlanks(text[from..]), depth).value.rest
    ensures to > from
  {
    hide ParseValue;
    assert |text[to..]| == |text| - to && |text[from..]| == |text| - from;
  }

  lemma ValueIs(text: seq<Byte>, i: nat, depth: nat)
    requires i <= |text|
    ensures ParseValue(text[i..], depth) ==
      if depth > MAX_DEPTH then Err(DepthLimitExceeded)
      else if i == |text| then Err(TruncatedInput)
      else if text[i] == OPEN_OBJECT then ObjectOf(text[i + 1..], depth)
      else if text[i] == OPEN_ARRAY then ArrayOf(text[i + 1..], depth)
      else if text[i] == QUOTE then
        (var s := ParseBody(text[i + 1..]);
        if s.Err? then Err(s.code) else Ok(Read(Str(s.value.value), s.value.rest)))
      else if text[i] == 116 then ParseLiteral(text[i..], TRUE_TEXT, Bool(true))
      else if text[i] == 102 then ParseLiteral(text[i..], FALSE_TEXT, Bool(false))
      else if text[i] == 110 then ParseLiteral(text[i..], NULL_TEXT, Null)
      else if text[i] == MINUS || IsDigit(text[i]) then ParseNumber(text[i..])
      else Err(MalformedInput)
  {
    if i < |text| { Next(text, i); }
    hide ParseItems, ParseMembers, ParseBody, ParseNumber, ParseLiteral, SkipBlanks;
  }

  lemma AllDigitsHere(t: seq<Byte>, k: nat)
    requires k == DigitCount(t)
    ensures k <= |t| && AllDigits(t[..k])
  {
    hide DigitCount;
  }

  lemma PrependTwice(a: seq<Byte>, b: seq<Byte>, r: Result<Read<seq<Byte>>>)
    ensures Prepend(a, Prepend(b, r)) == Prepend(a + b, r)
  {
    if r.Ok? { assert a + (b + r.value.value) == a + b + r.value.value; }
  }

  /** The first `i` hexadecimal digits. */
  function Hex(t: seq<Byte>, i: nat): nat
    requires i <= |t| && forall j :: 0 <= j < i ==> HexValue(t[j]).Some?
  {
    if i == 0 then 0 else Hex(t, i - 1) * 16 + HexValue(t[i - 1]).value
  }

  lemma HexFour(t: seq<Byte>)
    requires |t| >= 4 && forall j :: 0 <= j < 4 ==> HexValue(t[j]).Some?
    ensures ParseHex4(t) == Ok(Hex(t, 4))
  {
    assert HexValue(t[0]).Some? && HexValue(t[1]).Some? && HexValue(t[2]).Some? && HexValue(t[3]).Some?;
    assert Hex(t, 1) == HexValue(t[0]).value;
    assert Hex(t, 2) == Hex(t, 1) * 16 + HexValue(t[1]).value;
    assert Hex(t, 3) == Hex(t, 2) * 16 + HexValue(t[2]).value;
    hide HexValue;
  }

  /** The accumulation loop of `parse_number`. */
  method Sum(digits: seq<Byte>) returns (n: Option<nat>)
    requires AllDigits(digits)
    ensures n == Accumulate(digits, 0)
  {
    var value: nat, i := 0, 0;
    assert digits[0..] == digits;
    while i < |digits|
      invariant 0 <= i <= |digits| && AllDigits(digits[i..])
      invariant Accumulate(digits, 0) == Accumulate(digits[i..], value)
    {
      assert IsDigit(digits[i]) && digits[i..][0] == digits[i] && digits[i..][1..] == digits[i + 1..];
      var digit := digits[i] as int - 48;
      if value > (I64_MAX - digit) / 10 { return None; }
      value, i := value * 10 + digit, i + 1;
    }
    assert digits[i..] == [];
    return Some(value);
  }

  /** `parse_json` */
  method ParseJson(text: seq<Byte>, maxBytes: nat) returns (r: Result<Json>)
    ensures r == Parse(text, maxBytes)
    ensures r.Ok? ==> Printable(r.value, 0)
  {
    hide ParseValue, SkipBlanks, Printable;
    if |text| > maxBytes { return Err(OversizedInput); }
    var parser := new Parser(text);
    assert text[0..] == text;
    parser.SkipWs();
    var code, v := parser.ReadValue(0);
    if code != Nominal { return Err(code); }
    ParsedPrintable(SkipBlanks(text), 0);
    parser.SkipWs();
    assert |text[parser.position..]| == |text| - parser.position;
    if parser.position != |text| { return Err(MalformedInput); }
    return Ok(v);
  }

  // ---------------------------------------------------------------------
  // Writing.
  // ---------------------------------------------------------------------

  /** `json_escape` */
  method EscapeText(text: seq<Byte>) returns (out: seq<Byte>)
    ensures out == Escape(text)
    ensures ParseBody(out[1..]) == Ok(Read(text, []))
  {
    hide EscapeByte;
    out := [QUOTE];
    var i := 0;
    assert text[0..] == text;
    while i < |text|
      invariant 0 <= i <= |text| && out + EscapeBody(text[i..]) == [QUOTE] + EscapeBody(text)
    {
      assert text[i..][0] == text[i] && text[i..][1..] == text[i + 1..];
      assert out + (EscapeByte(text[i]) + EscapeBody(text[i + 1..])) == out + EscapeByte(text[i]) + EscapeBody(text[i + 1..]);
      out := out + EscapeByte(text[i]);
      i := i + 1;
    }
    assert text[i..] == [] && out + [] == out;
    out := out + [QUOTE];
    EscapeRound(text, []);
    assert Escape(text) + [] == Escape(text);
  }

  /** What the element loop still has to write from index `i` on. */
  function ItemsFrom(items: seq<Json>, i: nat, pretty: bool, indent: nat): seq<Byte>
    requires i <= |items|
  {
    if i == |items| then []
    else (if i == 0 then [] else [COMMA]) + PrintItems(items[i..], pretty, indent)
  }

  lemma ItemsFromStep(items: seq<Json>, i: nat, pretty: bool, indent: nat)
    requires i < |items|
    ensures ItemsFrom(items, i, pretty, indent)
         == (if i == 0 then [] else [COMMA]) + Line(pretty, indent) + Print(items[i], pretty, indent)
            + ItemsFrom(items, i + 1, pretty, indent)
  {
    hide Print, Line;
    var rest := items[i..];
    assert rest[0] == items[i] && rest[1..] == items[i + 1..];
    var c: seq<Byte> := if i == 0 then [] else [COMMA];
    var m: seq<Byte> := if |rest| == 1 then [] else [COMMA] + PrintItems(rest[1..], pretty, indent);
    assert PrintItems(rest, pretty, indent) == Line(pretty, indent) + Print(items[i], pretty, indent) + m;
    assert ItemsFrom(items, i + 1, pretty, indent) == m;
    hide PrintItems;
    Chain(c, Line(pretty, indent) + Print(items[i], pretty, indent), m);
    Chain(c, Line(pretty, indent), Print(items[i], pretty, indent));
  }

  function MembersFrom(members: seq<Member>, i: nat, pretty: bool, indent: nat): seq<Byte>
    requires i <= |members|
  {
    if i == |members| then []
    else (if i == 0 then [] else [COMMA]) + PrintMembers(members[i..], pretty, indent)
  }

  function MemberText(m: Member, pretty: bool, indent: nat): seq<Byte> {
    Line(pretty, indent) + Escape(m.name) + [COLON] + (if pretty then [SPACE] else []) + Print(m.value, pretty, indent)
  }

  lemma MembersFromStep(members: seq<Member>, i: nat, pretty: bool, indent: nat)
    requires i < |members|
    ensures MembersFrom(members, i, pretty, indent)
         == (if i == 0 then [] else [COMMA]) + MemberText(members[i], pretty, indent) + MembersFrom(members, i + 1, pretty, indent)
  {
    hide Print, Line, Escape;
    var rest := members[i..];
    assert rest[0] == members[i] && rest[1..] == members[i + 1..];
    var c: seq<Byte> := if i == 0 then [] else [COMMA];
    var m: seq<Byte> := if |rest| == 1 then [] else [COMMA] + PrintMembers(rest[1..], pretty, indent);
    assert PrintMembers(rest, pretty, indent) == MemberText(members[i], pretty, indent) + m;
    assert MembersFrom(members, i + 1, pretty, indent) == m;
    hide PrintMembers, MemberText;
    Chain(c, MemberText(members[i], pretty, indent), m);
  }

  /** `write_to`: appends exactly the printed text. */
  method WriteTo(v: Json, pretty: bool, indent: nat) returns (out: seq<Byte>)
    ensures out == Print(v, pretty, indent)
    decreases v, 1
  {
    match v
    case Null => out := NULL_TEXT;
    case Bool(b) => out := if b then TRUE_TEXT else FALSE_TEXT;
    case Int(n) => out := IntText(n);
    case Str(s) => out := EscapeText(s);
    case Arr(items) =>
      if items == [] { return [OPEN_ARRAY, CLOSE_ARRAY]; }
      var body := WriteItems(items, pretty, indent + 1);
      out := [OPEN_ARRAY] + body + Line(pretty, indent) + [CLOSE_ARRAY];
    case Obj(members) =>
      if members == [] { return [OPEN_OBJECT, CLOSE_OBJECT]; }
      var body := WriteMembers(members, pretty, indent + 1);
      out := [OPEN_OBJECT] + body + Line(pretty, indent) + [CLOSE_OBJECT];
  }

  method WriteItems(items: seq<Json>, pretty: bool, indent: nat) returns (out: seq<Byte>)
    requires items != []
    ensures out == PrintItems(items, pretty, indent)
    decreases items, 0
  {
    hide Print, PrintItems, Line;
    out := [];
    var i := 0;
    assert items[0..] == items;
    ghost var whole := PrintItems(items, pretty, indent);
    assert [] + ([] + whole) == whole;
    while i < |items|
      invariant 0 <= i <= |items| && out + ItemsFrom(items, i, pretty, indent) == whole
    {
      ItemsFromStep(items, i, pretty, indent);
      ghost var c: seq<Byte>, rest := if i == 0 then [] else [COMMA], ItemsFrom(items, i + 1, pretty, indent);
      ghost var before, l, p := out, Line(pretty, indent), Print(items[i], pretty, indent);
      if i != 0 { out := out + [COMMA]; }
      assert out == before + c;
      out := out + Line(pretty, indent);
      var text := WriteTo(items[i], pretty, indent);
      out := out + text;
      Regroup3(before, c, l, p, rest);
      hide ItemsFrom;
      i := i + 1;
    }
    assert out + [] == out;
  }

  lemma Regroup3(a: seq<Byte>, c: seq<Byte>, l: seq<Byte>, p: seq<Byte>, rest: seq<Byte>)
    ensures a + (c + l + p + rest) == a + c + l + p + rest
  {
    Chain(a, c + l + p, rest);
    Chain(a, c + l, p);
    Chain(a, c, l);
  }

  method WriteMembers(members: seq<Member>, pretty: bool, indent: nat) returns (out: seq<Byte>)
    requires members != []
    ensures out == PrintMembers(members, pretty, indent)
    decreases members, 0
  {
    hide Print, PrintMembers, Line, Escape;
    out := [];
    var i := 0;
    assert members[0..] == members;
    ghost var whole := PrintMembers(members, pretty, indent);
    assert [] + ([] + whole) == whole;
    while i < |members|
      invariant 0 <= i <= |members| && out + MembersFrom(members, i, pretty, indent) == whole
    {
      MembersFromStep(members, i, pretty, indent);
      ghost var c: seq<Byte>, rest := if i == 0 then [] else [COMMA], MembersFrom(members, i + 1, pretty, indent);
      ghost var before, p := out, MemberText(members[i], pretty, indent);
      if i != 0 { out := out + [COMMA]; }
      assert out == before + c;
      var name := EscapeText(members[i].name);
      var text := WriteTo(members[i].value, pretty, indent);
      out := out + (Line(pretty, indent) + name + [COLON] + (if pretty then [SPACE] else []) + text);
      hide MemberText;
      Chain(before, c + p, rest);
      Chain(before, c, p);
      hide MembersFrom;
      i := i + 1;
    }
    assert out + [] == out;
  }

  /** `to_text`: what it prints parses back whenever the value is printable. */
  method ToText(v: Json, pretty: bool) returns (out: seq<Byte>)
    ensures out == Print(v, pretty, 0)
    ensures Printable(v, 0) ==> Parse(out, |out|) == Ok(v)
  {
    hide Print, Parse, Printable;
    out := WriteTo(v, pretty, 0);
    PrintParseExactly(v, pretty, |out|);
  }
}
