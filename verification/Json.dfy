/** JSON text over bytes: values, the compact and pretty printer, and the parser. */
module Json {
  import opened Base
  import opened Bytes

  datatype Json =
    | Null
    | Bool(flag: bool)
    | Int(number: int)
    | Str(text: seq<Byte>)
    | Arr(items: seq<Json>)
    | Obj(members: seq<Member>)

  datatype Member = Member(name: seq<Byte>, value: Json)

  const MAX_DEPTH: nat := 64
  const I64_MAX: nat := 0x7FFF_FFFF_FFFF_FFFF
  const MAX_DIGITS: nat := 19

  const QUOTE: Byte := 34
  const BACKSLASH: Byte := 92
  const COMMA: Byte := 44
  const COLON: Byte := 58
  const SPACE: Byte := 32
  const NEWLINE: Byte := 10
  const MINUS: Byte := 45
  const OPEN_ARRAY: Byte := 91
  const CLOSE_ARRAY: Byte := 93
  const OPEN_OBJECT: Byte := 123
  const CLOSE_OBJECT: Byte := 125

  const TRUE_TEXT: seq<Byte> := [116, 114, 117, 101]
  const FALSE_TEXT: seq<Byte> := [102, 97, 108, 115, 101]
  const NULL_TEXT: seq<Byte> := [110, 117, 108, 108]

  // ---------------------------------------------------------------------
  // Printing.
  // ---------------------------------------------------------------------

  function HexDigit(n: nat): Byte
    requires n < 16
  {
    if n < 10 then 48 + n else 87 + n
  }

  /** One byte of a string, escaped as in section 7 of RFC 8259. */
  function EscapeByte(c: Byte): (r: seq<Byte>)
    ensures r != []
  {
    if c == 34 then [92, 34]
    else if c == 92 then [92, 92]
    else if c == 8 then [92, 98]
    else if c == 12 then [92, 102]
    else if c == 10 then [92, 110]
    else if c == 13 then [92, 114]
    else if c == 9 then [92, 116]
    else if c < 32 then [92, 117, 48, 48, HexDigit(c / 16), HexDigit(c % 16)]
    else [c]
  }

  function EscapeBody(text: seq<Byte>): seq<Byte> {
    if text == [] then [] else EscapeByte(text[0]) + EscapeBody(text[1..])
  }

  function Escape(text: seq<Byte>): seq<Byte> { [QUOTE] + EscapeBody(text) + [QUOTE] }

  /** Decimal digits, most significant first. */
  function Digits(n: nat): (r: seq<Byte>)
    ensures |r| > 0 && forall i :: 0 <= i < |r| ==> 48 <= r[i] <= 57
  {
    if n < 10 then [48 + n] else Digits(n / 10) + [48 + n % 10]
  }

  function IntText(n: int): seq<Byte> { if n < 0 then [MINUS] + Digits(-n) else Digits(n) }

  function Spaces(n: nat): seq<Byte> { seq(n, _ => SPACE) }

  function Line(pretty: bool, indent: nat): seq<Byte> { if pretty then [NEWLINE] + Spaces(2 * indent) else [] }

  function Print(v: Json, pretty: bool, indent: nat): seq<Byte>
    decreases v, 0
  {
    match v
    case Null => NULL_TEXT
    case Bool(b) => if b then TRUE_TEXT else FALSE_TEXT
    case Int(n) => IntText(n)
    case Str(s) => Escape(s)
    case Arr(items) =>
      if items == [] then [OPEN_ARRAY, CLOSE_ARRAY]
      else [OPEN_ARRAY] + PrintItems(items, pretty, indent + 1) + Line(pretty, indent) + [CLOSE_ARRAY]
    case Obj(members) =>
      if members == [] then [OPEN_OBJECT, CLOSE_OBJECT]
      else [OPEN_OBJECT] + PrintMembers(members, pretty, indent + 1) + Line(pretty, indent) + [CLOSE_OBJECT]
  }

  function PrintItems(items: seq<Json>, pretty: bool, indent: nat): seq<Byte>
    requires items != []
    decreases items, 0
  {
    Line(pretty, indent) + Print(items[0], pretty, indent)
    + (if |items| == 1 then [] else [COMMA] + PrintItems(items[1..], pretty, indent))
  }

  function PrintMembers(members: seq<Member>, pretty: bool, indent: nat): seq<Byte>
    requires members != []
    decreases members, 0
  {
    Line(pretty, indent) + Escape(members[0].name) + [COLON] + (if pretty then [SPACE] else [])
    + Print(members[0].value, pretty, indent)
    + (if |members| == 1 then [] else [COMMA] + PrintMembers(members[1..], pretty, indent))
  }

  // ---------------------------------------------------------------------
  // Parsing.
  // ---------------------------------------------------------------------

  predicate Blank(c: Byte) { c == 32 || c == 9 || c == 10 || c == 13 }

  predicate IsDigit(c: Byte) { 48 <= c <= 57 }

  function SkipBlanks(t: seq<Byte>): (r: seq<Byte>)
    ensures |r| <= |t| && (r != [] ==> !Blank(r[0]))
  {
    if t != [] && Blank(t[0]) then SkipBlanks(t[1..]) else t
  }

  function ParseLiteral(t: seq<Byte>, literal: seq<Byte>, v: Json): (r: Result<Read<Json>>)
    requires literal != []
    ensures r.Ok? ==> |r.value.rest| < |t|
  {
    if literal <= t then Ok(Read(v, t[|literal|..])) else Err(MalformedInput)
  }

  function DigitCount(t: seq<Byte>): (k: nat)
    ensures k <= |t| && (forall i :: 0 <= i < k ==> IsDigit(t[i])) && (k < |t| ==> !IsDigit(t[k]))
  {
    if t == [] || !IsDigit(t[0]) then 0 else 1 + DigitCount(t[1..])
  }

  /** The digits accumulated on top of `value`, refused once 64 bits do not hold it. */
  function Accumulate(digits: seq<Byte>, value: nat): Option<nat>
    requires forall i :: 0 <= i < |digits| ==> IsDigit(digits[i])
    decreases |digits|
  {
    if digits == [] then Some(value)
    else
      assert IsDigit(digits[0]);
      var d := digits[0] as int - 48;
      if value > (I64_MAX - d) / 10 then None else Accumulate(digits[1..], value * 10 + d)
  }

  function ParseNumber(t: seq<Byte>): (r: Result<Read<Json>>)
    requires t != []
    ensures r.Ok? ==> |r.value.rest| < |t|
  {
    var sign := if t[0] == MINUS then 1 else 0;
    var k := DigitCount(t[sign..]);
    var rest := t[sign + k..];
    if k == 0 then Err(MalformedInput)
    else if rest != [] && (rest[0] == 46 || rest[0] == 101 || rest[0] == 69) then Err(UnsupportedValue)
    else if sign + k > MAX_DIGITS then Err(ValueOutOfRange)
    else
      var n := Accumulate(t[sign..sign + k], 0);
      if n.None? then Err(ValueOutOfRange) else Ok(Read(Int(if sign == 1 then 0 - n.value else n.value), rest))
  }

  function HexValue(c: Byte): (r: Option<nat>)
    ensures r.Some? ==> r.value < 16
  {
    if 48 <= c <= 57 then Some(c - 48)
    else if 97 <= c <= 102 then Some(c - 87)
    else if 65 <= c <= 70 then Some(c - 55)
    else None
  }

  function ParseHex4(t: seq<Byte>): (r: Result<nat>)
    ensures r.Ok? ==> |t| >= 4 && r.value <= 0xFFFF
  {
    if |t| < 4 then Err(TruncatedInput)
    else
      var a, b, c, d := HexValue(t[0]), HexValue(t[1]), HexValue(t[2]), HexValue(t[3]);
      if a.None? || b.None? || c.None? || d.None? then Err(InvalidEncoding)
      else Ok(a.value * 4096 + b.value * 256 + c.value * 16 + d.value)
  }

  function Utf8(cp: nat): seq<Byte>
    requires cp <= 0x10_FFFF
  {
    if cp <= 0x7F then [cp]
    else if cp <= 0x7FF then [0xC0 + cp / 64, 0x80 + cp % 64]
    else if cp <= 0xFFFF then [0xE0 + cp / 4096, 0x80 + cp / 64 % 64, 0x80 + cp % 64]
    else [0xF0 + cp / 262144, 0x80 + cp / 4096 % 64, 0x80 + cp / 64 % 64, 0x80 + cp % 64]
  }

  /** The code point of an escape that starts after `\u`, and the text after it. */
  function ParseUnicode(t: seq<Byte>): (r: Result<Read<seq<Byte>>>)
    ensures r.Ok? ==> |r.value.rest| < |t|
  {
    var h := ParseHex4(t);
    if h.Err? then Err(h.code)
    else
      var high, u := h.value, t[4..];
      if 0xD800 <= high <= 0xDBFF then
        if |u| < 2 || u[0] != BACKSLASH || u[1] != 117 then Err(InvalidEncoding)
        else
          var l := ParseHex4(u[2..]);
          if l.Err? then Err(l.code)
          else if l.value < 0xDC00 || l.value > 0xDFFF then Err(InvalidEncoding)
          else Ok(Read(Utf8(0x1_0000 + (high - 0xD800) * 1024 + (l.value - 0xDC00)), u[6..]))
      else if 0xDC00 <= high <= 0xDFFF then Err(InvalidEncoding)
      else Ok(Read(Utf8(high), u))
  }

  /** What a one-letter escape stands for. */
  function SimpleEscape(c: Byte): Option<Byte> {
    if c == 34 then Some(34)
    else if c == 92 then Some(92)
    else if c == 47 then Some(47)
    else if c == 98 then Some(8)
    else if c == 102 then Some(12)
    else if c == 110 then Some(10)
    else if c == 114 then Some(13)
    else if c == 116 then Some(9)
    else None
  }

  function Prepend(head: seq<Byte>, r: Result<Read<seq<Byte>>>): Result<Read<seq<Byte>>> {
    if r.Err? then r else Ok(Read(head + r.value.value, r.value.rest))
  }

  /** A string after its opening quote. */
  function ParseBody(t: seq<Byte>): (r: Result<Read<seq<Byte>>>)
    ensures r.Ok? ==> |r.value.rest| < |t|
    decreases |t|
  {
    if t == [] then Err(TruncatedInput)
    else if t[0] == QUOTE then Ok(Read([], t[1..]))
    else if t[0] < 32 then Err(InvalidEncoding)
    else if t[0] != BACKSLASH then Prepend([t[0]], ParseBody(t[1..]))
    else if |t| < 2 then Err(TruncatedInput)
    else if t[1] == 117 then
      var u := ParseUnicode(t[2..]);
      if u.Err? then u else Prepend(u.value.value, ParseBody(u.value.rest))
    else
      var e := SimpleEscape(t[1]);
      if e.None? then Err(InvalidEncoding) else Prepend([e.value], ParseBody(t[2..]))
  }

  predicate Named(members: seq<Member>, name: seq<Byte>) { exists m :: m in members && m.name == name }

  function ParseValue(t: seq<Byte>, depth: nat): (r: Result<Read<Json>>)
    ensures r.Ok? ==> |r.value.rest| < |t|
    decreases |t|, 2
  {
    if depth > MAX_DEPTH then Err(DepthLimitExceeded)
    else if t == [] then Err(TruncatedInput)
    else if t[0] == OPEN_OBJECT then
      var u := SkipBlanks(t[1..]);
      if u != [] && u[0] == CLOSE_OBJECT then Ok(Read(Obj([]), u[1..]))
      else
        var r := ParseMembers(u, depth + 1, []);
        if r.Err? then Err(r.code) else Ok(Read(Obj(r.value.value), r.value.rest))
    else if t[0] == OPEN_ARRAY then
      var u := SkipBlanks(t[1..]);
      if u != [] && u[0] == CLOSE_ARRAY then Ok(Read(Arr([]), u[1..]))
      else
        var r := ParseItems(u, depth + 1);
        if r.Err? then Err(r.code) else Ok(Read(Arr(r.value.value), r.value.rest))
    else if t[0] == QUOTE then
      var s := ParseBody(t[1..]);
      if s.Err? then Err(s.code) else Ok(Read(Str(s.value.value), s.value.rest))
    else if t[0] == 116 then ParseLiteral(t, TRUE_TEXT, Bool(true))
    else if t[0] == 102 then ParseLiteral(t, FALSE_TEXT, Bool(false))
    else if t[0] == 110 then ParseLiteral(t, NULL_TEXT, Null)
    else if t[0] == MINUS || IsDigit(t[0]) then ParseNumber(t)
    else Err(MalformedInput)
  }

  /** The elements of an array, up to and including the closing bracket. */
  function ParseItems(t: seq<Byte>, depth: nat): (r: Result<Read<seq<Json>>>)
    ensures r.Ok? ==> |r.value.rest| < |t|
    decreases |t|, 3
  {
    var v := ParseValue(SkipBlanks(t), depth);
    if v.Err? then Err(v.code)
    else
      var u := SkipBlanks(v.value.rest);
      if u != [] && u[0] == COMMA then
        var r := ParseItems(u[1..], depth);
        if r.Err? then r else Ok(Read([v.value.value] + r.value.value, r.value.rest))
      else if u != [] && u[0] == CLOSE_ARRAY then Ok(Read([v.value.value], u[1..]))
      else Err(MalformedInput)
  }

  /** The members of an object after those in `before`. */
  function ParseMembers(t: seq<Byte>, depth: nat, before: seq<Member>): (r: Result<Read<seq<Member>>>)
    ensures r.Ok? ==> |r.value.rest| < |t|
    decreases |t|, 3
  {
    var n := SkipBlanks(t);
    if n == [] || n[0] != QUOTE then Err(MalformedInput)
    else
      var name := ParseBody(n[1..]);
      if name.Err? then Err(name.code)
      else
        var c := SkipBlanks(name.value.rest);
        if c == [] || c[0] != COLON then Err(MalformedInput)
        else
          var v := ParseValue(SkipBlanks(c[1..]), depth);
          if v.Err? then Err(v.code)
          else if Named(before, name.value.value) then Err(DuplicateIdentity)
          else
            var all := before + [Member(name.value.value, v.value.value)];
            var u := SkipBlanks(v.value.rest);
            if u != [] && u[0] == COMMA then ParseMembers(u[1..], depth, all)
            else if u != [] && u[0] == CLOSE_OBJECT then Ok(Read(all, u[1..]))
            else Err(MalformedInput)
  }

  function Parse(text: seq<Byte>, maxBytes: nat): Result<Json> {
    if |text| > maxBytes then Err(OversizedInput)
    else
      var r := ParseValue(SkipBlanks(text), 0);
      if r.Err? then Err(r.code)
      else if SkipBlanks(r.value.rest) != [] then Err(MalformedInput)
      else Ok(r.value.value)
  }

  // ---------------------------------------------------------------------
  // What survives printing and parsing.
  // ---------------------------------------------------------------------

  predicate Distinct(members: seq<Member>) {
    forall i, j :: 0 <= i < j < |members| ==> members[i].name != members[j].name
  }

  /** Nesting within bounds, member names unique, integers short enough. */
  predicate Printable(v: Json, depth: nat) {
    && depth <= MAX_DEPTH
    && match v
       case Int(n) => 0 <= n + I64_MAX + 1 && n <= I64_MAX && |IntText(n)| <= MAX_DIGITS
       case Arr(items) => forall i :: 0 <= i < |items| ==> Printable(items[i], depth + 1)
       case Obj(members) => Distinct(members) && forall i :: 0 <= i < |members| ==> Printable(members[i].value, depth + 1)
       case _ => true
  }
}
