/** Printing and parsing undo each other on exactly the printable values. */
module JsonCodec {
  import opened Base
  import opened Bytes
  import opened Json

  // ---------------------------------------------------------------------
  // Strings.
  // ---------------------------------------------------------------------

  lemma HexRound(n: nat)
    requires n < 16
    ensures HexValue(HexDigit(n)) == Some(n)
  {
  }

  lemma ControlRound(c: Byte, t: seq<Byte>)
    requires c < 32
    ensures ParseUnicode([48, 48, HexDigit(c / 16), HexDigit(c % 16)] + t) == Ok(Read([c], t))
  {
    HexRound(c / 16);
    HexRound(c % 16);
    var u := [48, 48, HexDigit(c / 16), HexDigit(c % 16)] + t;
    assert u[4..] == t;
    hide HexDigit;
    assert ParseHex4(u) == Ok(c);
    hide ParseHex4;
  }

  /** What an escape stands for, after its backslash. */
  function EscapeOf(t: seq<Byte>): Result<Read<seq<Byte>>> {
    if t == [] then Err(TruncatedInput)
    else if t[0] == 117 then ParseUnicode(t[1..])
    else
      var e := SimpleEscape(t[0]);
      if e.None? then Err(InvalidEncoding) else Ok(Read([e.value], t[1..]))
  }

  lemma BodyStep(t: seq<Byte>)
    ensures ParseBody(t) ==
      if t == [] then Err(TruncatedInput)
      else if t[0] == QUOTE then Ok(Read([], t[1..]))
      else if t[0] < 32 then Err(InvalidEncoding)
      else if t[0] != BACKSLASH then Prepend([t[0]], ParseBody(t[1..]))
      else
        (var e := EscapeOf(t[1..]);
        if e.Err? then Err(e.code) else Prepend(e.value.value, ParseBody(e.value.rest)))
  {
    hide ParseUnicode, SimpleEscape;
    if |t| >= 2 { assert t[1..][0] == t[1] && t[1..][1..] == t[2..]; }
  }

  /** The escape of a byte that needs one. */
  lemma EscapeIs(c: Byte, t: seq<Byte>)
    requires |EscapeByte(c)| > 1
    ensures EscapeByte(c)[0] == BACKSLASH && EscapeOf(EscapeByte(c)[1..] + t) == Ok(Read([c], t))
  {
    hide ParseUnicode, HexDigit;
    var e := EscapeByte(c);
    var u := e[1..] + t;
    assert u[0] == e[1];
    if |e| == 2 {
      assert u[1..] == t;
    } else {
      assert u[1..] == [48, 48, HexDigit(c / 16), HexDigit(c % 16)] + t;
      ControlRound(c, t);
    }
  }

  /** Reading one escaped byte. */
  lemma ByteRound(c: Byte, t: seq<Byte>)
    ensures ParseBody(EscapeByte(c) + t) == Prepend([c], ParseBody(t))
  {
    hide ParseBody, ParseUnicode, HexDigit;
    var e := EscapeByte(c);
    var all := e + t;
    BodyStep(all);
    assert all[0] == e[0];
    if |e| == 1 {
      assert all[1..] == t;
    } else {
      EscapeIs(c, t);
      assert all[1..] == e[1..] + t;
      hide EscapeOf, EscapeByte;
    }
  }

  lemma {:induction false} BodyRound(text: seq<Byte>, rest: seq<Byte>)
    ensures ParseBody(EscapeBody(text) + [QUOTE] + rest) == Ok(Read(text, rest))
  {
    if text == [] {
      var t := EscapeBody(text) + [QUOTE] + rest;
      assert t[1..] == rest;
    } else {
      var t := EscapeBody(text[1..]) + [QUOTE] + rest;
      assert EscapeBody(text) + [QUOTE] + rest == EscapeByte(text[0]) + t;
      ByteRound(text[0], t);
      BodyRound(text[1..], rest);
      hide ParseBody, EscapeByte;
      assert text == [text[0]] + text[1..];
    }
  }

  lemma EscapeRound(text: seq<Byte>, rest: seq<Byte>)
    ensures (Escape(text) + rest)[0] == QUOTE && ParseBody((Escape(text) + rest)[1..]) == Ok(Read(text, rest))
  {
    BodyRound(text, rest);
    hide ParseBody, EscapeBody;
    assert (Escape(text) + rest)[1..] == EscapeBody(text) + [QUOTE] + rest;
  }

  // ---------------------------------------------------------------------
  // Numbers.
  // ---------------------------------------------------------------------

  /** Text after which a number has ended. */
  predicate Stop(rest: seq<Byte>) {
    rest == [] || (!IsDigit(rest[0]) && rest[0] != 46 && rest[0] != 101 && rest[0] != 69)
  }

  predicate AllDigits(t: seq<Byte>) { forall i :: 0 <= i < |t| ==> IsDigit(t[i]) }

  lemma {:induction false} CountAll(d: seq<Byte>, rest: seq<Byte>)
    requires AllDigits(d) && Stop(rest)
    ensures DigitCount(d + rest) == |d|
  {
    if d == [] {
      assert d + rest == rest;
    } else {
      assert (d + rest)[1..] == d[1..] + rest && (d + rest)[0] == d[0];
      CountAll(d[1..], rest);
    }
  }

  lemma {:induction false} AccumulateSplits(a: seq<Byte>, b: seq<Byte>, v: nat)
    requires AllDigits(a) && AllDigits(b)
    ensures AllDigits(a + b)
    ensures Accumulate(a + b, v) == (var m := Accumulate(a, v); if m.None? then None else Accumulate(b, m.value))
    decreases |a|
  {
    if a == [] {
      assert a + b == b;
    } else {
      assert (a + b)[1..] == a[1..] + b && (a + b)[0] == a[0];
      var d := a[0] as int - 48;
      if v <= (I64_MAX - d) / 10 { AccumulateSplits(a[1..], b, v * 10 + d); }
    }
  }

  lemma AccumulateOne(v: nat, d: nat)
    requires d < 10
    ensures Accumulate([48 + d], v) == if 10 * v + d <= I64_MAX then Some(10 * v + d) else None
  {
    assert [48 + d][1..] == [];
    assert Accumulate([], v * 10 + d) == Some(v * 10 + d);
  }

  lemma {:induction false} DigitsRound(n: nat)
    requires n <= I64_MAX
    ensures Accumulate(Digits(n), 0) == Some(n)
  {
    if n < 10 {
      AccumulateOne(0, n);
    } else {
      DigitsRound(n / 10);
      AccumulateSplits(Digits(n / 10), [48 + n % 10], 0);
      AccumulateOne(n / 10, n % 10);
    }
  }

  lemma UnsignedRound(m: nat, rest: seq<Byte>)
    requires m <= I64_MAX && |Digits(m)| <= MAX_DIGITS && Stop(rest)
    ensures ParseNumber(Digits(m) + rest) == Ok(Read(Int(m), rest))
  {
    var d := Digits(m);
    var t := d + rest;
    assert IsDigit(d[0]);
    CountAll(d, rest);
    DigitsRound(m);
    hide Digits, Accumulate, DigitCount;
    assert t[0..] == t && t[0..|d|] == d && t[|d|..] == rest;
  }

  lemma NegativeRound(m: nat, rest: seq<Byte>)
    requires m <= I64_MAX && 1 + |Digits(m)| <= MAX_DIGITS && Stop(rest)
    ensures ParseNumber([MINUS] + Digits(m) + rest) == Ok(Read(Int(0 - m), rest))
  {
    hide Digits, Accumulate, DigitCount;
    var d := Digits(m);
    var t := [MINUS] + d + rest;
    DigitsRound(m);
    CountAll(d, rest);
    assert t[1..] == d + rest && t[1..1 + |d|] == d && t[1 + |d|..] == rest;
  }

  lemma NumberRound(n: int, rest: seq<Byte>)
    requires 0 <= n + I64_MAX + 1 && n <= I64_MAX && |IntText(n)| <= MAX_DIGITS && Stop(rest)
    ensures ParseNumber(IntText(n) + rest) == Ok(Read(Int(n), rest))
  {
    if n < 0 {
      LongestNegative(n);
      NegativeRound(-n, rest);
    } else {
      UnsignedRound(n, rest);
    }
    hide Digits, ParseNumber, Stop;
  }

  /** The least 64-bit integer does not print in nineteen characters. */
  lemma LongestNegative(n: int)
    requires n < 0 && n + I64_MAX + 1 >= 0 && |IntText(n)| <= MAX_DIGITS
    ensures -n <= I64_MAX
  {
    if n == -0x8000_0000_0000_0000 {
      DigitsBound(0x8000_0000_0000_0000, 18);
      Pow10At18();
    }
  }

  function Pow10(k: nat): nat { if k == 0 then 1 else 10 * Pow10(k - 1) }

  lemma Pow10At18()
    ensures Pow10(18) == 1_000_000_000_000_000_000
  {
    assert Pow10(6) == 1_000_000 by { assert Pow10(3) == 1000; }
    assert Pow10(12) == 1_000_000_000_000 by { assert Pow10(9) == 1_000_000_000; }
    assert Pow10(15) == 1_000_000_000_000_000;
  }

  /** A number prints in at most `k` digits exactly when it is below ten to the `k`. */
  lemma {:induction false} DigitsBound(n: nat, k: nat)
    requires k > 0
    ensures |Digits(n)| <= k <==> n < Pow10(k)
    decreases k
  {
    if k == 1 {
      assert Pow10(1) == 10;
      if n >= 10 { assert |Digits(n)| >= 2; }
    } else if n < 10 {
      assert Pow10(k) >= 10 by { AtLeastTen(k); }
    } else {
      DigitsBound(n / 10, k - 1);
    }
  }

  lemma {:induction false} AtLeastTen(k: nat)
    requires k > 0
    ensures Pow10(k) >= 10
  {
    if k > 1 { AtLeastTen(k - 1); }
  }

  // ---------------------------------------------------------------------
  // Blanks.
  // ---------------------------------------------------------------------

  predicate Solid(t: seq<Byte>) { t != [] && !Blank(t[0]) }

  lemma {:induction false} SkipSpaces(n: nat, t: seq<Byte>)
    requires Solid(t)
    ensures SkipBlanks(Spaces(n) + t) == t
    decreases n
  {
    if n == 0 {
      assert Spaces(0) + t == t;
    } else {
      assert (Spaces(n) + t)[1..] == Spaces(n - 1) + t && (Spaces(n) + t)[0] == SPACE;
      SkipSpaces(n - 1, t);
    }
  }

  lemma SkipLine(pretty: bool, indent: nat, t: seq<Byte>)
    requires Solid(t)
    ensures SkipBlanks(Line(pretty, indent) + t) == t
  {
    if pretty {
      var u := Spaces(2 * indent) + t;
      assert Line(pretty, indent) + t == [NEWLINE] + u && ([NEWLINE] + u)[1..] == u;
      SkipSpaces(2 * indent, t);
    } else {
      assert Line(pretty, indent) + t == t;
    }
  }

  lemma SkipTwice(t: seq<Byte>)
    ensures SkipBlanks(SkipBlanks(t)) == SkipBlanks(t)
  {
  }

  /** What a printed value starts with. */
  lemma FirstChar(v: Json, pretty: bool, indent: nat)
    ensures var p := Print(v, pretty, indent);
      p != [] && !Blank(p[0]) && p[0] != CLOSE_ARRAY && p[0] != CLOSE_OBJECT && p[0] != COMMA
  {
    if v.Int? && v.number >= 0 { assert IsDigit(Digits(v.number)[0]); }
  }

  // ---------------------------------------------------------------------
  // Parsing what was printed.
  // ---------------------------------------------------------------------

  lemma LiteralRound(text: seq<Byte>, v: Json, rest: seq<Byte>)
    requires text != []
    ensures ParseLiteral(text + rest, text, v) == Ok(Read(v, rest))
  {
    assert (text + rest)[|text|..] == rest;
  }

  lemma LiteralsRound(v: Json, pretty: bool, indent: nat, depth: nat, rest: seq<Byte>)
    requires (v.Null? || v.Bool?) && depth <= MAX_DEPTH
    ensures ParseValue(Print(v, pretty, indent) + rest, depth) == Ok(Read(v, rest))
  {
    LiteralRound(NULL_TEXT, Null, rest);
    LiteralRound(TRUE_TEXT, Bool(true), rest);
    LiteralRound(FALSE_TEXT, Bool(false), rest);
    assert (NULL_TEXT + rest)[0] == 110 && (TRUE_TEXT + rest)[0] == 116 && (FALSE_TEXT + rest)[0] == 102;
    hide ParseLiteral;
  }

  /** A printed value, whatever follows it, parses back. */
  lemma {:induction false} ValueRound(v: Json, pretty: bool, indent: nat, depth: nat, rest: seq<Byte>)
    requires Printable(v, depth) && Stop(rest)
    ensures ParseValue(Print(v, pretty, indent) + rest, depth) == Ok(Read(v, rest))
    decreases v, 2
  {
    match v
    case Null => LiteralsRound(v, pretty, indent, depth, rest);
    case Bool(_) => LiteralsRound(v, pretty, indent, depth, rest);
    case Int(n) => IntRound(n, pretty, indent, depth, rest);
    case Str(s) => StringRound(s, pretty, indent, depth, rest);
    case Arr(items) => ArrayRound(items, pretty, indent, depth, rest);
    case Obj(members) => ObjectRound(members, pretty, indent, depth, rest);
  }

  lemma IntRound(n: int, pretty: bool, indent: nat, depth: nat, rest: seq<Byte>)
    requires Printable(Int(n), depth) && Stop(rest)
    ensures ParseValue(Print(Int(n), pretty, indent) + rest, depth) == Ok(Read(Int(n), rest))
  {
    NumberRound(n, rest);
    var t := IntText(n) + rest;
    assert t[0] == MINUS || IsDigit(t[0]) by {
      if n >= 0 { assert IsDigit(Digits(n)[0]); }
    }
    hide ParseNumber, Digits;
  }

  lemma StringRound(s: seq<Byte>, pretty: bool, indent: nat, depth: nat, rest: seq<Byte>)
    requires depth <= MAX_DEPTH
    ensures ParseValue(Print(Str(s), pretty, indent) + rest, depth) == Ok(Read(Str(s), rest))
  {
    EscapeRound(s, rest);
    var t := Escape(s) + rest;
    assert t != [] && t[0] == QUOTE && Print(Str(s), pretty, indent) == Escape(s);
    hide ParseBody, Escape, Print;
  }

  lemma ArrayStep(body: seq<Byte>, depth: nat)
    requires depth <= MAX_DEPTH && SkipBlanks(body) != [] && SkipBlanks(body)[0] != CLOSE_ARRAY
    ensures var r := ParseItems(body, depth + 1);
      ParseValue([OPEN_ARRAY] + body, depth) == if r.Err? then Err(r.code) else Ok(Read(Arr(r.value.value), r.value.rest))
  {
    assert ([OPEN_ARRAY] + body)[1..] == body;
    ItemsSkip(body, depth + 1);
    hide ParseItems, ParseMembers;
  }

  /** Leading blanks do not matter to the element loop. */
  lemma ItemsSkip(t: seq<Byte>, depth: nat)
    ensures ParseItems(SkipBlanks(t), depth) == ParseItems(t, depth)
  {
    SkipTwice(t);
    hide ParseValue, SkipBlanks;
  }

  /** A closing bracket after the line break of a printed container. */
  function Closing(pretty: bool, indent: nat, close: Byte, rest: seq<Byte>): seq<Byte> {
    Line(pretty, indent) + ([close] + rest)
  }

  lemma ClosingOk(pretty: bool, indent: nat, close: Byte, rest: seq<Byte>)
    requires close == CLOSE_ARRAY || close == CLOSE_OBJECT
    ensures var tail := Closing(pretty, indent, close, rest);
      SkipBlanks(tail) == [close] + rest && Stop(tail) && ([close] + rest)[1..] == rest
  {
    SkipLine(pretty, indent, [close] + rest);
    var tail := Closing(pretty, indent, close, rest);
    assert tail[0] == if pretty then NEWLINE else close;
    hide SkipBlanks;
  }

  lemma ArrayText(items: seq<Json>, pretty: bool, indent: nat, rest: seq<Byte>)
    requires items != []
    ensures Print(Arr(items), pretty, indent) + rest
         == [OPEN_ARRAY] + (PrintItems(items, pretty, indent + 1) + Closing(pretty, indent, CLOSE_ARRAY, rest))
  {
    hide PrintItems, Line;
    var p, l := PrintItems(items, pretty, indent + 1), Line(pretty, indent);
    assert Print(Arr(items), pretty, indent) == [OPEN_ARRAY] + p + l + [CLOSE_ARRAY];
    hide Print;
    Chain([OPEN_ARRAY] + p + l, [CLOSE_ARRAY], rest);
    Chain([OPEN_ARRAY] + p, l, [CLOSE_ARRAY] + rest);
    Chain([OPEN_ARRAY], p, l + ([CLOSE_ARRAY] + rest));
  }

  lemma {:induction false} ArrayRound(items: seq<Json>, pretty: bool, indent: nat, depth: nat, rest: seq<Byte>)
    requires Printable(Arr(items), depth) && Stop(rest)
    ensures ParseValue(Print(Arr(items), pretty, indent) + rest, depth) == Ok(Read(Arr(items), rest))
    decreases items, 3
  {
    if items == [] {
      EachPrintable(items, depth);
      hide ParseValue, Print, Printable;
      EmptyArray(pretty, indent, depth, rest);
    } else {
      hide ParseValue, ParseItems, Print, PrintItems, SkipBlanks, Printable, Closing, Stop, AfterItem;
      var tail := Closing(pretty, indent, CLOSE_ARRAY, rest);
      EachPrintable(items, depth);
      ArrayText(items, pretty, indent, rest);
      ItemsText(items, pretty, indent + 1, tail);
      ClosingOk(pretty, indent, CLOSE_ARRAY, rest);
      ArrayStep(PrintItems(items, pretty, indent + 1) + tail, depth);
      ItemsRound(items, pretty, indent + 1, depth + 1, tail, rest);
    }
  }

  lemma EachPrintable(items: seq<Json>, depth: nat)
    requires Printable(Arr(items), depth)
    ensures depth <= MAX_DEPTH && forall i :: 0 <= i < |items| ==> Printable(items[i], depth + 1)
  {
  }

  lemma EmptyArray(pretty: bool, indent: nat, depth: nat, rest: seq<Byte>)
    requires depth <= MAX_DEPTH
    ensures ParseValue(Print(Arr([]), pretty, indent) + rest, depth) == Ok(Read(Arr([]), rest))
  {
    var t := [OPEN_ARRAY, CLOSE_ARRAY] + rest;
    assert t[1..] == [CLOSE_ARRAY] + rest && ([CLOSE_ARRAY] + rest)[1..] == rest;
    hide ParseItems, ParseMembers;
  }

  function AfterItem(items: seq<Json>, pretty: bool, indent: nat, tail: seq<Byte>): seq<Byte>
    requires items != []
  {
    if |items| == 1 then tail else [COMMA] + (PrintItems(items[1..], pretty, indent) + tail)
  }

  lemma ItemsSplit(items: seq<Json>, pretty: bool, indent: nat, tail: seq<Byte>)
    requires items != []
    ensures PrintItems(items, pretty, indent) + tail
         == Line(pretty, indent) + (Print(items[0], pretty, indent) + AfterItem(items, pretty, indent, tail))
  {
    hide Print, Line;
    var l, p := Line(pretty, indent), Print(items[0], pretty, indent);
    if |items| == 1 {
      assert PrintItems(items, pretty, indent) == l + p;
      hide PrintItems;
      Chain(l, p, tail);
    } else {
      var m := PrintItems(items[1..], pretty, indent);
      assert PrintItems(items, pretty, indent) == l + p + ([COMMA] + m);
      hide PrintItems;
      Chain(l + p, [COMMA] + m, tail);
      Chain([COMMA], m, tail);
      Chain(l, p, [COMMA] + (m + tail));
    }
  }

  /** The first element comes right after the blanks, and is no bracket. */
  lemma ItemsText(items: seq<Json>, pretty: bool, indent: nat, tail: seq<Byte>)
    requires items != []
    ensures var u := SkipBlanks(PrintItems(items, pretty, indent) + tail);
      u == Print(items[0], pretty, indent) + AfterItem(items, pretty, indent, tail) && u != [] && u[0] != CLOSE_ARRAY
  {
    hide Print, PrintItems, Line, SkipBlanks, AfterItem;
    ItemsSplit(items, pretty, indent, tail);
    FirstChar(items[0], pretty, indent);
    SkipLine(pretty, indent, Print(items[0], pretty, indent) + AfterItem(items, pretty, indent, tail));
  }

  lemma AfterItemOk(items: seq<Json>, pretty: bool, indent: nat, tail: seq<Byte>)
    requires items != [] && Stop(tail)
    ensures var after := AfterItem(items, pretty, indent, tail);
      && Stop(after)
      && (|items| > 1 ==> after != [] && after[0] == COMMA && SkipBlanks(after) == after
                          && after[1..] == PrintItems(items[1..], pretty, indent) + tail)
  {
    hide PrintItems;
  }

  /** One round of the element loop. */
  lemma ItemStep(t: seq<Byte>, depth: nat, v: Json, after: seq<Byte>)
    requires ParseValue(SkipBlanks(t), depth) == Ok(Read(v, after))
    ensures var u := SkipBlanks(after);
      ParseItems(t, depth) ==
        if u != [] && u[0] == COMMA then
          (var r := ParseItems(u[1..], depth); if r.Err? then r else Ok(Read([v] + r.value.value, r.value.rest)))
        else if u != [] && u[0] == CLOSE_ARRAY then Ok(Read([v], u[1..]))
        else Err(MalformedInput)
  {
    hide ParseValue, SkipBlanks;
  }

  lemma {:induction false} ItemsRound(items: seq<Json>, pretty: bool, indent: nat, depth: nat, tail: seq<Byte>, rest: seq<Byte>)
    requires items != [] && forall i :: 0 <= i < |items| ==> Printable(items[i], depth)
    requires SkipBlanks(tail) == [CLOSE_ARRAY] + rest && Stop(tail) && ([CLOSE_ARRAY] + rest)[1..] == rest
    ensures ParseItems(PrintItems(items, pretty, indent) + tail, depth) == Ok(Read(items, rest))
    decreases items, 2
  {
    hide ParseValue, ParseItems, Print, PrintItems, SkipBlanks, Printable, Stop;
    var after := AfterItem(items, pretty, indent, tail);
    ItemsText(items, pretty, indent, tail);
    AfterItemOk(items, pretty, indent, tail);
    assert Printable(items[0], depth);
    ValueRound(items[0], pretty, indent, depth, after);
    ItemStep(PrintItems(items, pretty, indent) + tail, depth, items[0], after);
    if |items| == 1 {
      assert after == tail && items == [items[0]];
    } else {
      hide AfterItem;
      ItemsRound(items[1..], pretty, indent, depth, tail, rest);
      assert items == [items[0]] + items[1..];
    }
  }

  lemma ObjectStep(body: seq<Byte>, depth: nat)
    requires depth <= MAX_DEPTH && SkipBlanks(body) != [] && SkipBlanks(body)[0] != CLOSE_OBJECT
    ensures var r := ParseMembers(body, depth + 1, []);
      ParseValue([OPEN_OBJECT] + body, depth) == if r.Err? then Err(r.code) else Ok(Read(Obj(r.value.value), r.value.rest))
  {
    assert ([OPEN_OBJECT] + body)[1..] == body;
    MembersSkip(body, depth + 1);
    hide ParseItems, ParseMembers;
  }

  lemma MembersSkip(t: seq<Byte>, depth: nat)
    ensures ParseMembers(SkipBlanks(t), depth, []) == ParseMembers(t, depth, [])
  {
    SkipTwice(t);
    hide ParseValue, ParseBody, SkipBlanks;
  }

  /** The text of the first member from its name on. */
  function FromName(members: seq<Member>, pretty: bool, indent: nat, tail: seq<Byte>): seq<Byte>
    requires members != []
  {
    Escape(members[0].name) + FromColon(members, pretty, indent, tail)
  }

  function FromColon(members: seq<Member>, pretty: bool, indent: nat, tail: seq<Byte>): seq<Byte>
    requires members != []
  {
    [COLON] + ((if pretty then [SPACE] else []) + (Print(members[0].value, pretty, indent) + After(members, pretty, indent, tail)))
  }

  function After(members: seq<Member>, pretty: bool, indent: nat, tail: seq<Byte>): seq<Byte>
    requires members != []
  {
    if |members| == 1 then tail else [COMMA] + (PrintMembers(members[1..], pretty, indent) + tail)
  }

  lemma MembersText(members: seq<Member>, pretty: bool, indent: nat, tail: seq<Byte>)
    requires members != []
    ensures PrintMembers(members, pretty, indent) + tail == Line(pretty, indent) + FromName(members, pretty, indent, tail)
  {
    hide Print, Escape, Line;
    var l, e, p := Line(pretty, indent), Escape(members[0].name), Print(members[0].value, pretty, indent);
    var sp: seq<Byte> := if pretty then [SPACE] else [];
    var m: seq<Byte> := if |members| == 1 then [] else [COMMA] + PrintMembers(members[1..], pretty, indent);
    assert PrintMembers(members, pretty, indent) == l + e + [COLON] + sp + p + m;
    assert After(members, pretty, indent, tail) == m + tail;
    hide PrintMembers, After;
    Regroup6(l, e, sp, p, m, tail);
  }

  lemma Regroup6(l: seq<Byte>, e: seq<Byte>, sp: seq<Byte>, p: seq<Byte>, m: seq<Byte>, tail: seq<Byte>)
    ensures l + e + [COLON] + sp + p + m + tail == l + (e + ([COLON] + (sp + (p + (m + tail)))))
  {
    Chain(l + e + [COLON] + sp + p, m, tail);
    Chain(l + e + [COLON] + sp, p, m + tail);
    Chain(l + e + [COLON], sp, p + (m + tail));
    Chain(l + e, [COLON], sp + (p + (m + tail)));
    Chain(l, e, [COLON] + (sp + (p + (m + tail))));
  }

  lemma QuoteFirst(members: seq<Member>, pretty: bool, indent: nat, tail: seq<Byte>)
    requires members != []
    ensures var u := FromName(members, pretty, indent, tail); Solid(u) && u[0] == QUOTE
    ensures SkipBlanks(PrintMembers(members, pretty, indent) + tail) == FromName(members, pretty, indent, tail)
  {
    MembersText(members, pretty, indent, tail);
    hide PrintMembers, FromColon, EscapeBody;
    SkipLine(pretty, indent, FromName(members, pretty, indent, tail));
  }

  lemma ObjectText(members: seq<Member>, pretty: bool, indent: nat, rest: seq<Byte>)
    requires members != []
    ensures Print(Obj(members), pretty, indent) + rest
         == [OPEN_OBJECT] + (PrintMembers(members, pretty, indent + 1) + Closing(pretty, indent, CLOSE_OBJECT, rest))
  {
    hide PrintMembers, Line;
    var p, l := PrintMembers(members, pretty, indent + 1), Line(pretty, indent);
    assert Print(Obj(members), pretty, indent) == [OPEN_OBJECT] + p + l + [CLOSE_OBJECT];
    hide Print;
    Chain([OPEN_OBJECT] + p + l, [CLOSE_OBJECT], rest);
    Chain([OPEN_OBJECT] + p, l, [CLOSE_OBJECT] + rest);
    Chain([OPEN_OBJECT], p, l + ([CLOSE_OBJECT] + rest));
  }

  lemma MembersPrintable(members: seq<Member>, depth: nat)
    requires Printable(Obj(members), depth)
    ensures depth <= MAX_DEPTH && Distinct(members) && forall i :: 0 <= i < |members| ==> Printable(members[i].value, depth + 1)
  {
  }

  lemma EmptyObject(pretty: bool, indent: nat, depth: nat, rest: seq<Byte>)
    requires depth <= MAX_DEPTH
    ensures ParseValue(Print(Obj([]), pretty, indent) + rest, depth) == Ok(Read(Obj([]), rest))
  {
    var t := [OPEN_OBJECT, CLOSE_OBJECT] + rest;
    assert t[1..] == [CLOSE_OBJECT] + rest && ([CLOSE_OBJECT] + rest)[1..] == rest;
    hide ParseItems, ParseMembers;
  }

  lemma {:induction false} ObjectRound(members: seq<Member>, pretty: bool, indent: nat, depth: nat, rest: seq<Byte>)
    requires Printable(Obj(members), depth) && Stop(rest)
    ensures ParseValue(Print(Obj(members), pretty, indent) + rest, depth) == Ok(Read(Obj(members), rest))
    decreases members, 3
  {
    hide ParseValue, Print, PrintMembers, SkipBlanks, Printable, Closing, Stop, FromName, ParseMembers, Distinct;
    MembersPrintable(members, depth);
    if members == [] {
      EmptyObject(pretty, indent, depth, rest);
    } else {
      var tail := Closing(pretty, indent, CLOSE_OBJECT, rest);
      ObjectText(members, pretty, indent, rest);
      QuoteFirst(members, pretty, indent + 1, tail);
      ClosingOk(pretty, indent, CLOSE_OBJECT, rest);
      ObjectStep(PrintMembers(members, pretty, indent + 1) + tail, depth);
      assert [] + members == members;
      MembersRound(members, pretty, indent + 1, depth + 1, [], tail, rest);
    }
  }

  lemma SkipOne(pretty: bool, t: seq<Byte>)
    requires Solid(t)
    ensures SkipBlanks((if pretty then [SPACE] else []) + t) == t
  {
    if pretty { assert ([SPACE] + t)[1..] == t; } else { assert [] + t == t; }
  }

  lemma AfterOk(members: seq<Member>, pretty: bool, indent: nat, tail: seq<Byte>)
    requires members != [] && Stop(tail)
    ensures var after := After(members, pretty, indent, tail);
      && Stop(after)
      && (|members| > 1 ==> after != [] && after[0] == COMMA && SkipBlanks(after) == after
                            && after[1..] == PrintMembers(members[1..], pretty, indent) + tail)
  {
    hide PrintMembers;
  }

  lemma {:induction false} MembersRound(members: seq<Member>, pretty: bool, indent: nat, depth: nat, before: seq<Member>,
                                        tail: seq<Byte>, rest: seq<Byte>)
    requires members != [] && Distinct(before + members)
    requires forall i :: 0 <= i < |members| ==> Printable(members[i].value, depth)
    requires SkipBlanks(tail) == [CLOSE_OBJECT] + rest && Stop(tail) && ([CLOSE_OBJECT] + rest)[1..] == rest
    ensures ParseMembers(PrintMembers(members, pretty, indent) + tail, depth, before) == Ok(Read(before + members, rest))
    decreases members, 2
  {
    hide ParseValue, ParseMembers, ParseBody, Print, PrintMembers, SkipBlanks, Printable, Stop, FromColon, Escape, Distinct, Named;
    var m := members[0];
    var after := After(members, pretty, indent, tail);
    QuoteFirst(members, pretty, indent, tail);
    FirstChar(m.value, pretty, indent);
    SkipOne(pretty, Print(m.value, pretty, indent) + after);
    EscapeRound(m.name, FromColon(members, pretty, indent, tail));
    AfterOk(members, pretty, indent, tail);
    assert Printable(members[0].value, depth);
    ValueRound(m.value, pretty, indent, depth, after);
    NewName(before, members);
    MemberStep(members, pretty, indent, depth, before, tail);
    var all := before + [m];
    assert before + members == all + members[1..];
    if |members| == 1 {
      assert after == tail && all == before + members;
    } else {
      hide After;
      MembersRound(members[1..], pretty, indent, depth, all, tail, rest);
    }
  }

  lemma NewName(before: seq<Member>, members: seq<Member>)
    requires members != [] && Distinct(before + members)
    ensures !Named(before, members[0].name)
  {
    forall m | m in before ensures m.name != members[0].name {
      var k :| 0 <= k < |before| && before[k] == m;
      assert (before + members)[k] == m && (before + members)[|before|] == members[0];
    }
  }

  /** One round of the member loop on printed text. */
  lemma MemberStep(members: seq<Member>, pretty: bool, indent: nat, depth: nat, before: seq<Member>, tail: seq<Byte>)
    requires members != [] && !Named(before, members[0].name)
    requires var m := members[0]; var after := After(members, pretty, indent, tail);
      && SkipBlanks(PrintMembers(members, pretty, indent) + tail) == FromName(members, pretty, indent, tail)
      && FromName(members, pretty, indent, tail) != [] && FromName(members, pretty, indent, tail)[0] == QUOTE
      && ParseBody(FromName(members, pretty, indent, tail)[1..]) == Ok(Read(m.name, FromColon(members, pretty, indent, tail)))
      && SkipBlanks((if pretty then [SPACE] else []) + (Print(m.value, pretty, indent) + after)) == Print(m.value, pretty, indent) + after
      && ParseValue(Print(m.value, pretty, indent) + after, depth) == Ok(Read(m.value, after))
    ensures var u := SkipBlanks(After(members, pretty, indent, tail));
      ParseMembers(PrintMembers(members, pretty, indent) + tail, depth, before) ==
        if u != [] && u[0] == COMMA then ParseMembers(u[1..], depth, before + [members[0]])
        else if u != [] && u[0] == CLOSE_OBJECT then Ok(Read(before + [members[0]], u[1..]))
        else Err(MalformedInput)
  {
    var c := FromColon(members, pretty, indent, tail);
    assert SkipBlanks(c) == c && c[0] == COLON;
    assert c[1..] == (if pretty then [SPACE] else []) + (Print(members[0].value, pretty, indent) + After(members, pretty, indent, tail));
    hide ParseValue, ParseBody, SkipBlanks, PrintMembers, Print, FromName, FromColon, After;
    assert Member(members[0].name, members[0].value) == members[0];
  }

  // ---------------------------------------------------------------------
  // What parsing can return.
  // ---------------------------------------------------------------------

  lemma {:induction false} AccumulateBound(digits: seq<Byte>, v: nat)
    requires AllDigits(digits) && Accumulate(digits, v).Some? && v <= I64_MAX
    ensures Accumulate(digits, v).value <= I64_MAX
    ensures Accumulate(digits, v).value < (v + 1) * Pow10(|digits|)
    decreases |digits|
  {
    if digits != [] {
      var d := digits[0] as int - 48;
      assert IsDigit(digits[0]);
      var w := v * 10 + d;
      AccumulateBound(digits[1..], w);
      var p := Pow10(|digits| - 1);
      assert Pow10(|digits|) == 10 * p && Accumulate(digits, v) == Accumulate(digits[1..], w);
      hide Pow10, Accumulate;
      Wider(w + 1, (v + 1) * 10, p);
      Tenfold(v + 1, p);
    }
  }

  lemma Tenfold(a: nat, p: nat)
    ensures a * 10 * p == a * (10 * p)
  {
  }

  lemma Wider(a: nat, b: nat, p: nat)
    requires a <= b
    ensures a * p <= b * p
  {
    assert (b - a) * p >= 0;
    assert b * p == a * p + (b - a) * p;
  }

  /** A parsed integer prints in at most as many characters as it was read from. */
  lemma ParsedNumber(t: seq<Byte>)
    requires t != [] && ParseNumber(t).Ok?
    ensures var n := ParseNumber(t).value.value;
      n.Int? && 0 <= n.number + I64_MAX + 1 && n.number <= I64_MAX && |IntText(n.number)| <= MAX_DIGITS
  {
    var sign := if t[0] == MINUS then 1 else 0;
    var k := DigitCount(t[sign..]);
    var d := t[sign..sign + k];
    assert forall i :: 0 <= i < k ==> d[i] == t[sign..][i];
    assert AllDigits(d);
    var m := Accumulate(d, 0).value;
    AccumulateBound(d, 0);
    assert (0 + 1) * Pow10(k) == Pow10(k);
    DigitsBound(m, k);
    hide DigitCount, Accumulate, Digits, Pow10;
    assert k <= MAX_DIGITS - sign;
  }

  lemma DistinctSnoc(members: seq<Member>, m: Member)
    requires Distinct(members) && !Named(members, m.name)
    ensures Distinct(members + [m])
  {
    var all := members + [m];
    forall i, j | 0 <= i < j < |all| ensures all[i].name != all[j].name {
      if j == |members| { assert members[i] in members; }
    }
  }

  /** Whatever parses is printable at its depth. */
  lemma {:induction false} ParsedPrintable(t: seq<Byte>, depth: nat)
    requires ParseValue(t, depth).Ok?
    ensures Printable(ParseValue(t, depth).value.value, depth)
    decreases |t|, 2
  {
    if t[0] == OPEN_OBJECT {
      var u := SkipBlanks(t[1..]);
      if !(u != [] && u[0] == CLOSE_OBJECT) {
        var r := ParseMembers(u, depth + 1, []);
        assert r.Ok? && ParseValue(t, depth) == Ok(Read(Obj(r.value.value), r.value.rest));
        hide ParseValue, ParseMembers;
        ParsedMembers(u, depth + 1, []);
      }
    } else if t[0] == OPEN_ARRAY {
      var u := SkipBlanks(t[1..]);
      if !(u != [] && u[0] == CLOSE_ARRAY) {
        var r := ParseItems(u, depth + 1);
        assert r.Ok? && ParseValue(t, depth) == Ok(Read(Arr(r.value.value), r.value.rest));
        hide ParseValue, ParseItems;
        ParsedItems(u, depth + 1);
      }
    } else if t[0] == MINUS || IsDigit(t[0]) {
      ParsedNumber(t);
      hide ParseNumber, IntText;
    }
  }

  lemma {:induction false} ParsedItems(t: seq<Byte>, depth: nat)
    requires ParseItems(t, depth).Ok?
    ensures var items := ParseItems(t, depth).value.value;
      forall i :: 0 <= i < |items| ==> Printable(items[i], depth)
    decreases |t|, 3
  {
    hide ParseValue, Printable;
    var v := ParseValue(SkipBlanks(t), depth).value;
    ParsedPrintable(SkipBlanks(t), depth);
    var u := SkipBlanks(v.rest);
    if u[0] == COMMA { ParsedItems(u[1..], depth); }
  }

  lemma {:induction false} ParsedMembers(t: seq<Byte>, depth: nat, before: seq<Member>)
    requires ParseMembers(t, depth, before).Ok? && Distinct(before)
    requires forall i :: 0 <= i < |before| ==> Printable(before[i].value, depth)
    ensures var members := ParseMembers(t, depth, before).value.value;
      Distinct(members) && forall i :: 0 <= i < |members| ==> Printable(members[i].value, depth)
    decreases |t|, 3
  {
    hide ParseValue, ParseBody, Printable, Distinct;
    var name := ParseBody(SkipBlanks(t)[1..]).value;
    var c := SkipBlanks(name.rest);
    var v := ParseValue(SkipBlanks(c[1..]), depth).value;
    ParsedPrintable(SkipBlanks(c[1..]), depth);
    var all := before + [Member(name.value, v.value)];
    DistinctSnoc(before, Member(name.value, v.value));
    var u := SkipBlanks(v.rest);
    if u[0] == COMMA { ParsedMembers(u[1..], depth, all); }
  }

  // ---------------------------------------------------------------------
  // Whole documents.
  // ---------------------------------------------------------------------

  /** A value comes back from its compact or pretty text exactly when it is printable
      and the text is within the size bound. */
  lemma PrintParseExactly(v: Json, pretty: bool, maxBytes: nat)
    ensures var text := Print(v, pretty, 0);
      Parse(text, maxBytes) == Ok(v) <==> Printable(v, 0) && |text| <= maxBytes
  {
    var text := Print(v, pretty, 0);
    FirstChar(v, pretty, 0);
    assert SkipBlanks(text) == text && SkipBlanks([]) == [] && text + [] == text;
    if Printable(v, 0) { ValueRound(v, pretty, 0, 0, []); }
    if Parse(text, maxBytes) == Ok(v) { ParsedPrintable(text, 0); }
    hide Print, ParseValue, SkipBlanks, Printable;
  }

  /** Printing whatever was parsed and parsing it again changes nothing. */
  lemma Normalised(text: seq<Byte>, pretty: bool, maxBytes: nat)
    requires Parse(text, maxBytes).Ok? && |Print(Parse(text, maxBytes).value, pretty, 0)| <= maxBytes
    ensures var v := Parse(text, maxBytes).value; Parse(Print(v, pretty, 0), maxBytes) == Ok(v)
  {
    ParsedPrintable(SkipBlanks(text), 0);
    PrintParseExactly(Parse(text, maxBytes).value, pretty, maxBytes);
    hide Print, ParseValue, Printable;
  }
}
