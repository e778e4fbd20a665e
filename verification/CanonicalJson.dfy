/** JSON texts: `JSON.stringify` without white space, the key-sorting canonical
    printer, and a parser that undoes both. Strings are escaped as in section 7
    of RFC 8259; numbers are the integers JavaScript holds exactly. */
module CanonicalJson {
  import opened CodeUnits
  import opened Outcomes

  type SafeInt = n: int | -0x1F_FFFF_FFFF_FFFF <= n <= 0x1F_FFFF_FFFF_FFFF

  datatype Member = Member(key: Text, value: Json)

  /** A JSON value as JavaScript holds it: object members in insertion order. */
  datatype Json =
    | Null
    | Bool(flag: bool)
    | Num(number: SafeInt)
    | Str(text: Text)
    | Arr(items: seq<Json>)
    | Obj(members: seq<Member>)

  /** A JSON value up to member order. */
  datatype Value =
    | NullValue
    | BoolValue(flag: bool)
    | NumValue(number: SafeInt)
    | StrValue(text: Text)
    | ArrValue(items: seq<Value>)
    | ObjValue(members: map<Text, Value>)

  function Keys(members: seq<Member>): seq<Text> {
    seq(|members|, i requires 0 <= i < |members| => members[i].key)
  }

  /** Where a key is. */
  function IndexOf(members: seq<Member>, k: Text): (i: nat)
    requires k in Keys(members)
    ensures i < |members| && members[i].key == k
  {
    if members[0].key == k then 0
    else
      assert Keys(members) == [members[0].key] + Keys(members[1..]);
      1 + IndexOf(members[1..], k)
  }

  /** Object keys are unique, at every depth. */
  ghost predicate WellFormed(j: Json) {
    match j
    case Arr(items) => forall i :: 0 <= i < |items| ==> WellFormed(items[i])
    case Obj(members) => NoRepeats(Keys(members)) && forall i :: 0 <= i < |members| ==> WellFormed(members[i].value)
    case _ => true
  }

  function ToValue(j: Json): Value {
    match j
    case Null => NullValue
    case Bool(flag) => BoolValue(flag)
    case Num(number) => NumValue(number)
    case Str(text) => StrValue(text)
    case Arr(items) => ArrValue(seq(|items|, i requires 0 <= i < |items| => ToValue(items[i])))
    case Obj(members) => ObjValue(map k | k in Keys(members) :: ToValue(members[IndexOf(members, k)].value))
  }

  // ---- Texts of strings and numbers ----

  const QUOTES: Unit := 0x22
  const COMMA: Unit := 0x2C
  const MINUS: Unit := 0x2D
  const COLON: Unit := 0x3A
  const OPEN_BRACKET: Unit := 0x5B
  const BACKSLASH: Unit := 0x5C
  const CLOSE_BRACKET: Unit := 0x5D
  const OPEN_BRACE: Unit := 0x7B
  const CLOSE_BRACE: Unit := 0x7D
  const NULL_TEXT: Text := [0x6E, 0x75, 0x6C, 0x6C]
  const TRUE_TEXT: Text := [0x74, 0x72, 0x75, 0x65]
  const FALSE_TEXT: Text := [0x66, 0x61, 0x6C, 0x73, 0x65]

  predicate IsHigh(u: Unit) { 0xD800 <= u < 0xDC00 }
  predicate IsLow(u: Unit) { 0xDC00 <= u < 0xE000 }

  function HexDigit(n: nat): Unit
    requires n < 16
  {
    if n < 10 then 0x30 + n else 0x61 + n - 10
  }

  function HexValue(u: Unit): Option<nat> {
    if 0x30 <= u <= 0x39 then Some(u - 0x30) else if 0x61 <= u <= 0x66 then Some(u - 0x61 + 10) else None
  }

  /** The letter that follows the backslash of a two-unit escape. */
  function ShortEscape(u: Unit): Option<Unit> {
    if u == QUOTES || u == BACKSLASH then Some(u)
    else if u == 8 then Some(0x62)
    else if u == 9 then Some(0x74)
    else if u == 10 then Some(0x6E)
    else if u == 12 then Some(0x66)
    else if u == 13 then Some(0x72)
    else None
  }

  function ShortUnescape(u: Unit): Option<Unit> {
    if u == QUOTES || u == BACKSLASH then Some(u)
    else if u == 0x62 then Some(8)
    else if u == 0x74 then Some(9)
    else if u == 0x6E then Some(10)
    else if u == 0x66 then Some(12)
    else if u == 0x72 then Some(13)
    else None
  }

  function EscapeUnit(u: Unit): Text {
    if ShortEscape(u).Some? then [BACKSLASH, ShortEscape(u).value]
    else if u < 0x20 || IsHigh(u) || IsLow(u) then
      [BACKSLASH, 0x75, HexDigit(u / 0x1000), HexDigit(u / 0x100 % 16), HexDigit(u / 16 % 16), HexDigit(u % 16)]
    else [u]
  }

  /** Surrogates in pairs are kept, alone they are escaped. */
  function Escape(s: Text): Text {
    if s == [] then []
    else if |s| > 1 && IsHigh(s[0]) && IsLow(s[1]) then s[..2] + Escape(s[2..])
    else EscapeUnit(s[0]) + Escape(s[1..])
  }

  function QuoteText(s: Text): Text { [QUOTES] + Escape(s) + [QUOTES] }

  function Digits(n: nat): Text {
    (if n < 10 then [] else Digits(n / 10)) + [0x30 + n % 10]
  }

  function NumberText(n: int): Text {
    if n < 0 then [MINUS] + Digits(-n) else Digits(n)
  }

  function MemberText(key: Text, value: Text): Text { QuoteText(key) + [COLON] + value }

  // ---- The two printers ----

  /** `JSON.stringify` without indentation. */
  function Stringify(j: Json): Text {
    match j
    case Null => NULL_TEXT
    case Bool(flag) => if flag then TRUE_TEXT else FALSE_TEXT
    case Num(number) => NumberText(number)
    case Str(text) => QuoteText(text)
    case Arr(items) => [OPEN_BRACKET] + StringifyItems(items) + [CLOSE_BRACKET]
    case Obj(members) => [OPEN_BRACE] + StringifyMembers(members) + [CLOSE_BRACE]
  }

  function StringifyItems(items: seq<Json>): Text {
    if items == [] then []
    else Stringify(items[0]) + (if |items| == 1 then [] else [COMMA] + StringifyItems(items[1..]))
  }

  function StringifyMembers(members: seq<Member>): Text {
    if members == [] then []
    else MemberText(members[0].key, Stringify(members[0].value)) + (if |members| == 1 then [] else [COMMA] + StringifyMembers(members[1..]))
  }

  /** The canonical printer: like `JSON.stringify`, with the members of every object in key order. */
  function Canonical(j: Json): Text
    decreases j, 0
  {
    match j
    case Arr(items) => [OPEN_BRACKET] + CanonicalItems(items) + [CLOSE_BRACKET]
    case Obj(members) => [OPEN_BRACE] + CanonicalMembers(members, Sorted(Keys(members))) + [CLOSE_BRACE]
    case _ => Stringify(j)
  }

  function CanonicalItems(items: seq<Json>): Text
    decreases items, 0
  {
    if items == [] then []
    else Canonical(items[0]) + (if |items| == 1 then [] else [COMMA] + CanonicalItems(items[1..]))
  }

  function CanonicalMembers(members: seq<Member>, keys: seq<Text>): Text
    requires forall k :: k in keys ==> k in Keys(members)
    decreases members, |keys|
  {
    if keys == [] then []
    else
      var i := IndexOf(members, keys[0]);
      MemberText(keys[0], Canonical(members[i].value))
      + (if |keys| == 1 then [] else [COMMA] + CanonicalMembers(members, keys[1..]))
  }

  /** The same value with the members of every object in key order. */
  function Ordered(j: Json): Json {
    match j
    case Arr(items) => Arr(seq(|items|, i requires 0 <= i < |items| => Ordered(items[i])))
    case Obj(members) => Obj(OrderedAt(members, Sorted(Keys(members))))
    case _ => j
  }

  function OrderedAt(members: seq<Member>, keys: seq<Text>): seq<Member>
    requires forall k :: k in keys ==> k in Keys(members)
  {
    seq(|keys|, i requires 0 <= i < |keys| => Member(keys[i], Ordered(members[IndexOf(members, keys[i])].value)))
  }

  // ---- The parser ----

  datatype Parsed<+T> = Parsed(value: T, rest: Text)

  function ParseChars(t: Text): (r: Option<Parsed<Text>>)
    ensures r.Some? ==> |r.value.rest| < |t|
    decreases |t|
  {
    if t == [] || t[0] < 0x20 then None
    else if t[0] == QUOTES then Some(Parsed([], t[1..]))
    else if t[0] != BACKSLASH then PrependUnit(t[0], ParseChars(t[1..]))
    else if |t| < 2 then None
    else if t[1] == 0x75 then
      if |t| < 6 then None
      else
        var a, b, c, d := HexValue(t[2]), HexValue(t[3]), HexValue(t[4]), HexValue(t[5]);
        if a.None? || b.None? || c.None? || d.None? then None
        else PrependUnit(((a.value * 16 + b.value) * 16 + c.value) * 16 + d.value, ParseChars(t[6..]))
    else if ShortUnescape(t[1]).None? then None
    else PrependUnit(ShortUnescape(t[1]).value, ParseChars(t[2..]))
  }

  function PrependUnit(u: int, p: Option<Parsed<Text>>): Option<Parsed<Text>> {
    if p.None? || !(0 <= u < 0x10000) then None else Some(Parsed([u] + p.value.value, p.value.rest))
  }

  predicate IsDigit(u: Unit) { 0x30 <= u <= 0x39 }

  /** Reads on from the digits already read. */
  function ParseDigits(sofar: nat, t: Text): (r: Parsed<nat>)
    ensures |r.rest| <= |t|
    decreases |t|
  {
    if t == [] || !IsDigit(t[0]) then Parsed(sofar, t) else ParseDigits(sofar * 10 + (t[0] - 0x30), t[1..])
  }

  function ParseNumber(t: Text): (r: Option<Parsed<Json>>)
    ensures r.Some? ==> |r.value.rest| < |t|
  {
    var negative := t != [] && t[0] == MINUS;
    var u := if negative then t[1..] else t;
    if u == [] || !IsDigit(u[0]) then None
    else
      var p := ParseDigits(u[0] - 0x30, u[1..]);
      var n: int := p.value;
      if n > 0x1F_FFFF_FFFF_FFFF then None else Some(Parsed(Num(if negative then -n else n), p.rest))
  }

  function ParseLiteral(t: Text, literal: Text, j: Json): (r: Option<Parsed<Json>>)
    requires literal != []
    ensures r.Some? ==> |r.value.rest| < |t|
  {
    if literal <= t then Some(Parsed(j, t[|literal|..])) else None
  }

  function ParseValue(t: Text): (r: Option<Parsed<Json>>)
    ensures r.Some? ==> |r.value.rest| < |t|
    decreases |t|, 0
  {
    if t == [] then None
    else if t[0] == NULL_TEXT[0] then ParseLiteral(t, NULL_TEXT, Null)
    else if t[0] == TRUE_TEXT[0] then ParseLiteral(t, TRUE_TEXT, Bool(true))
    else if t[0] == FALSE_TEXT[0] then ParseLiteral(t, FALSE_TEXT, Bool(false))
    else if t[0] == QUOTES then
      var p := ParseChars(t[1..]);
      if p.None? then None else Some(Parsed(Str(p.value.value), p.value.rest))
    else if t[0] == OPEN_BRACKET then
      if |t| > 1 && t[1] == CLOSE_BRACKET then Some(Parsed(Arr([]), t[2..]))
      else
        var p := ParseItems(t[1..]);
        if p.None? then None else Some(Parsed(Arr(p.value.value), p.value.rest))
    else if t[0] == OPEN_BRACE then
      if |t| > 1 && t[1] == CLOSE_BRACE then Some(Parsed(Obj([]), t[2..]))
      else
        var p := ParseMembers(t[1..]);
        if p.None? then None else Some(Parsed(Obj(p.value.value), p.value.rest))
    else ParseNumber(t)
  }

  function ParseItems(t: Text): (r: Option<Parsed<seq<Json>>>)
    ensures r.Some? ==> |r.value.rest| < |t|
    decreases |t|, 1
  {
    var p := ParseValue(t);
    if p.None? || p.value.rest == [] then None
    else if p.value.rest[0] == CLOSE_BRACKET then Some(Parsed([p.value.value], p.value.rest[1..]))
    else if p.value.rest[0] != COMMA then None
    else
      var q := ParseItems(p.value.rest[1..]);
      if q.None? then None else Some(Parsed([p.value.value] + q.value.value, q.value.rest))
  }

  function ParseMember(t: Text): (r: Option<Parsed<Member>>)
    ensures r.Some? ==> |r.value.rest| < |t|
    decreases |t|, 1
  {
    if t == [] || t[0] != QUOTES then None
    else
      var k := ParseChars(t[1..]);
      if k.None? || k.value.rest == [] || k.value.rest[0] != COLON then None
      else
        var p := ParseValue(k.value.rest[1..]);
        if p.None? then None else Some(Parsed(Member(k.value.value, p.value.value), p.value.rest))
  }

  function ParseMembers(t: Text): (r: Option<Parsed<seq<Member>>>)
    ensures r.Some? ==> |r.value.rest| < |t|
    decreases |t|, 2
  {
    var p := ParseMember(t);
    if p.None? || p.value.rest == [] then None
    else if p.value.rest[0] == CLOSE_BRACE then Some(Parsed([p.value.value], p.value.rest[1..]))
    else if p.value.rest[0] != COMMA then None
    else
      var q := ParseMembers(p.value.rest[1..]);
      if q.None? then None else Some(Parsed([p.value.value] + q.value.value, q.value.rest))
  }

  // ---- The parser undoes the printer ----

  lemma RawUnitReads(u: Unit, t: Text)
    requires u >= 0x20 && u != QUOTES && u != BACKSLASH
    ensures ParseChars([u] + t) == PrependUnit(u, ParseChars(t))
  {
    assert ([u] + t)[1..] == t;
  }

  lemma ShortEscapeReads(u: Unit, e: Unit, t: Text)
    requires ShortUnescape(e) == Some(u)
    ensures ParseChars([BACKSLASH, e] + t) == PrependUnit(u, ParseChars(t))
  {
    assert ([BACKSLASH, e] + t)[2..] == t;
  }

  lemma HexEscapeReads(a: nat, b: nat, c: nat, d: nat, t: Text)
    requires a < 16 && b < 16 && c < 16 && d < 16
    ensures ParseChars([BACKSLASH, 0x75, HexDigit(a), HexDigit(b), HexDigit(c), HexDigit(d)] + t)
         == PrependUnit(((a * 16 + b) * 16 + c) * 16 + d, ParseChars(t))
  {
    var e := [BACKSLASH, 0x75, HexDigit(a), HexDigit(b), HexDigit(c), HexDigit(d)];
    assert (e + t)[6..] == t;
    assert forall n: nat :: n < 16 ==> HexValue(HexDigit(n)) == Some(n);
    hide HexDigit, HexValue;
  }

  lemma HexSplits(u: Unit)
    ensures ((u / 0x1000 * 16 + u / 0x100 % 16) * 16 + u / 16 % 16) * 16 + u % 16 == u && u / 0x1000 < 16
  {}

  lemma EscapedUnitReads(u: Unit, t: Text)
    ensures ParseChars(EscapeUnit(u) + t) == PrependUnit(u, ParseChars(t))
  {
    hide ParseChars, PrependUnit, HexDigit;
    if ShortEscape(u).Some? {
      ShortEscapeReads(u, ShortEscape(u).value, t);
    } else if u < 0x20 || IsHigh(u) || IsLow(u) {
      HexSplits(u);
      HexEscapeReads(u / 0x1000, u / 0x100 % 16, u / 16 % 16, u % 16, t);
    } else {
      RawUnitReads(u, t);
    }
  }

  lemma {:induction false} CharsRoundTrip(s: Text, t: Text)
    ensures ParseChars(Escape(s) + [QUOTES] + t) == Some(Parsed(s, t))
    decreases |s|
  {
    if s == [] {
      assert Escape(s) + [QUOTES] + t == [QUOTES] + t && ([QUOTES] + t)[1..] == t;
    } else {
      CharsStep(s, t);
    }
  }

  lemma EscapeHead(s: Text)
    requires s != []
    ensures Escape(s) == if |s| > 1 && IsHigh(s[0]) && IsLow(s[1]) then s[..2] + Escape(s[2..]) else EscapeUnit(s[0]) + Escape(s[1..])
  {}

  lemma {:induction false} CharsStep(s: Text, t: Text)
    requires s != []
    ensures ParseChars(Escape(s) + [QUOTES] + t) == Some(Parsed(s, t))
    decreases |s|, 0
  {
    hide ParseChars, EscapeUnit;
    EscapeHead(s);
    hide Escape;
    if |s| > 1 && IsHigh(s[0]) && IsLow(s[1]) {
      CharsRoundTrip(s[2..], t);
      var rest := Escape(s[2..]) + [QUOTES] + t;
      assert Escape(s) + [QUOTES] + t == [s[0]] + ([s[1]] + rest);
      RawUnitReads(s[0], [s[1]] + rest);
      RawUnitReads(s[1], rest);
      assert s == [s[0]] + ([s[1]] + s[2..]);
    } else {
      CharsRoundTrip(s[1..], t);
      var rest := Escape(s[1..]) + [QUOTES] + t;
      assert Escape(s) + [QUOTES] + t == EscapeUnit(s[0]) + rest;
      EscapedUnitReads(s[0], rest);
      assert s == [s[0]] + s[1..];
    }
  }

  lemma TextRoundTrip(s: Text, t: Text)
    ensures QuoteText(s) + t != [] && (QuoteText(s) + t)[0] == QUOTES
    ensures ParseChars((QuoteText(s) + t)[1..]) == Some(Parsed(s, t))
  {
    assert (QuoteText(s) + t)[1..] == Escape(s) + [QUOTES] + t;
    CharsRoundTrip(s, t);
  }

  /** No digit follows, so a number ends here. */
  predicate Delimited(t: Text) { t == [] || !IsDigit(t[0]) }

  lemma {:induction false} DigitsRead(n: nat, t: Text)
    ensures |Digits(n)| > 0 && forall k :: 0 <= k < |Digits(n)| ==> IsDigit(Digits(n)[k])
    ensures ParseDigits(0, Digits(n) + t) == ParseDigits(n, t)
    decreases n
  {
    hide ParseDigits;
    var last := [0x30 + n % 10];
    if n < 10 {
      assert Digits(n) == last;
      LastDigit(0, n, t);
    } else {
      DigitsRead(n / 10, last + t);
      assert Digits(n) + t == Digits(n / 10) + (last + t);
      hide Digits;
      LastDigit(n / 10, n % 10, t);
    }
  }

  lemma LastDigit(sofar: nat, d: nat, t: Text)
    requires d < 10
    ensures ParseDigits(sofar, [0x30 + d] + t) == ParseDigits(sofar * 10 + d, t)
  {
    assert ([0x30 + d] + t)[1..] == t;
  }

  lemma NumberRoundTrip(n: SafeInt, t: Text)
    requires Delimited(t)
    ensures NumberText(n) + t != [] && (IsDigit((NumberText(n) + t)[0]) || (NumberText(n) + t)[0] == MINUS)
    ensures ParseNumber(NumberText(n) + t) == Some(Parsed(Num(n), t))
  {
    hide Digits, ParseDigits;
    var m := if n < 0 then -n else n;
    var u := Digits(m) + t;
    DigitsRead(m, t);
    FirstDigit(u);
    ParseEnds(m, t);
    if n < 0 { assert (NumberText(n) + t)[1..] == u; }
  }

  lemma FirstDigit(u: Text)
    requires u != [] && IsDigit(u[0])
    ensures ParseDigits(0, u) == ParseDigits(u[0] - 0x30, u[1..])
  {}

  lemma ParseEnds(m: nat, t: Text)
    requires Delimited(t)
    ensures ParseDigits(m, t) == Parsed(m, t)
  {}

  lemma LiteralReads(literal: Text, t: Text, j: Json)
    requires literal != []
    ensures ParseLiteral(literal + t, literal, j) == Some(Parsed(j, t))
  {
    assert (literal + t)[|literal|..] == t;
  }

  lemma ArrayReads(items: seq<Json>, u: Text, t: Text)
    requires u != [] && u[0] != CLOSE_BRACKET && ParseItems(u) == Some(Parsed(items, t))
    ensures ParseValue([OPEN_BRACKET] + u) == Some(Parsed(Arr(items), t))
  {
    hide ParseItems, ParseMembers, ParseNumber, ParseLiteral, ParseChars;
    assert ([OPEN_BRACKET] + u)[1..] == u;
  }

  lemma ObjectReads(members: seq<Member>, u: Text, t: Text)
    requires u != [] && u[0] != CLOSE_BRACE && ParseMembers(u) == Some(Parsed(members, t))
    ensures ParseValue([OPEN_BRACE] + u) == Some(Parsed(Obj(members), t))
  {
    hide ParseItems, ParseMembers, ParseNumber, ParseLiteral, ParseChars;
    assert ([OPEN_BRACE] + u)[1..] == u;
  }

  lemma ScalarReads(j: Json, t: Text)
    requires Delimited(t) && !(j.Arr? && j.items != []) && !(j.Obj? && j.members != [])
    ensures ParseValue(Stringify(j) + t) == Some(Parsed(j, t))
  {
    hide Digits, ParseDigits, ParseChars, ParseItems, ParseMembers, Escape, NumberText, ParseNumber;
    match j
    case Null => LiteralReads(NULL_TEXT, t, j);
    case Bool(flag) => LiteralReads(if flag then TRUE_TEXT else FALSE_TEXT, t, j);
    case Num(number) => NumberRoundTrip(number, t);
    case Str(text) => TextRoundTrip(text, t);
    case Arr(items) => assert Stringify(j) + t == [OPEN_BRACKET, CLOSE_BRACKET] + t; assert ([OPEN_BRACKET, CLOSE_BRACKET] + t)[2..] == t;
    case Obj(members) => assert Stringify(j) + t == [OPEN_BRACE, CLOSE_BRACE] + t; assert ([OPEN_BRACE, CLOSE_BRACE] + t)[2..] == t;
  }

  /** Parsing a printed value gives the value back and leaves what follows it. */
  lemma {:induction false} ParseUndoesStringify(j: Json, t: Text)
    requires Delimited(t)
    ensures ParseValue(Stringify(j) + t) == Some(Parsed(j, t))
    decreases j
  {
    hide ParseValue, StringifyItems, StringifyMembers;
    if j.Arr? && j.items != [] {
      var u := StringifyItems(j.items) + [CLOSE_BRACKET] + t;
      assert Stringify(j) + t == [OPEN_BRACKET] + u;
      ItemsRoundTrip(j.items, t);
      ItemsStart(j.items, [CLOSE_BRACKET] + t);
      assert u == StringifyItems(j.items) + ([CLOSE_BRACKET] + t);
      ArrayReads(j.items, u, t);
    } else if j.Obj? && j.members != [] {
      var u := StringifyMembers(j.members) + [CLOSE_BRACE] + t;
      assert Stringify(j) + t == [OPEN_BRACE] + u;
      MembersRoundTrip(j.members, t);
      MembersStart(j.members);
      ObjectReads(j.members, u, t);
    } else {
      ScalarReads(j, t);
    }
  }

  lemma ValueStart(j: Json)
    ensures Stringify(j) != [] && Stringify(j)[0] != CLOSE_BRACKET
  {
    if j.Num? { DigitsRead(if j.number < 0 then -j.number else j.number, []); }
    hide Digits, StringifyItems, StringifyMembers, QuoteText;
    if j.Str? { TextRoundTrip(j.text, []); assert QuoteText(j.text) + [] == QuoteText(j.text); }
  }

  /** A value never starts like the end of an array. */
  lemma ItemsStart(items: seq<Json>, t: Text)
    requires items != []
    ensures StringifyItems(items) + t != [] && (StringifyItems(items) + t)[0] != CLOSE_BRACKET
  {
    ValueStart(items[0]);
    hide Stringify;
  }

  lemma MembersStart(members: seq<Member>)
    requires members != []
    ensures StringifyMembers(members) != [] && StringifyMembers(members)[0] == QUOTES
  {}

  lemma {:induction false} ItemsRoundTrip(items: seq<Json>, t: Text)
    requires items != []
    ensures ParseItems(StringifyItems(items) + [CLOSE_BRACKET] + t) == Some(Parsed(items, t))
    decreases items
  {
    hide ParseValue, Stringify;
    var head := Stringify(items[0]);
    if |items| == 1 {
      var tail := [CLOSE_BRACKET] + t;
      assert StringifyItems(items) + [CLOSE_BRACKET] + t == head + tail;
      ParseUndoesStringify(items[0], tail);
      assert tail[1..] == t && items == [items[0]];
    } else {
      var next := StringifyItems(items[1..]) + [CLOSE_BRACKET] + t;
      assert StringifyItems(items) + [CLOSE_BRACKET] + t == head + ([COMMA] + next);
      ParseUndoesStringify(items[0], [COMMA] + next);
      ItemsRoundTrip(items[1..], t);
      assert ([COMMA] + next)[1..] == next && items == [items[0]] + items[1..];
    }
  }

  lemma {:induction false} MemberRoundTrip(m: Member, t: Text)
    requires Delimited(t)
    ensures ParseMember(MemberText(m.key, Stringify(m.value)) + t) == Some(Parsed(m, t))
    decreases m
  {
    hide Stringify, ParseValue, ParseChars, QuoteText;
    var value := Stringify(m.value) + t;
    assert MemberText(m.key, Stringify(m.value)) + t == QuoteText(m.key) + ([COLON] + value);
    TextRoundTrip(m.key, [COLON] + value);
    assert ([COLON] + value)[1..] == value;
    ParseUndoesStringify(m.value, t);
  }

  lemma {:induction false} MembersRoundTrip(members: seq<Member>, t: Text)
    requires members != []
    ensures ParseMembers(StringifyMembers(members) + [CLOSE_BRACE] + t) == Some(Parsed(members, t))
    decreases members
  {
    hide ParseMember, Stringify, MemberText;
    var m := members[0];
    var head := MemberText(m.key, Stringify(m.value));
    if |members| == 1 {
      var tail := [CLOSE_BRACE] + t;
      assert StringifyMembers(members) + [CLOSE_BRACE] + t == head + tail;
      MemberRoundTrip(m, tail);
      assert tail[1..] == t && members == [m];
    } else {
      var next := StringifyMembers(members[1..]) + [CLOSE_BRACE] + t;
      assert StringifyMembers(members) + [CLOSE_BRACE] + t == head + ([COMMA] + next);
      MemberRoundTrip(m, [COMMA] + next);
      MembersRoundTrip(members[1..], t);
      assert ([COMMA] + next)[1..] == next && members == [m] + members[1..];
    }
  }

  lemma StringifyIsInjective(a: Json, b: Json)
    requires Stringify(a) == Stringify(b)
    ensures a == b
  {
    ParseUndoesStringify(a, []);
    ParseUndoesStringify(b, []);
    assert Stringify(a) + [] == Stringify(b) + [];
  }

  // ---- The canonical printer ----

  /** The canonical text is the plain text of the ordered value. */
  lemma {:induction false} CanonicalIsOrderedStringify(j: Json)
    ensures Canonical(j) == Stringify(Ordered(j))
    decreases j, 0
  {
    match j
    case Arr(items) => ItemsAreOrdered(items);
    case Obj(members) => MembersAreOrdered(members, Sorted(Keys(members)));
    case _ =>
  }

  lemma {:induction false} ItemsAreOrdered(items: seq<Json>)
    ensures CanonicalItems(items) == StringifyItems(Ordered(Arr(items)).items)
    decreases items, 0
  {
    if items != [] {
      CanonicalIsOrderedStringify(items[0]);
      ItemsAreOrdered(items[1..]);
      assert Ordered(Arr(items)).items[1..] == Ordered(Arr(items[1..])).items;
    }
  }

  lemma {:induction false} MembersAreOrdered(members: seq<Member>, keys: seq<Text>)
    requires forall k :: k in keys ==> k in Keys(members)
    ensures CanonicalMembers(members, keys) == StringifyMembers(OrderedAt(members, keys))
    decreases members, |keys|
  {
    if keys != [] {
      CanonicalIsOrderedStringify(members[IndexOf(members, keys[0])].value);
      MembersAreOrdered(members, keys[1..]);
      assert OrderedAt(members, keys)[1..] == OrderedAt(members, keys[1..]);
    }
  }

  lemma KeysOfValue(j: Json)
    requires j.Obj?
    ensures ToValue(j).ObjValue? && forall k :: k in Keys(j.members) <==> k in ToValue(j).members
    ensures forall k :: k in Keys(j.members) ==> ToValue(j).members[k] == ToValue(j.members[IndexOf(j.members, k)].value)
  {}

  /** Values that agree up to member order have the same ordered form. */
  lemma {:induction false} SameValueSameOrder(a: Json, b: Json)
    requires WellFormed(a) && WellFormed(b) && ToValue(a) == ToValue(b)
    ensures Ordered(a) == Ordered(b)
    decreases a
  {
    if a.Arr? && b.Arr? {
      forall i | 0 <= i < |a.items| ensures Ordered(a.items[i]) == Ordered(b.items[i]) {
        assert ToValue(a).items[i] == ToValue(b).items[i];
        SameValueSameOrder(a.items[i], b.items[i]);
      }
    } else if a.Obj? && b.Obj? {
      KeysOfValue(a);
      KeysOfValue(b);
      hide ToValue;
      SortedIsDetermined(Keys(a.members), Keys(b.members));
      var keys := Sorted(Keys(a.members));
      forall k | k in keys
        ensures Ordered(a.members[IndexOf(a.members, k)].value) == Ordered(b.members[IndexOf(b.members, k)].value)
      {
        SameValueSameOrder(a.members[IndexOf(a.members, k)].value, b.members[IndexOf(b.members, k)].value);
      }
    }
  }

  /** Ordering changes no value. */
  lemma {:induction false} OrderKeepsValue(j: Json)
    ensures ToValue(Ordered(j)) == ToValue(j)
    decreases j
  {
    match j
    case Arr(items) =>
      forall i | 0 <= i < |items| ensures ToValue(Ordered(items[i])) == ToValue(items[i]) { OrderKeepsValue(items[i]); }
    case Obj(members) =>
      forall i | 0 <= i < |members| ensures ToValue(Ordered(members[i].value)) == ToValue(members[i].value) {
        OrderKeepsValue(members[i].value);
      }
      OrderKeepsObject(members);
    case _ =>
  }

  lemma ValueAtKey(members: seq<Member>, k: Text)
    requires k in Keys(members)
    ensures var v := ToValue(Obj(members));
            v.ObjValue? && k in v.members && v.members[k] == ToValue(members[IndexOf(members, k)].value)
  {
    KeysOfValue(Obj(members));
    hide ToValue, IndexOf, Keys;
  }

  lemma DomainOfValue(members: seq<Member>)
    ensures ToValue(Obj(members)).ObjValue? && forall k :: k in Keys(members) <==> k in ToValue(Obj(members)).members
  {}

  lemma KeysOfOrdered(members: seq<Member>, keys: seq<Text>)
    requires forall k :: k in keys ==> k in Keys(members)
    ensures Keys(OrderedAt(members, keys)) == keys
  {
    hide Ordered, IndexOf;
  }

  lemma OrderKeepsObject(members: seq<Member>)
    requires forall i :: 0 <= i < |members| ==> ToValue(Ordered(members[i].value)) == ToValue(members[i].value)
    ensures ToValue(Obj(OrderedAt(members, Sorted(Keys(members))))) == ToValue(Obj(members))
  {
    var keys := Sorted(Keys(members));
    var ordered := OrderedAt(members, keys);
    KeysOfOrdered(members, keys);
    DomainOfValue(members);
    DomainOfValue(ordered);
    hide ToValue, Ordered, IndexOf, Keys, Sorted;
    var v, w := ToValue(Obj(ordered)), ToValue(Obj(members));
    forall k | k in keys ensures v.members[k] == w.members[k] {
      ValueAtKey(ordered, k);
      ValueAtKey(members, k);
      assert ordered[IndexOf(ordered, k)] == Member(k, Ordered(members[IndexOf(members, k)].value));
    }
    assert v.members == w.members;
  }

  /** The canonical text identifies a value exactly up to the order of object members. */
  lemma CanonicalIsInjective(a: Json, b: Json)
    requires WellFormed(a) && WellFormed(b)
    ensures Canonical(a) == Canonical(b) <==> ToValue(a) == ToValue(b)
  {
    CanonicalIsOrderedStringify(a);
    CanonicalIsOrderedStringify(b);
    if Canonical(a) == Canonical(b) {
      StringifyIsInjective(Ordered(a), Ordered(b));
      OrderKeepsValue(a);
      OrderKeepsValue(b);
    }
    if ToValue(a) == ToValue(b) { SameValueSameOrder(a, b); }
  }

  // ---- Operation keys ----

  datatype StartIdentity = StartIdentity(hostId: Text, threadId: Text, generationId: Text, operationId: Text)

  const HOST_ID_KEY := Ascii("expectedHostId")
  const THREAD_ID_KEY := Ascii("threadId")
  const GENERATION_ID_KEY := Ascii("expectedExecutionGenerationId")
  const OPERATION_ID_KEY := Ascii("operationId")

  /** The text whose digest names an operation's files. */
  function KeyPreimage(r: StartIdentity): Text {
    Canonical(KeyObject(r))
  }

  function KeyObject(r: StartIdentity): Json {
    Obj([Member(HOST_ID_KEY, Str(r.hostId)), Member(THREAD_ID_KEY, Str(r.threadId)),
         Member(GENERATION_ID_KEY, Str(r.generationId)), Member(OPERATION_ID_KEY, Str(r.operationId))])
  }

  lemma KeyObjectIsWellFormed(r: StartIdentity)
    ensures WellFormed(KeyObject(r))
  {
    var members := KeyObject(r).members;
    assert |members[0].key| == 14 && |members[1].key| == 8 && |members[2].key| == 29 && |members[3].key| == 11;
    assert NoRepeats(Keys(members));
  }

  lemma SameFields(a: StartIdentity, b: StartIdentity, i: nat)
    requires i < 4 && ToValue(KeyObject(a)) == ToValue(KeyObject(b))
    ensures KeyObject(a).members[i].value == KeyObject(b).members[i].value
  {
    hide IndexOf, Keys, WellFormed, ToValue;
    var k := KeyObject(a).members[i].key;
    KeyAt(a, i);
    KeyAt(b, i);
    ValueAtKey(KeyObject(a).members, k);
    ValueAtKey(KeyObject(b).members, k);
    TextOfValue(KeyObject(a).members[i].value, KeyObject(b).members[i].value);
  }

  lemma TextOfValue(a: Json, b: Json)
    requires a.Str? && b.Str?
    ensures ToValue(a) == ToValue(b) ==> a == b
  {}

  /** Two start requests share an operation key preimage exactly when their four identities agree. */
  lemma KeyPreimageIsInjective(a: StartIdentity, b: StartIdentity)
    ensures KeyPreimage(a) == KeyPreimage(b) <==> a == b
  {
    hide ToValue, Canonical, WellFormed;
    KeyObjectIsWellFormed(a);
    KeyObjectIsWellFormed(b);
    CanonicalIsInjective(KeyObject(a), KeyObject(b));
    if ToValue(KeyObject(a)) == ToValue(KeyObject(b)) {
      SameFields(a, b, 0);
      SameFields(a, b, 1);
      SameFields(a, b, 2);
      SameFields(a, b, 3);
    }
  }

  lemma KeyAt(r: StartIdentity, i: nat)
    requires i < 4
    ensures var members := KeyObject(r).members; members[i].key in Keys(members) && IndexOf(members, members[i].key) == i
  {
    var members := KeyObject(r).members;
    KeyObjectIsWellFormed(r);
    assert Keys(members)[i] == members[i].key;
    var n := IndexOf(members, members[i].key);
    assert Keys(members)[n] == members[n].key;
  }
}
