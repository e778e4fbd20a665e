/** The JSONL journal: records appended at most once per id by atomically
    replacing the whole file. Text stands for its UTF-8 bytes, which is lossless
    because every printed record is well-formed UTF-16. */
module Journals {
  import opened CodeUnits
  import opened CanonicalJson
  import opened Outcomes

  const LINE_FEED: Unit := 0x0A
  const MAX_ID := 256

  datatype Limits = Limits(maxEntryBytes: nat, maxFileBytes: nat, maxLines: nat)

  datatype JournalError =
    | BadId | EntryTooLarge | FileTooLarge | NotAtBoundary | TooManyLines | InvalidRecord | IdCollision | LineLimit
    | WriteRefused | WriteFailed | CommitAmbiguous

  /** Where writing the new file stops: a failed or interrupted write, or one whose
      rename is visible but was not synced. */
  datatype WriteFault = NoFault | BeforeRename | BeforeSync

  // ---- Text of a journal ----

  /** Bytes of a text in UTF-8: half a surrogate pair is two of its four. */
  function Utf8Length(t: Text): nat {
    if t == [] then 0
    else (if t[0] < 0x80 then 1 else if t[0] < 0x800 || IsHigh(t[0]) || IsLow(t[0]) then 2 else 3) + Utf8Length(t[1..])
  }

  function Line(j: Json): Text { Stringify(j) + [LINE_FEED] }

  function Lines(records: seq<Json>): Text {
    if records == [] then [] else Line(records[0]) + Lines(records[1..])
  }

  function Until(t: Text): (n: nat)
    ensures n <= |t| && (n < |t| ==> t[n] == LINE_FEED) && LINE_FEED !in t[..n]
  {
    if t == [] || t[0] == LINE_FEED then 0
    else
      var n := 1 + Until(t[1..]);
      assert t[..n] == [t[0]] + t[1..][..n - 1];
      n
  }

  /** The lines of a text, split at line feeds, without the empty ones. */
  function SplitLines(t: Text): seq<Text>
    decreases |t|
  {
    if t == [] then []
    else
      var n := Until(t);
      (if n == 0 then [] else [t[..n]]) + (if n == |t| then [] else SplitLines(t[n + 1..]))
  }

  /** `JSON.parse` on what the printers produce. */
  function ParseLine(line: Text): Option<Json> {
    var p := ParseValue(line);
    if p.Some? && p.value.rest == [] then Some(p.value.value) else None
  }

  function IdOf(j: Json, field: Text): Option<Text> {
    if j.Obj? && field in Keys(j.members) && j.members[IndexOf(j.members, field)].value.Str?
    then Some(j.members[IndexOf(j.members, field)].value.text) else None
  }

  // ---- What an append decides ----

  datatype Decision = Refuse(error: JournalError) | Present | Append

  /** The first line that does not parse or carries the id decides. */
  function ScanLines(lines: seq<Text>, field: Text, id: Text, value: Json): Option<Decision> {
    if lines == [] then None
    else
      var existing := ParseLine(lines[0]);
      if existing.None? then Some(Refuse(InvalidRecord))
      else if IdOf(existing.value, field) == Some(id) then
        Some(if ToValue(existing.value) == ToValue(value) then Present else Refuse(IdCollision))
      else ScanLines(lines[1..], field, id, value)
  }

  function Decide(l: Limits, field: Text, content: Text, value: Json): Decision {
    var id := IdOf(value, field);
    var lines := SplitLines(content);
    if id.None? || id.value == [] || |id.value| > MAX_ID then Refuse(BadId)
    else if Utf8Length(Line(value)) > l.maxEntryBytes then Refuse(EntryTooLarge)
    else if Utf8Length(content) > l.maxFileBytes then Refuse(FileTooLarge)
    else if content != [] && content[|content| - 1] != LINE_FEED then Refuse(NotAtBoundary)
    else if |lines| > l.maxLines then Refuse(TooManyLines)
    else
      var found := ScanLines(lines, field, id.value, value);
      if found.Some? then found.value
      else if |lines| >= l.maxLines then Refuse(LineLimit)
      else if Utf8Length(content + Line(value)) > l.maxFileBytes then Refuse(WriteRefused)
      else Append
  }

  /** `appendJsonLineOnce` up to its atomic write. */
  method DecideAppend(l: Limits, field: Text, content: Text, value: Json) returns (d: Decision)
    ensures d == Decide(l, field, content, value)
  {
    hide ParseLine, IdOf, ToValue, Utf8Length, SplitLines, Line;
    var id := IdOf(value, field);
    if id.None? || id.value == [] || |id.value| > MAX_ID { return Refuse(BadId); }
    if Utf8Length(Line(value)) > l.maxEntryBytes { return Refuse(EntryTooLarge); }
    if Utf8Length(content) > l.maxFileBytes { return Refuse(FileTooLarge); }
    if content != [] && content[|content| - 1] != LINE_FEED { return Refuse(NotAtBoundary); }
    var lines := SplitLines(content);
    if |lines| > l.maxLines { return Refuse(TooManyLines); }
    for k := 0 to |lines|
      invariant ScanLines(lines, field, id.value, value) == ScanLines(lines[k..], field, id.value, value)
    {
      var existing := ParseLine(lines[k]);
      if existing.None? { return Refuse(InvalidRecord); }
      if IdOf(existing.value, field) == Some(id.value) {
        if ToValue(existing.value) != ToValue(value) { return Refuse(IdCollision); }
        return Present;
      }
    }
    if |lines| >= l.maxLines { return Refuse(LineLimit); }
    if Utf8Length(content + Line(value)) > l.maxFileBytes { return Refuse(WriteRefused); }
    d := Append;
  }

  /** Every line parses to a record of the expected shape. */
  ghost predicate AllReadable(lines: seq<Text>, accepts: Json -> bool) {
    forall k :: 0 <= k < |lines| ==> ParseLine(lines[k]).Some? && accepts(ParseLine(lines[k]).value)
  }

  /** `readJsonLines`: every record, or an error naming what is wrong. */
  method ReadJsonLines(l: Limits, content: Text, accepts: Json -> bool) returns (r: Result<seq<Json>, JournalError>)
    ensures if Utf8Length(content) > l.maxFileBytes then r == Err(FileTooLarge)
            else if |SplitLines(content)| > l.maxLines then r == Err(TooManyLines)
            else if !AllReadable(SplitLines(content), accepts) then r == Err(InvalidRecord)
            else r.Ok? && |r.value| == |SplitLines(content)| &&
                 forall k :: 0 <= k < |r.value| ==> ParseLine(SplitLines(content)[k]) == Some(r.value[k])
  {
    hide ParseLine, Utf8Length, SplitLines;
    if Utf8Length(content) > l.maxFileBytes { return Err(FileTooLarge); }
    var lines := SplitLines(content);
    if |lines| > l.maxLines { return Err(TooManyLines); }
    var records := [];
    for k := 0 to |lines|
      invariant |records| == k
      invariant forall i :: 0 <= i < k ==> ParseLine(lines[i]) == Some(records[i]) && accepts(records[i])
    {
      var j := ParseLine(lines[k]);
      if j.None? || !accepts(j.value) { return Err(InvalidRecord); }
      records := records + [j.value];
    }
    r := Ok(records);
  }

  // ---- Printed records are lines ----

  lemma {:induction false} NoLineFeedIn(s: Text)
    ensures LINE_FEED !in Escape(s)
    decreases |s|
  {
    if s != [] {
      if |s| > 1 && IsHigh(s[0]) && IsLow(s[1]) { NoLineFeedIn(s[2..]); } else { NoLineFeedIn(s[1..]); }
    }
  }

  lemma {:induction false} DigitsNoLineFeed(n: nat)
    ensures LINE_FEED !in Digits(n)
  {
    if n >= 10 { DigitsNoLineFeed(n / 10); }
  }

  lemma {:induction false} StringifyIsOneLine(j: Json)
    ensures Stringify(j) != [] && LINE_FEED !in Stringify(j)
  {
    match j
    case Num(n) => DigitsNoLineFeed(if n < 0 then -n else n); DigitsRead(if n < 0 then -n else n, []);
    case Str(text) => NoLineFeedIn(text);
    case Arr(items) => ItemsAreOneLine(items);
    case Obj(members) => MembersAreOneLine(members);
    case _ =>
  }

  lemma {:induction false} ItemsAreOneLine(items: seq<Json>)
    ensures LINE_FEED !in StringifyItems(items)
    decreases items
  {
    if items != [] { StringifyIsOneLine(items[0]); ItemsAreOneLine(items[1..]); }
  }

  lemma {:induction false} MembersAreOneLine(members: seq<Member>)
    ensures LINE_FEED !in StringifyMembers(members)
    decreases members
  {
    if members != [] {
      NoLineFeedIn(members[0].key);
      StringifyIsOneLine(members[0].value);
      MembersAreOneLine(members[1..]);
    }
  }

  function Texts(records: seq<Json>): seq<Text> {
    seq(|records|, i requires 0 <= i < |records| => Stringify(records[i]))
  }

  lemma {:induction false} UntilLine(line: Text, t: Text)
    requires LINE_FEED !in line
    ensures Until(line + [LINE_FEED] + t) == |line|
  {
    var s := line + [LINE_FEED] + t;
    if line == [] {
      assert s[0] == LINE_FEED;
    } else {
      assert line[0] in line;
      assert s[1..] == line[1..] + [LINE_FEED] + t;
      UntilLine(line[1..], t);
    }
  }

  /** Splitting the text of some records gives one line per record. */
  lemma {:induction false} LinesSplit(records: seq<Json>)
    ensures SplitLines(Lines(records)) == Texts(records)
  {
    hide Stringify, Until;
    if records != [] {
      var line := Stringify(records[0]);
      var t := Lines(records[1..]);
      StringifyIsOneLine(records[0]);
      LinesSplit(records[1..]);
      assert Lines(records) == line + [LINE_FEED] + t;
      UntilLine(line, t);
      assert Lines(records)[..|line|] == line && Lines(records)[|line| + 1..] == t;
      assert Texts(records) == [line] + Texts(records[1..]);
    }
  }

  lemma ParseUndoesLine(j: Json)
    ensures ParseLine(Stringify(j)) == Some(j)
  {
    ParseUndoesStringify(j, []);
    assert Stringify(j) + [] == Stringify(j);
  }

  lemma {:induction false} LinesAppend(records: seq<Json>, j: Json)
    ensures Lines(records + [j]) == Lines(records) + Line(j)
  {
    if records == [] {
      assert records + [j] == [j];
    } else {
      assert (records + [j])[1..] == records[1..] + [j];
      LinesAppend(records[1..], j);
    }
  }

  lemma LinesEnd(records: seq<Json>)
    ensures records != [] ==> Lines(records) != [] && Lines(records)[|Lines(records)| - 1] == LINE_FEED
    ensures records == [] ==> Lines(records) == []
  {
    if records != [] {
      var n := |records| - 1;
      assert records == records[..n] + [records[n]];
      LinesAppend(records[..n], records[n]);
    }
  }

  /** Surrogates only in pairs: UTF-8 keeps such a text. */
  predicate Paired(t: Text) {
    t == [] || (!IsHigh(t[0]) && !IsLow(t[0]) && Paired(t[1..]))
    || (|t| > 1 && IsHigh(t[0]) && IsLow(t[1]) && Paired(t[2..]))
  }

  lemma {:induction false} PairedSum(a: Text, b: Text)
    requires Paired(a) && Paired(b)
    ensures Paired(a + b)
    decreases |a|
  {
    if a == [] {
      assert a + b == b;
    } else if IsHigh(a[0]) {
      assert (a + b)[2..] == a[2..] + b;
      PairedSum(a[2..], b);
    } else {
      assert (a + b)[1..] == a[1..] + b;
      PairedSum(a[1..], b);
    }
  }

  lemma {:induction false} EscapingOnlyAdds(s: Text)
    ensures |Escape(s)| >= |s|
    decreases |s|
  {
    if s != [] {
      if |s| > 1 && IsHigh(s[0]) && IsLow(s[1]) { EscapingOnlyAdds(s[2..]); } else { EscapingOnlyAdds(s[1..]); }
    }
  }

  /** A text is printed as it is exactly when it holds no quote, backslash, control unit or
      unpaired surrogate. */
  lemma {:induction false} PrintedAsItIs(s: Text)
    ensures Escape(s) == s <==> Paired(s) && forall u :: u in s ==> u >= 0x20 && u != QUOTES && u != BACKSLASH
    decreases |s|
  {
    if s != [] {
      if |s| > 1 && IsHigh(s[0]) && IsLow(s[1]) {
        PrintedAsItIs(s[2..]);
        EscapingOnlyAdds(s[2..]);
        SameParts(s[..2], s[2..], s[..2], Escape(s[2..]));
        assert s == s[..2] + s[2..] && Escape(s) == s[..2] + Escape(s[2..]) && (Paired(s) <==> Paired(s[2..]));
        UnitsOf(s, 2);
        assert forall u :: u in s[..2] ==> u == s[0] || u == s[1];
        hide Escape, Paired;
      } else {
        PrintedAsItIs(s[1..]);
        EscapingOnlyAdds(s[1..]);
        UnitAsItIs(s[0]);
        SameParts([s[0]], s[1..], EscapeUnit(s[0]), Escape(s[1..]));
        assert s == [s[0]] + s[1..] && Escape(s) == EscapeUnit(s[0]) + Escape(s[1..]);
        assert Paired(s) <==> !IsHigh(s[0]) && !IsLow(s[0]) && Paired(s[1..]);
        UnitsOf(s, 1);
        assert forall u :: u in s[..1] ==> u == s[0];
        hide EscapeUnit, Escape, Paired;
      }
    }
  }

  lemma UnitsOf(s: Text, n: nat)
    requires n <= |s|
    ensures forall u :: u in s <==> u in s[..n] || u in s[n..]
    ensures forall k :: 0 <= k < n ==> s[k] in s[..n]
  {
    assert s == s[..n] + s[n..];
    assert forall k :: 0 <= k < n ==> s[..n][k] == s[k];
  }

  lemma UnitAsItIs(u: Unit)
    ensures |EscapeUnit(u)| >= 1
    ensures EscapeUnit(u) == [u] <==> u >= 0x20 && u != QUOTES && u != BACKSLASH && !IsHigh(u) && !IsLow(u)
    ensures |EscapeUnit(u)| == 1 ==> EscapeUnit(u) == [u]
  {}

  lemma SameParts(a: Text, b: Text, c: Text, d: Text)
    requires |c| >= |a| && |d| >= |b|
    ensures c + d == a + b <==> c == a && d == b
  {
    if c + d == a + b {
      assert |c| == |a|;
      assert (c + d)[..|c|] == c && (a + b)[..|a|] == a && (c + d)[|c|..] == d && (a + b)[|a|..] == b;
    }
  }

  /** What stands for a unit that is not printed as it is, and the shortest decimal form of a number. */
  lemma EscapedAs(u: Unit, n: nat)
    ensures EscapeUnit(QUOTES) == [BACKSLASH, QUOTES] && EscapeUnit(BACKSLASH) == [BACKSLASH, BACKSLASH]
    ensures EscapeUnit(8) == Ascii("\\b") && EscapeUnit(9) == Ascii("\\t") && EscapeUnit(10) == Ascii("\\n")
    ensures EscapeUnit(12) == Ascii("\\f") && EscapeUnit(13) == Ascii("\\r")
    ensures u < 0x20 && u !in {8, 9, 10, 12, 13} ==>
              EscapeUnit(u) == Ascii("\\u00") + [if u < 0x10 then 0x30 else 0x31, if u % 16 < 10 then 0x30 + u % 16 else 0x57 + u % 16]
    ensures |EscapeUnit(u)| == 6 || |EscapeUnit(u)| <= 2
    ensures |Digits(n)| > 0 && (Digits(n)[0] == 0x30 ==> n == 0)
  {
    FirstDigitIsNotZero(n);
    assert Ascii("\\u00") == [BACKSLASH, 0x75, 0x30, 0x30];
  }

  lemma {:induction false} FirstDigitIsNotZero(n: nat)
    ensures |Digits(n)| > 0 && (Digits(n)[0] == 0x30 ==> n == 0)
  {
    if n >= 10 { FirstDigitIsNotZero(n / 10); }
  }

  lemma {:induction false} PlainIsPaired(t: Text)
    requires forall u :: u in t ==> !IsHigh(u) && !IsLow(u)
    ensures Paired(t)
  {
    if t != [] { assert t[0] in t; PlainIsPaired(t[1..]); }
  }

  lemma {:induction false} EscapeIsPaired(s: Text)
    ensures Paired(Escape(s))
    decreases |s|
  {
    if s != [] {
      if |s| > 1 && IsHigh(s[0]) && IsLow(s[1]) {
        EscapeIsPaired(s[2..]);
        assert Escape(s)[2..] == Escape(s[2..]);
      } else {
        EscapeIsPaired(s[1..]);
        PlainIsPaired(EscapeUnit(s[0]));
        PairedSum(EscapeUnit(s[0]), Escape(s[1..]));
      }
    }
  }

  lemma QuoteIsPaired(s: Text)
    ensures Paired(QuoteText(s))
  {
    EscapeIsPaired(s);
    PlainIsPaired([QUOTES]);
    PairedSum([QUOTES], Escape(s));
    PairedSum([QUOTES] + Escape(s), [QUOTES]);
  }

  lemma DigitsArePaired(n: int)
    ensures Paired(NumberText(n))
  {
    DigitsRead(if n < 0 then -n else n, []);
    PlainIsPaired(NumberText(n));
  }

  /** Every printed value is well-formed UTF-16: lone surrogates are escaped. */
  lemma {:induction false} StringifyIsPaired(j: Json)
    ensures Paired(Stringify(j))
  {
    match j
    case Null => PlainIsPaired(NULL_TEXT);
    case Bool(flag) => PlainIsPaired(if flag then TRUE_TEXT else FALSE_TEXT);
    case Num(n) => DigitsArePaired(n);
    case Str(text) => QuoteIsPaired(text);
    case Arr(items) => ItemsArePaired(items); Enclosed(OPEN_BRACKET, StringifyItems(items), CLOSE_BRACKET);
    case Obj(members) => MembersArePaired(members); Enclosed(OPEN_BRACE, StringifyMembers(members), CLOSE_BRACE);
  }

  lemma Enclosed(open: Unit, t: Text, close: Unit)
    requires Paired(t) && open < 0x80 && close < 0x80
    ensures Paired([open] + t + [close])
  {
    PlainIsPaired([open]);
    PlainIsPaired([close]);
    PairedSum([open], t);
    PairedSum([open] + t, [close]);
  }

  lemma {:induction false} ItemsArePaired(items: seq<Json>)
    ensures Paired(StringifyItems(items))
    decreases items
  {
    if items != [] {
      StringifyIsPaired(items[0]);
      ItemsArePaired(items[1..]);
      PlainIsPaired([COMMA]);
      PairedSum([COMMA], StringifyItems(items[1..]));
      PairedSum(Stringify(items[0]), if |items| == 1 then [] else [COMMA] + StringifyItems(items[1..]));
    }
  }

  lemma {:induction false} MembersArePaired(members: seq<Member>)
    ensures Paired(StringifyMembers(members))
    decreases members
  {
    if members != [] {
      var m := members[0];
      QuoteIsPaired(m.key);
      StringifyIsPaired(m.value);
      MembersArePaired(members[1..]);
      PlainIsPaired([COMMA]);
      PlainIsPaired([COLON]);
      PairedSum([COMMA], StringifyMembers(members[1..]));
      PairedSum(QuoteText(m.key), [COLON]);
      PairedSum(QuoteText(m.key) + [COLON], Stringify(m.value));
      PairedSum(MemberText(m.key, Stringify(m.value)), if |members| == 1 then [] else [COMMA] + StringifyMembers(members[1..]));
    }
  }

  /** Where a text without line feeds ends when one follows it. */
  lemma {:induction false} UntilAfter(a: Text, b: Text)
    ensures LINE_FEED !in a ==> Until(a) == |a| && Until(a + [LINE_FEED] + b) == |a|
    ensures LINE_FEED in a ==> Until(a) < |a| && Until(a + [LINE_FEED] + b) == Until(a)
  {
    var t := a + [LINE_FEED] + b;
    if a != [] && a[0] != LINE_FEED {
      UntilAfter(a[1..], b);
      assert t[1..] == a[1..] + [LINE_FEED] + b;
    }
  }

  /** The first line of a text that goes on after a line feed. */
  lemma FirstLine(a: Text, b: Text)
    requires LINE_FEED !in a
    ensures SplitLines(a) == if a == [] then [] else [a]
    ensures SplitLines(a + [LINE_FEED] + b) == (if a == [] then [] else [a]) + SplitLines(b)
  {
    var t := a + [LINE_FEED] + b;
    UntilAfter(a, b);
    assert a[..|a|] == a && t[..|a|] == a && t[|a| + 1..] == b;
  }

  lemma Halves(a: Text) returns (first: Text, rest: Text)
    requires LINE_FEED in a
    ensures a == first + [LINE_FEED] + rest && LINE_FEED !in first
  {
    UntilAfter(a, []);
    var n := Until(a);
    first, rest := a[..n], a[n + 1..];
  }

  /** Splitting is determined by two rules: a text without line feeds is one line, or none
      if it is empty, and a line feed separates what comes before it from what comes after. */
  lemma {:induction false} SplitRules(a: Text, b: Text)
    ensures LINE_FEED !in a ==> SplitLines(a) == if a == [] then [] else [a]
    ensures SplitLines(a + [LINE_FEED] + b) == SplitLines(a) + SplitLines(b)
    decreases |a|
  {
    hide *;
    if LINE_FEED !in a {
      FirstLine(a, b);
    } else {
      var first, rest := Halves(a);
      FirstLine(first, rest);
      FirstLine(first, rest + [LINE_FEED] + b);
      SplitRules(rest, b);
      assert a + [LINE_FEED] + b == first + [LINE_FEED] + (rest + [LINE_FEED] + b);
    }
  }

  // ---- Journals of records ----

  /** Every record is an object with the id, and no id repeats. */
  ghost predicate Proper(records: seq<Json>, field: Text) {
    && (forall i :: 0 <= i < |records| ==> IdOf(records[i], field).Some?)
    && (forall i, j :: 0 <= i < j < |records| ==> IdOf(records[i], field) != IdOf(records[j], field))
  }

  ghost predicate HasId(records: seq<Json>, field: Text, id: Text, i: nat) {
    i < |records| && IdOf(records[i], field) == Some(id)
  }

  ghost predicate Found(records: seq<Json>, field: Text, id: Text, i: nat, value: Json, d: Decision) {
    HasId(records, field, id, i) && (d.Present? <==> ToValue(records[i]) == ToValue(value))
  }

  /** What scanning the file finds, in terms of its records. */
  lemma {:induction false} ScanFinds(records: seq<Json>, field: Text, id: Text, value: Json)
    ensures var found := ScanLines(Texts(records), field, id, value);
            && (found.None? <==> forall i: nat :: !HasId(records, field, id, i))
            && (found.Some? ==> found.value.Present? || found.value == Refuse(IdCollision))
            && (found.Some? ==> exists i: nat :: Found(records, field, id, i, value, found.value))
  {
    if records != [] {
      ParseUndoesLine(records[0]);
      assert Texts(records)[1..] == Texts(records[1..]);
      hide ParseLine, IdOf, ToValue;
      if IdOf(records[0], field) == Some(id) {
        assert HasId(records, field, id, 0);
        assert Found(records, field, id, 0, value, ScanLines(Texts(records), field, id, value).value);
      } else {
        ScanFinds(records[1..], field, id, value);
        forall i: nat ensures HasId(records, field, id, i) <==> i > 0 && HasId(records[1..], field, id, i - 1) {}
        var found := ScanLines(Texts(records[1..]), field, id, value);
        if found.Some? {
          var i: nat :| Found(records[1..], field, id, i, value, found.value);
          assert HasId(records, field, id, i + 1) && Found(records, field, id, i + 1, value, found.value);
        } else {
          forall i: nat ensures !HasId(records, field, id, i) {
            if i > 0 { assert !HasId(records[1..], field, id, i - 1); }
          }
        }
      }
    }
  }

  predicate SameId(records: seq<Json>, field: Text, value: Json, i: int) {
    0 <= i < |records| && IdOf(records[i], field) == IdOf(value, field)
  }

  /** The same id and the same value up to member order. */
  predicate SameRecord(records: seq<Json>, field: Text, value: Json, i: int) {
    SameId(records, field, value, i) && ToValue(records[i]) == ToValue(value)
  }

  /** The id is usable and nothing exceeds its bound. */
  predicate Checked(l: Limits, field: Text, records: seq<Json>, value: Json) {
    && IdOf(value, field).Some? && 1 <= |IdOf(value, field).value| <= MAX_ID
    && Utf8Length(Line(value)) <= l.maxEntryBytes && Utf8Length(Lines(records)) <= l.maxFileBytes && |records| <= l.maxLines
  }

  /** Within its bounds, an append finds its record already present exactly when one
      with its id and an equal value is in the journal, is refused as a collision
      exactly when one has its id with another value, and otherwise appends if there is room. */
  lemma DecisionMeans(l: Limits, field: Text, records: seq<Json>, value: Json)
    requires Proper(records, field)
    ensures var d := Decide(l, field, Lines(records), value);
            && (d.Present? <==> Checked(l, field, records, value) && exists i :: SameRecord(records, field, value, i))
            && (d == Refuse(IdCollision) <==>
                 Checked(l, field, records, value) && exists i :: SameId(records, field, value, i) && !SameRecord(records, field, value, i))
            && (d.Append? <==>
                 && Checked(l, field, records, value) && (forall i :: !SameId(records, field, value, i))
                 && |records| < l.maxLines && Utf8Length(Lines(records) + Line(value)) <= l.maxFileBytes)
            && d != Refuse(NotAtBoundary) && d != Refuse(InvalidRecord)
  {
    hide IdOf, ToValue, Lines, Texts, ScanLines, Utf8Length, SplitLines, Line;
    LinesSplit(records);
    LinesEnd(records);
    TextsLength(records);
    var id := IdOf(value, field);
    if id.Some? {
      ScanFinds(records, field, id.value, value);
      assert forall i :: SameId(records, field, value, i) ==> HasId(records, field, id.value, i);
      var found := ScanLines(Texts(records), field, id.value, value);
      if found.Some? {
        var i: nat :| Found(records, field, id.value, i, value, found.value);
        assert SameId(records, field, value, i);
        assert forall j :: SameId(records, field, value, j) ==> j == i;
        assert SameRecord(records, field, value, i) <==> found.value.Present?;
      }
    }
  }

  /** The first `n` lines parse and carry other ids. */
  ghost predicate ClearOf(lines: seq<Text>, field: Text, id: Text, n: nat) {
    n <= |lines| && forall k :: 0 <= k < n ==> ParseLine(lines[k]).Some? && IdOf(ParseLine(lines[k]).value, field) != Some(id)
  }

  /** Line `k` is the first that does not parse or carries the id. */
  ghost predicate Stops(lines: seq<Text>, field: Text, id: Text, k: nat) {
    k < |lines| && ClearOf(lines, field, id, k) && (ParseLine(lines[k]).None? || IdOf(ParseLine(lines[k]).value, field) == Some(id))
  }

  /** The first line that stops the scan decides it: what follows is not looked at. */
  lemma {:induction false} ScanStops(lines: seq<Text>, field: Text, id: Text, value: Json)
    ensures ScanLines(lines, field, id, value).None? <==> ClearOf(lines, field, id, |lines|)
    ensures forall k: nat :: Stops(lines, field, id, k) ==>
              ScanLines(lines, field, id, value) == Some(
                if ParseLine(lines[k]).None? then Refuse(InvalidRecord)
                else if ToValue(ParseLine(lines[k]).value) == ToValue(value) then Present else Refuse(IdCollision))
    ensures ScanLines(lines, field, id, value).Some? ==> exists k: nat :: Stops(lines, field, id, k)
  {
    hide ParseLine, IdOf, ToValue;
    if lines != [] {
      var rest := lines[1..];
      if ParseLine(lines[0]).None? || IdOf(ParseLine(lines[0]).value, field) == Some(id) {
        assert Stops(lines, field, id, 0);
        assert forall k: nat :: Stops(lines, field, id, k) ==> k == 0;
        assert !ClearOf(lines, field, id, |lines|);
      } else {
        ScanStops(rest, field, id, value);
        forall n: nat ensures 0 < n <= |lines| ==> (ClearOf(lines, field, id, n) <==> ClearOf(rest, field, id, n - 1)) {
          if 0 < n <= |lines| && ClearOf(lines, field, id, n) { assert forall k :: 0 <= k < n - 1 ==> rest[k] == lines[k + 1]; }
          if 0 < n <= |lines| && ClearOf(rest, field, id, n - 1) { assert forall k :: 0 < k < n ==> lines[k] == rest[k - 1]; }
        }
        forall k: nat ensures Stops(lines, field, id, k) <==> k > 0 && Stops(rest, field, id, k - 1) {}
        if ScanLines(rest, field, id, value).Some? {
          var k: nat :| Stops(rest, field, id, k);
          assert Stops(lines, field, id, k + 1);
        }
      }
    }
  }

  /** On any text whatever, torn or foreign ones included: an append looks at the id, the
      bounds and the last byte before any line, then at the lines up to the first that
      does not parse or carries the id, which decides; only a text whose every line parses
      and carries another id grows. */
  lemma DecidesOnAnyText(l: Limits, field: Text, content: Text, value: Json)
    ensures var d, lines, id := Decide(l, field, content, value), SplitLines(content), IdOf(value, field);
            var usable := id.Some? && 1 <= |id.value| <= MAX_ID;
            var fits := usable && Utf8Length(Line(value)) <= l.maxEntryBytes;
            var whole := && fits && Utf8Length(content) <= l.maxFileBytes && (content == [] || content[|content| - 1] == LINE_FEED)
                         && |lines| <= l.maxLines;
            && (d == Refuse(BadId) <==> !usable)
            && (d == Refuse(EntryTooLarge) <==> usable && !fits)
            && (d == Refuse(FileTooLarge) <==> fits && Utf8Length(content) > l.maxFileBytes)
            && (d == Refuse(NotAtBoundary) <==>
                  fits && Utf8Length(content) <= l.maxFileBytes && content != [] && content[|content| - 1] != LINE_FEED)
            && (d == Refuse(InvalidRecord) <==> whole && exists k: nat :: Stops(lines, field, id.value, k) && ParseLine(lines[k]).None?)
            && (d == Present <==>
                  whole && exists k: nat :: Stops(lines, field, id.value, k) && ParseLine(lines[k]).Some?
                                            && ToValue(ParseLine(lines[k]).value) == ToValue(value))
            && (d == Refuse(IdCollision) <==>
                  whole && exists k: nat :: Stops(lines, field, id.value, k) && ParseLine(lines[k]).Some?
                                            && ToValue(ParseLine(lines[k]).value) != ToValue(value))
            && (d == Append <==>
                  whole && ClearOf(lines, field, id.value, |lines|) && |lines| < l.maxLines
                  && Utf8Length(content + Line(value)) <= l.maxFileBytes)
  {
    hide ParseLine, IdOf, ToValue, Utf8Length, SplitLines, Line, ScanLines;
    var lines, id := SplitLines(content), IdOf(value, field);
    if id.Some? {
      ScanStops(lines, field, id.value, value);
      forall j: nat, k: nat | Stops(lines, field, id.value, j) && Stops(lines, field, id.value, k) ensures j == k {
        OneStop(lines, field, id.value, j, k);
      }
      NoStop(lines, field, id.value);
      hide Stops, ClearOf;
    }
  }

  lemma OneStop(lines: seq<Text>, field: Text, id: Text, j: nat, k: nat)
    requires Stops(lines, field, id, j) && Stops(lines, field, id, k)
    ensures j == k
  {}

  lemma NoStop(lines: seq<Text>, field: Text, id: Text)
    ensures ClearOf(lines, field, id, |lines|) ==> forall k: nat :: !Stops(lines, field, id, k)
    ensures forall k: nat :: Stops(lines, field, id, k) ==> k < |lines|
  {}

  lemma TextsLength(records: seq<Json>)
    ensures |Texts(records)| == |records|
  {}

  lemma AppendIsNew(l: Limits, field: Text, records: seq<Json>, value: Json)
    requires Proper(records, field) && Decide(l, field, Lines(records), value).Append?
    ensures IdOf(value, field).Some? && forall i :: 0 <= i < |records| ==> IdOf(records[i], field) != IdOf(value, field)
  {
    hide IdOf, Lines, Decide, Utf8Length, Line, Proper, SameRecord;
    DecisionMeans(l, field, records, value);
    forall i | 0 <= i < |records| ensures IdOf(records[i], field) != IdOf(value, field) { assert !SameId(records, field, value, i); }
  }

  /** The journal file of one path. `kept` counts the records that any power loss leaves. */
  class Journal {
    const field: Text
    const limits: Limits
    var content: Text
    ghost var records: seq<Json>
    ghost var kept: nat

    ghost predicate Valid()
      reads this
    {
      content == Lines(records) && Proper(records, field) && kept <= |records|
    }

    ghost function View(): State
      reads this
    {
      State(records, kept)
    }

    constructor (field: Text, limits: Limits)
      ensures Valid() && View() == State([], 0) && this.field == field && this.limits == limits
    {
      this.field, this.limits, content, records, kept := field, limits, [], [], 0;
    }

    /** Replaces the file by a synced sibling, up to where the fault strikes. */
    method WriteAtomically(value: Json, fault: WriteFault) returns (r: Result<(), JournalError>)
      requires Valid() && IdOf(value, field).Some?
      requires forall i :: 0 <= i < |records| ==> IdOf(records[i], field) != IdOf(value, field)
      modifies this
      ensures Valid() && View() == Written(old(View()), value, fault)
      ensures r == if fault.NoFault? then Ok(()) else if fault.BeforeRename? then Err(WriteFailed) else Err(CommitAmbiguous)
    {
      if fault.BeforeRename? { return Err(WriteFailed); }
      LinesAppend(records, value);
      hide IdOf, Lines, Line;
      content := content + Line(value);
      records := records + [value];
      if fault.BeforeSync? { return Err(CommitAmbiguous); }
      kept := |records|;
      r := Ok(());
    }

    /** Appends the record unless its id is already there. */
    method AppendOnce(value: Json, fault: WriteFault) returns (r: Result<bool, JournalError>)
      requires Valid()
      modifies this
      ensures Valid() && View() == Step(limits, field, old(View()), AppendEvent(value, fault))
      ensures content == Lines(records) && old(records) <= records
      ensures r == Ok(false) <==> Decide(limits, field, old(content), value).Present?
      ensures r == Ok(true) <==> Decide(limits, field, old(content), value).Append? && fault.NoFault?
      ensures r == Ok(true) ==> records == old(records) + [value] && kept == |records|
    {
      hide Decide, Lines, Proper;
      var d := DecideAppend(limits, field, content, value);
      if d.Append? { AppendIsNew(limits, field, records, value); }
      match d
      case Refuse(error) => return Err(error);
      case Present => return Ok(false);
      case Append =>
        var written := WriteAtomically(value, fault);
        return if written.Ok? then Ok(true) else Err(written.error);
    }

    /** The machine stops; a rename that was not synced may be undone. */
    method PowerLoss(image: Text, ghost left: nat)
      requires Valid() && kept <= left <= |records| && image == Lines(records[..left])
      modifies this
      ensures Valid() && View() == Step(limits, field, old(View()), PowerLossEvent(left))
    {
      records := records[..left];
      content, kept := image, left;
    }

    method ReadAll() returns (r: Result<seq<Json>, JournalError>)
      requires Valid()
      ensures r == if Utf8Length(content) > limits.maxFileBytes then Err(FileTooLarge)
                   else if |records| > limits.maxLines then Err(TooManyLines)
                   else Ok(records)
    {
      hide ParseLine, Utf8Length, SplitLines, Lines;
      LinesSplit(records);
      forall k | 0 <= k < |records| ensures ParseLine(Texts(records)[k]) == Some(records[k]) { ParseUndoesLine(records[k]); }
      var accepts := (j: Json) => true;
      assert AllReadable(Texts(records), accepts);
      r := ReadJsonLines(limits, content, accepts);
      assert SplitLines(content) == Texts(records) && |Texts(records)| == |records|;
      if r.Ok? {
        forall k | 0 <= k < |records| ensures r.value[k] == records[k] { assert ParseLine(Texts(records)[k]) == Some(records[k]); }
        assert r.value == records;
      }
    }
  }

  // ---- Results, over every run of appends, retries and crashes ----

  datatype State = State(records: seq<Json>, kept: nat)

  datatype Event = AppendEvent(value: Json, fault: WriteFault) | PowerLossEvent(left: nat)

  function Written(s: State, value: Json, fault: WriteFault): State {
    match fault
    case BeforeRename => s
    case BeforeSync => s.(records := s.records + [value])
    case NoFault => State(s.records + [value], |s.records| + 1)
  }

  function Step(l: Limits, field: Text, s: State, e: Event): State {
    match e
    case AppendEvent(value, fault) => if Decide(l, field, Lines(s.records), value).Append? then Written(s, value, fault) else s
    case PowerLossEvent(left) =>
      var rest := if left < s.kept then s.kept else if left > |s.records| then |s.records| else left;
      if s.kept > |s.records| then s else State(s.records[..rest], rest)
  }

  function Run(l: Limits, field: Text, s: State, events: seq<Event>): State
    decreases |events|
  {
    if events == [] then s else Run(l, field, Step(l, field, s, events[0]), events[1..])
  }

  ghost predicate Inv(field: Text, s: State) {
    Proper(s.records, field) && s.kept <= |s.records|
  }

  lemma StepKeepsInv(l: Limits, field: Text, s: State, e: Event)
    requires Inv(field, s)
    ensures Inv(field, Step(l, field, s, e))
    ensures Step(l, field, s, e).kept >= s.kept && s.records[..s.kept] <= Step(l, field, s, e).records
  {
    hide IdOf, Decide, Lines, Checked;
    if e.AppendEvent? && Decide(l, field, Lines(s.records), e.value).Append? {
      AppendIsNew(l, field, s.records, e.value);
    }
  }

  /** From an empty file, after any run, the file is the printed list of records
      with distinct ids, and it reads back as exactly that list. */
  lemma {:induction false} JournalIsExact(l: Limits, field: Text, events: seq<Event>)
    ensures var s := Run(l, field, State([], 0), events);
            Proper(s.records, field) && SplitLines(Lines(s.records)) == Texts(s.records)
            && forall i :: 0 <= i < |s.records| ==> ParseLine(Texts(s.records)[i]) == Some(s.records[i])
  {
    RunKeepsInv(l, field, State([], 0), events);
    var s := Run(l, field, State([], 0), events);
    LinesSplit(s.records);
    forall i | 0 <= i < |s.records| ensures ParseLine(Texts(s.records)[i]) == Some(s.records[i]) { ParseUndoesLine(s.records[i]); }
  }

  /** What was synced stays, in place, whatever happens later. */
  lemma {:induction false} RunKeepsInv(l: Limits, field: Text, s: State, events: seq<Event>)
    requires Inv(field, s)
    ensures Inv(field, Run(l, field, s, events))
    ensures var t := Run(l, field, s, events); t.kept >= s.kept && s.records[..s.kept] <= t.records
    decreases |events|
  {
    hide Inv, Step;
    KeptIsShorter(field, s);
    if events != [] {
      var next := Step(l, field, s, events[0]);
      StepKeepsInv(l, field, s, events[0]);
      KeptIsShorter(field, next);
      RunKeepsInv(l, field, next, events[1..]);
      var t := Run(l, field, s, events);
      assert s.records[..s.kept] == next.records[..s.kept] == next.records[..next.kept][..s.kept];
      assert next.records[..next.kept] == t.records[..next.kept];
    }
  }

  lemma KeptIsShorter(field: Text, s: State)
    requires Inv(field, s)
    ensures s.kept <= |s.records|
  {}

  /** A synced append is never repeated or lost: after it, in every run, the record
      keeps its place and appending it again changes nothing. */
  lemma {:induction false} AppendedExactlyOnce(l: Limits, field: Text, s: State, value: Json, later: seq<Event>, retry: WriteFault)
    requires Inv(field, s) && Decide(l, field, Lines(s.records), value).Append?
    ensures var t := Run(l, field, Step(l, field, s, AppendEvent(value, NoFault)), later);
            && |t.records| > |s.records| && t.records[|s.records|] == value
            && Step(l, field, t, AppendEvent(value, retry)) == t
  {
    var first := Step(l, field, s, AppendEvent(value, NoFault));
    StepKeepsInv(l, field, s, AppendEvent(value, NoFault));
    RunKeepsInv(l, field, first, later);
    var t := Run(l, field, first, later);
    hide Decide, Lines, IdOf, Run, Checked, SameRecord;
    assert first.records[..first.kept] == first.records;
    assert first.records <= t.records;
    assert first.records[|s.records|] == value;
    assert SameId(t.records, field, value, |s.records|);
    DecisionMeans(l, field, t.records, value);
  }

  /** The event leaves the whole file synced: an append that went through, or a power loss. */
  ghost predicate Syncs(l: Limits, field: Text, s: State, e: Event) {
    e.PowerLossEvent? || (e.fault.NoFault? && Decide(l, field, Lines(s.records), e.value).Append?)
  }

  /** The file was synced by event `k` of the run, with record `i` in it. */
  ghost predicate SyncedAt(l: Limits, field: Text, events: seq<Event>, k: nat, i: nat)
    requires k < |events|
  {
    && Syncs(l, field, Run(l, field, State([], 0), events[..k]), events[k])
    && |Run(l, field, State([], 0), events[..k + 1]).records| > i
  }

  ghost predicate SyncedWith(l: Limits, field: Text, events: seq<Event>, i: nat) {
    exists k :: 0 <= k < |events| && SyncedAt(l, field, events, k, i)
  }

  lemma {:induction false} RunSnoc(l: Limits, field: Text, s: State, events: seq<Event>, last: Event)
    ensures Run(l, field, s, events + [last]) == Step(l, field, Run(l, field, s, events), last)
    decreases |events|
  {
    hide Step;
    if events == [] {
      assert events + [last] == [last] && [last][1..] == [];
    } else {
      assert (events + [last])[1..] == events[1..] + [last];
      RunSnoc(l, field, Step(l, field, s, events[0]), events[1..], last);
    }
  }

  lemma StepKept(l: Limits, field: Text, s: State, e: Event)
    requires s.kept <= |s.records|
    ensures var t := Step(l, field, s, e); t.kept == if Syncs(l, field, s, e) then |t.records| else s.kept
    ensures s.kept <= Step(l, field, s, e).kept <= |Step(l, field, s, e).records|
  {
    hide Decide, Lines;
  }

  lemma {:induction false} KeptExactly(l: Limits, field: Text, events: seq<Event>, i: nat)
    ensures Run(l, field, State([], 0), events).kept <= |Run(l, field, State([], 0), events).records|
    ensures i < Run(l, field, State([], 0), events).kept <==> SyncedWith(l, field, events, i)
    decreases |events|
  {
    if events != [] {
      var n := |events| - 1;
      var before := events[..n];
      assert events == before + [events[n]] && events[..n + 1] == events;
      var s := Run(l, field, State([], 0), before);
      KeptExactly(l, field, before, i);
      RunSnoc(l, field, State([], 0), before, events[n]);
      StepKept(l, field, s, events[n]);
      assert SyncedAt(l, field, events, n, i) <==> Syncs(l, field, s, events[n]) && |Run(l, field, State([], 0), events).records| > i;
      forall k: nat | k < n ensures SyncedAt(l, field, before, k, i) <==> SyncedAt(l, field, events, k, i) {
        assert events[k] == before[k] && events[..k] == before[..k] && events[..k + 1] == before[..k + 1];
      }
      hide Step, Run, Syncs, SyncedAt;
    }
  }

  /** A record of the journal, whether just appended or reported "already present",
      stays for good if and only if the file was synced with it: by an append that
      went through, not necessarily its own, or by a power loss that left it. */
  lemma PresentIsDurable(l: Limits, field: Text, events: seq<Event>, i: nat)
    requires i < |Run(l, field, State([], 0), events).records|
    ensures var s := Run(l, field, State([], 0), events);
            (forall later :: |Run(l, field, s, later).records| > i && Run(l, field, s, later).records[i] == s.records[i])
            <==> SyncedWith(l, field, events, i)
  {
    var s := Run(l, field, State([], 0), events);
    KeptExactly(l, field, events, i);
    RunKeepsInv(l, field, State([], 0), events);
    hide SyncedWith, Inv;
    if i < s.kept {
      forall later ensures |Run(l, field, s, later).records| > i && Run(l, field, s, later).records[i] == s.records[i] {
        RunKeepsInv(l, field, s, later);
        assert s.records[..s.kept][i] == s.records[i];
      }
    } else {
      var lost := [PowerLossEvent(0)];
      assert Run(l, field, s, lost) == Step(l, field, s, lost[0]);
      assert |Run(l, field, s, lost).records| <= s.kept;
    }
  }

  /** Dying between rename and sync, retrying (which reports "already present") and
      then losing power loses the record. */
  lemma PresentMayBeLost(l: Limits, field: Text, value: Json)
    requires Decide(l, field, [], value).Append?
    ensures var s := Step(l, field, State([], 0), AppendEvent(value, BeforeSync));
            && (Utf8Length(Lines(s.records)) <= l.maxFileBytes && l.maxLines >= 1 ==> Decide(l, field, Lines(s.records), value).Present?)
            && Step(l, field, s, AppendEvent(value, NoFault)) == s
            && Step(l, field, s, PowerLossEvent(0)).records == []
  {
    var s := Step(l, field, State([], 0), AppendEvent(value, BeforeSync));
    assert Lines([]) == [];
    assert s.records == [value] && Proper(s.records, field);
    DecisionMeans(l, field, s.records, value);
    LinesSplit(s.records);
    LinesEnd(s.records);
    ParseUndoesLine(value);
    assert |Texts(s.records)| == 1 && Texts(s.records)[0] == Stringify(value);
  }
}
