/** The Windows command line handed to the outer-job supervisor: how arguments
    are quoted, and how Microsoft's C runtime splits the line again ("Parsing C
    command-line arguments"). */
module WindowsQuoting {
  import opened CodeUnits
  import opened Outcomes

  const NUL: Unit := 0
  const TAB: Unit := 9
  const LINE_FEED: Unit := 10
  const CARRIAGE_RETURN: Unit := 13
  const SPACE: Unit := 0x20
  const QUOTES: Unit := 0x22
  const BACKSLASH: Unit := 0x5C

  // ---- The quoter ----

  const MAX_ARGUMENT := 4_096

  /** White space in JavaScript's regular expressions. */
  predicate IsJsSpace(u: Unit) {
    || 9 <= u <= 13 || u == 0x20 || u == 0xA0 || u == 0x1680 || 0x2000 <= u <= 0x200A
    || u == 0x2028 || u == 0x2029 || u == 0x202F || u == 0x205F || u == 0x3000 || u == 0xFEFF
  }

  predicate ValidArgument(v: Text) {
    |v| <= MAX_ARGUMENT && NUL !in v && CARRIAGE_RETURN !in v && LINE_FEED !in v
  }

  predicate NeedsQuotes(v: Text) {
    v == [] || exists u :: u in v && (IsJsSpace(u) || u == QUOTES)
  }

  function Backslashes(n: nat): Text {
    if n == 0 then [] else [BACKSLASH] + Backslashes(n - 1)
  }

  /** The length of the run of backslashes a text begins with. */
  function Leading(v: Text): (n: nat)
    ensures n <= |v| && v[..n] == Backslashes(n) && (n < |v| ==> v[n] != BACKSLASH)
  {
    if v == [] || v[0] != BACKSLASH then 0 else 1 + Leading(v[1..])
  }

  function Trailing(v: Text): (n: nat)
    ensures n <= |v|
  {
    if v == [] || v[|v| - 1] != BACKSLASH then 0 else 1 + Trailing(v[..|v| - 1])
  }

  /** Every quote is escaped and the backslashes just before it are doubled. */
  function EscapeQuotes(v: Text): Text
    decreases |v|
  {
    var n := Leading(v);
    if n == |v| then v
    else if v[n] == QUOTES then Backslashes(2 * n) + [BACKSLASH, QUOTES] + EscapeQuotes(v[n + 1..])
    else v[..n + 1] + EscapeQuotes(v[n + 1..])
  }

  function DoubleTrailing(v: Text): Text {
    v + Backslashes(Trailing(v))
  }

  function Quoted(v: Text): Text {
    if NeedsQuotes(v) then [QUOTES] + DoubleTrailing(EscapeQuotes(v)) + [QUOTES] else v
  }

  function QuoteArgument(v: Text): Option<Text> {
    if ValidArgument(v) then Some(Quoted(v)) else None
  }

  /** The arguments, each quoted, joined by single spaces. */
  function Joined(args: seq<Text>): Text {
    if args == [] then [] else if |args| == 1 then Quoted(args[0]) else Quoted(args[0]) + [SPACE] + Joined(args[1..])
  }

  function CommandLine(args: seq<Text>): Option<Text> {
    if forall a :: a in args ==> QuoteArgument(a).Some? then Some(Joined(args)) else None
  }

  // ---- The runtime's splitter ----

  predicate IsBlank(u: Unit) { u == SPACE || u == TAB }

  predicate AtEnd(t: Text) { t == [] || IsBlank(t[0]) }

  datatype Scan = Scan(value: Text, rest: Text)

  function Prepend(p: Text, s: Scan): Scan { s.(value := p + s.value) }

  /** One argument: 2n backslashes and a quote are n backslashes and a delimiter,
      2n + 1 are n backslashes and a literal quote; a doubled quote inside a
      quoted part is a literal quote; a blank outside quotes ends the argument. */
  function ScanArgument(s: Text, inQuotes: bool): (r: Scan)
    ensures |r.rest| <= |s|
    ensures s != [] && !(IsBlank(s[0]) && !inQuotes) ==> |r.rest| < |s|
    decreases |s|
  {
    var n := Leading(s);
    if n == |s| then Scan(s, [])
    else if s[n] == QUOTES then
      if n % 2 == 1 then Prepend(Backslashes(n / 2) + [QUOTES], ScanArgument(s[n + 1..], inQuotes))
      else if inQuotes && n + 1 < |s| && s[n + 1] == QUOTES
      then Prepend(Backslashes(n / 2) + [QUOTES], ScanArgument(s[n + 2..], inQuotes))
      else Prepend(Backslashes(n / 2), ScanArgument(s[n + 1..], !inQuotes))
    else if !inQuotes && IsBlank(s[n]) then Scan(s[..n], s[n..])
    else Prepend(s[..n + 1], ScanArgument(s[n + 1..], inQuotes))
  }

  function SplitArguments(s: Text): seq<Text>
    decreases |s|
  {
    if s == [] then []
    else if IsBlank(s[0]) then SplitArguments(s[1..])
    else
      var scan := ScanArgument(s, false);
      [scan.value] + SplitArguments(scan.rest)
  }

  /** The program name: quotes only toggle, and nothing escapes them. */
  function ScanProgram(s: Text, inQuotes: bool): Scan {
    if s == [] || (!inQuotes && IsBlank(s[0])) then Scan([], s)
    else if s[0] == QUOTES then ScanProgram(s[1..], !inQuotes)
    else Prepend([s[0]], ScanProgram(s[1..], inQuotes))
  }

  function SplitCommandLine(s: Text): seq<Text> {
    var program := ScanProgram(s, false);
    [program.value] + SplitArguments(program.rest)
  }

  // ---- Backslash runs ----

  lemma {:induction false} BackslashesAt(n: nat)
    ensures |Backslashes(n)| == n && forall k :: 0 <= k < n ==> Backslashes(n)[k] == BACKSLASH
  {
    if n > 0 { BackslashesAt(n - 1); }
  }

  lemma {:induction false} LeadingRun(n: nat, t: Text)
    requires t == [] || t[0] != BACKSLASH
    ensures Leading(Backslashes(n) + t) == n
  {
    var s := Backslashes(n) + t;
    if n > 0 {
      assert s[1..] == Backslashes(n - 1) + t;
      LeadingRun(n - 1, t);
    } else {
      assert s == t;
    }
  }

  /** The parts of a text that starts with a run and one more unit. */
  lemma RunThen(n: nat, u: Unit, rest: Text)
    requires u != BACKSLASH
    ensures var s := Backslashes(n) + [u] + rest;
            && Leading(s) == n && |s| == n + 1 + |rest| && s[n] == u
            && s[..n] == Backslashes(n) && s[n..] == [u] + rest && s[..n + 1] == Backslashes(n) + [u] && s[n + 1..] == rest
  {
    LeadingRun(n, [u] + rest);
    BackslashesAt(n);
    assert Backslashes(n) + [u] + rest == Backslashes(n) + ([u] + rest);
  }

  lemma {:induction false} TrailingRun(n: nat)
    ensures Trailing(Backslashes(n)) == n
  {
    BackslashesAt(n);
    if n > 0 {
      BackslashesAt(n - 1);
      assert Backslashes(n)[..n - 1] == Backslashes(n - 1);
      TrailingRun(n - 1);
    }
  }

  lemma {:induction false} TrailingOfSum(a: Text, b: Text)
    requires a != [] && a[|a| - 1] != BACKSLASH
    ensures Trailing(a + b) == Trailing(b)
    ensures DoubleTrailing(a + b) == a + DoubleTrailing(b)
    decreases |b|
  {
    if b == [] {
      assert a + b == a;
    } else if b[|b| - 1] == BACKSLASH {
      assert (a + b)[..|a + b| - 1] == a + b[..|b| - 1];
      TrailingOfSum(a, b[..|b| - 1]);
    }
    assert a + b + Backslashes(Trailing(b)) == a + (b + Backslashes(Trailing(b)));
  }

  /** Two runs in a row are one run. */
  lemma {:induction false} RunsAdd(n: nat, m: nat)
    ensures Backslashes(n) + Backslashes(m) == Backslashes(n + m)
  {
    if n > 0 {
      RunsAdd(n - 1, m);
      assert Backslashes(n) + Backslashes(m) == [BACKSLASH] + (Backslashes(n - 1) + Backslashes(m));
    } else {
      assert Backslashes(0) + Backslashes(m) == Backslashes(m);
    }
  }

  // ---- One step of the splitter ----

  lemma ScanEscaped(n: nat, rest: Text, inQuotes: bool)
    ensures ScanArgument(Backslashes(2 * n + 1) + [QUOTES] + rest, inQuotes)
         == Prepend(Backslashes(n) + [QUOTES], ScanArgument(rest, inQuotes))
  {
    RunThen(2 * n + 1, QUOTES, rest);
  }

  lemma ScanDelimiter(n: nat, rest: Text, inQuotes: bool)
    requires !inQuotes || rest == [] || rest[0] != QUOTES
    ensures ScanArgument(Backslashes(2 * n) + [QUOTES] + rest, inQuotes) == Prepend(Backslashes(n), ScanArgument(rest, !inQuotes))
  {
    hide Leading, Backslashes, Prepend;
    RunThen(2 * n, QUOTES, rest);
    var s := Backslashes(2 * n) + [QUOTES] + rest;
    assert 2 * n + 1 < |s| ==> s[2 * n + 1] == s[2 * n + 1..][0];
  }

  lemma ScanOther(n: nat, u: Unit, rest: Text, inQuotes: bool)
    requires u != BACKSLASH && u != QUOTES && (inQuotes || !IsBlank(u))
    ensures ScanArgument(Backslashes(n) + [u] + rest, inQuotes) == Prepend(Backslashes(n) + [u], ScanArgument(rest, inQuotes))
  {
    RunThen(n, u, rest);
  }

  lemma ScanEnd(n: nat, t: Text)
    requires AtEnd(t)
    ensures ScanArgument(Backslashes(n) + t, false) == Scan(Backslashes(n), t)
  {
    LeadingRun(n, t);
    BackslashesAt(n);
    if t == [] {
      assert Backslashes(n) + t == Backslashes(n);
    } else {
      RunThen(n, t[0], t[1..]);
      assert Backslashes(n) + [t[0]] + t[1..] == Backslashes(n) + t;
    }
  }

  // ---- Round trips ----

  lemma BodySplits(v: Text, n: nat)
    requires n == Leading(v) < |v|
    ensures DoubleTrailing(EscapeQuotes(v))
         == (if v[n] == QUOTES then Backslashes(2 * n + 1) + [QUOTES] else Backslashes(n) + [v[n]])
          + DoubleTrailing(EscapeQuotes(v[n + 1..]))
  {
    hide DoubleTrailing;
    var body := EscapeQuotes(v[n + 1..]);
    if v[n] == QUOTES {
      RunsAdd(2 * n, 1);
      assert Backslashes(1) == [BACKSLASH] + Backslashes(0) == [BACKSLASH];
      assert Backslashes(2 * n) + [BACKSLASH, QUOTES] == Backslashes(2 * n + 1) + [QUOTES];
      TrailingOfSum(Backslashes(2 * n + 1) + [QUOTES], body);
    } else {
      assert v[..n + 1] == Backslashes(n) + [v[n]];
      TrailingOfSum(Backslashes(n) + [v[n]], body);
    }
  }

  /** What is written between the quotes reads back as the argument, and the closing quote ends it. */
  lemma {:induction false} ScanQuotedBody(v: Text, t: Text)
    requires AtEnd(t)
    ensures ScanArgument(DoubleTrailing(EscapeQuotes(v)) + [QUOTES] + t, true) == Scan(v, t)
    decreases |v|
  {
    hide ScanArgument, EscapeQuotes, DoubleTrailing, AtEnd;
    var n := Leading(v);
    if n == |v| {
      ScanClosing(v, t);
    } else {
      var body := DoubleTrailing(EscapeQuotes(v[n + 1..]));
      var tail := body + [QUOTES] + t;
      ScanQuotedBody(v[n + 1..], t);
      BodySplits(v, n);
      assert v == Backslashes(n) + [v[n]] + v[n + 1..];
      if v[n] == QUOTES {
        ScanEscaped(n, tail, true);
        assert Backslashes(2 * n + 1) + [QUOTES] + body + [QUOTES] + t == Backslashes(2 * n + 1) + [QUOTES] + tail;
      } else {
        ScanOther(n, v[n], tail, true);
        assert Backslashes(n) + [v[n]] + body + [QUOTES] + t == Backslashes(n) + [v[n]] + tail;
      }
    }
  }

  lemma {:induction false} ScanClosing(v: Text, t: Text)
    requires AtEnd(t) && Leading(v) == |v|
    ensures ScanArgument(DoubleTrailing(EscapeQuotes(v)) + [QUOTES] + t, true) == Scan(v, t)
  {
    hide ScanArgument;
    var n := |v|;
    assert v == v[..n] == Backslashes(n);
    TrailingRun(n);
    RunsAdd(n, n);
    assert DoubleTrailing(EscapeQuotes(v)) == Backslashes(2 * n);
    ScanDelimiter(n, t, true);
    ScanNothing(t);
  }

  lemma ScanNothing(t: Text)
    requires AtEnd(t)
    ensures ScanArgument(t, false) == Scan([], t)
  {
    LeadingRun(0, t);
    assert Backslashes(0) + t == t;
  }

  lemma {:induction false} ScanPlain(v: Text, t: Text)
    requires AtEnd(t) && forall u :: u in v ==> !IsBlank(u) && u != QUOTES
    ensures ScanArgument(v + t, false) == Scan(v, t)
    decreases |v|
  {
    hide ScanArgument;
    var n := Leading(v);
    if n == |v| {
      assert v == v[..n];
      ScanEnd(n, t);
    } else {
      var rest := v[n + 1..];
      assert v[n] in v;
      ScanPlain(rest, t);
      assert v == Backslashes(n) + [v[n]] + rest;
      assert v + t == Backslashes(n) + [v[n]] + (rest + t);
      ScanOther(n, v[n], rest + t, false);
    }
  }

  /** One quoted argument, whatever follows it, reads back as itself. */
  lemma {:induction false} ScanUndoesQuoting(v: Text, t: Text)
    requires AtEnd(t)
    ensures ScanArgument(Quoted(v) + t, false) == Scan(v, t)
  {
    hide ScanArgument, EscapeQuotes, DoubleTrailing;
    if NeedsQuotes(v) {
      var tail := DoubleTrailing(EscapeQuotes(v)) + [QUOTES] + t;
      assert Quoted(v) + t == Backslashes(0) + [QUOTES] + tail;
      ScanQuotedBody(v, t);
      ScanDelimiter(0, tail, false);
      assert Backslashes(0) + v == v;
    } else {
      ScanPlain(v, t);
    }
  }

  lemma QuotedStarts(v: Text)
    ensures Quoted(v) != [] && !IsBlank(Quoted(v)[0])
  {
    if !NeedsQuotes(v) { assert v[0] in v; }
  }

  /** Splitting the joined line gives back the arguments: every list, empty strings,
      quotes, blanks and trailing backslashes included. */
  lemma {:induction false} SplitUndoesJoin(args: seq<Text>)
    ensures SplitArguments(Joined(args)) == args
  {
    hide Quoted, ScanArgument;
    if args != [] {
      var tail := if |args| == 1 then [] else [SPACE] + Joined(args[1..]);
      assert Joined(args) == Quoted(args[0]) + tail;
      QuotedStarts(args[0]);
      ScanUndoesQuoting(args[0], tail);
      SplitUndoesJoin(args[1..]);
      if |args| > 1 { assert tail[1..] == Joined(args[1..]); }
      assert args == [args[0]] + args[1..];
    }
  }

  lemma {:induction false} EscapingOnlyAdds(v: Text)
    ensures |EscapeQuotes(v)| >= |v|
    decreases |v|
  {
    var n := Leading(v);
    if n < |v| {
      EscapingOnlyAdds(v[n + 1..]);
      RunLength(2 * n);
    }
  }

  lemma {:induction false} RunLength(n: nat)
    ensures |Backslashes(n)| == n
  {
    if n > 0 { RunLength(n - 1); }
  }

  /** An argument is refused exactly when it is too long or holds NUL, CR or LF; it is passed
      on as it is exactly when it is not empty and holds no quote and no white space, and
      otherwise put in quotes. */
  lemma QuotedExactly(v: Text)
    ensures QuoteArgument(v).None? <==> |v| > 4_096 || exists u :: u in v && (u == 0 || u == 10 || u == 13)
    ensures QuoteArgument(v).Some? ==>
              (QuoteArgument(v) == Some(v) <==>
                v != [] && forall u :: u in v ==>
                  && u != QUOTES && u != SPACE && !(9 <= u <= 13) && u != 0xA0 && u != 0x1680 && !(0x2000 <= u <= 0x200A)
                  && u != 0x2028 && u != 0x2029 && u != 0x202F && u != 0x205F && u != 0x3000 && u != 0xFEFF)
    ensures QuoteArgument(v).Some? && QuoteArgument(v) != Some(v) ==>
              var t := QuoteArgument(v).value; |t| >= |v| + 2 && t[0] == QUOTES && t[|t| - 1] == QUOTES
  {
    EscapingOnlyAdds(v);
    if NeedsQuotes(v) { assert |Quoted(v)| >= |v| + 2; }
  }

  /** The quoter refuses a list exactly when one argument is too long or holds a
      NUL, CR or LF; a line it makes splits into the same list. */
  lemma CommandLineRoundTrip(args: seq<Text>)
    ensures CommandLine(args).None? <==> exists a :: a in args && !ValidArgument(a)
    ensures CommandLine(args).Some? ==> SplitArguments(CommandLine(args).value) == args
  {
    SplitUndoesJoin(args);
  }

  // ---- The program name ----

  /** The program names that the argument quoting rule happens to keep. */
  predicate ProgramKept(p: Text) {
    QUOTES !in p && !(NeedsQuotes(p) && p != [] && p[|p| - 1] == BACKSLASH)
  }

  lemma {:induction false} ProgramDropsQuotes(s: Text, inQuotes: bool)
    ensures QUOTES !in ScanProgram(s, inQuotes).value
  {
    if s != [] && !(!inQuotes && IsBlank(s[0])) {
      ProgramDropsQuotes(s[1..], if s[0] == QUOTES then !inQuotes else inQuotes);
    }
  }

  lemma {:induction false} ProgramCopies(v: Text, t: Text, inQuotes: bool)
    requires QUOTES !in v && (inQuotes || forall u :: u in v ==> !IsBlank(u))
    ensures ScanProgram(v + t, inQuotes) == Prepend(v, ScanProgram(t, inQuotes))
    decreases |v|
  {
    if v == [] {
      assert v + t == t;
    } else {
      assert v[0] in v;
      assert (v + t)[1..] == v[1..] + t;
      ProgramCopies(v[1..], t, inQuotes);
      assert v == [v[0]] + v[1..];
    }
  }

  lemma {:induction false} NothingToEscape(v: Text)
    requires QUOTES !in v
    ensures EscapeQuotes(v) == v
    decreases |v|
  {
    var n := Leading(v);
    if n < |v| {
      NothingToEscape(v[n + 1..]);
      assert v == v[..n + 1] + v[n + 1..];
    }
  }

  lemma ProgramQuotes(t: Text, inQuotes: bool)
    ensures ScanProgram([QUOTES] + t, inQuotes) == ScanProgram(t, !inQuotes)
  {
    assert ([QUOTES] + t)[1..] == t;
  }

  lemma ProgramEnds(t: Text)
    requires AtEnd(t)
    ensures ScanProgram(t, false) == Scan([], t)
  {}

  /** What the runtime takes for the program name. */
  lemma {:induction false} ProgramRead(p: Text, t: Text)
    requires AtEnd(t) && QUOTES !in p
    ensures ScanProgram(Quoted(p) + t, false) == Scan(if NeedsQuotes(p) then DoubleTrailing(p) else p, t)
  {
    hide ScanProgram, EscapeQuotes, Trailing, Backslashes;
    if NeedsQuotes(p) {
      NothingToEscape(p);
      var body := DoubleTrailing(p);
      BackslashesAt(Trailing(p));
      assert Quoted(p) + t == [QUOTES] + (body + ([QUOTES] + t));
      ProgramCopies(body, [QUOTES] + t, true);
      ProgramQuotes(body + ([QUOTES] + t), false);
      ProgramQuotes(t, true);
    } else {
      ProgramCopies(p, t, false);
    }
    ProgramEnds(t);
  }

  lemma SplitTail(args: seq<Text>)
    ensures SplitArguments(if args == [] then [] else [SPACE] + Joined(args)) == args
  {
    SplitUndoesJoin(args);
    assert ([SPACE] + Joined(args))[1..] == Joined(args);
  }

  /** The program name follows other rules, so a whole command line survives exactly
      when its program name holds no quote and does not both need quotes and end
      with a backslash. */
  lemma {:induction false} ProgramRoundTrip(p: Text, args: seq<Text>)
    ensures SplitCommandLine(Joined([p] + args)) == [p] + args <==> ProgramKept(p)
  {
    hide SplitArguments, ScanProgram, Quoted, NeedsQuotes;
    var tail := if args == [] then [] else [SPACE] + Joined(args);
    assert ([p] + args)[1..] == args;
    assert Joined([p] + args) == Quoted(p) + tail;
    if QUOTES in p {
      ProgramDropsQuotes(Quoted(p) + tail, false);
      assert SplitCommandLine(Joined([p] + args))[0] != p;
    } else {
      ProgramRead(p, tail);
      SplitTail(args);
      BackslashesAt(Trailing(p));
      if NeedsQuotes(p) && Trailing(p) > 0 {
        assert |DoubleTrailing(p)| > |p|;
        assert SplitCommandLine(Joined([p] + args))[0] != p;
      } else if NeedsQuotes(p) {
        assert Backslashes(Trailing(p)) == [];
        assert DoubleTrailing(p) == p;
      }
    }
  }
}
