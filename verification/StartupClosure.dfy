/** The renderer's startup budget: which emitted chunks load before the workbench
    is interactive, and what they weigh. Sizes stand for the byte length of a
    file and of its gzip stream. */
module StartupClosures {
  import opened CodeUnits
  import opened Outcomes

  datatype Output =
    | Chunk(fileName: Text, facade: Option<Text>, isEntry: bool, imports: seq<Text>, rawBytes: nat, gzipBytes: nat)
    | Asset(fileName: Text, rawBytes: nat, gzipBytes: nat)

  type Files = m: map<Text, Output> | forall n :: n in m ==> m[n].Chunk? && m[n].fileName == n

  datatype Failure = NoNativeEntry | MissingChunk(fileName: Text) | OverBudget(gzipBytes: nat)

  datatype Closure = Closure(chunks: seq<Output>, assets: seq<Output>)

  datatype Report = Report(budgetBytes: nat, gzipBytes: nat, rawBytes: nat, chunks: seq<Output>, assets: seq<Output>)

  const ENTRY_SUFFIX := Ascii("/src/renderer/index.html")
  const APP_SUFFIX := Ascii("/src/renderer/src/App.tsx")
  const CSS_SUFFIX := Ascii(".css")
  const INDEX_HTML := Ascii("index.html")

  // ---- Looking outputs up ----

  function WithForwardSlashes(t: Text): Text {
    seq(|t|, i requires 0 <= i < |t| => if t[i] == 0x5C then 0x2F else t[i])
  }

  predicate SourceEndsWith(o: Output, suffix: Text) {
    o.Chunk? && o.facade.Some? && EndsWith(WithForwardSlashes(o.facade.value), suffix)
  }

  predicate IsEntry(o: Output) { o.Chunk? && o.isEntry && SourceEndsWith(o, ENTRY_SUFFIX) }

  predicate IsApp(o: Output) { SourceEndsWith(o, APP_SUFFIX) }

  function FirstEntry(bundle: seq<Output>): Option<Output> {
    if bundle == [] then None else if IsEntry(bundle[0]) then Some(bundle[0]) else FirstEntry(bundle[1..])
  }

  function FirstApp(bundle: seq<Output>): Option<Output> {
    if bundle == [] then None else if IsApp(bundle[0]) then Some(bundle[0]) else FirstApp(bundle[1..])
  }

  /** The chunks by file name; of two with one name the later counts. */
  function ByFile(bundle: seq<Output>): Files {
    if bundle == [] then map[]
    else
      var last := bundle[|bundle| - 1];
      var before := ByFile(bundle[..|bundle| - 1]);
      if last.Chunk? then before[last.fileName := last] else before
  }

  function StyleAssets(bundle: seq<Output>): seq<Output> {
    if bundle == [] then []
    else if bundle[0].Asset? && (EndsWith(bundle[0].fileName, CSS_SUFFIX) || bundle[0].fileName == INDEX_HTML)
    then [bundle[0]] + StyleAssets(bundle[1..])
    else StyleAssets(bundle[1..])
  }

  function Names(outputs: seq<Output>): seq<Text> {
    seq(|outputs|, i requires 0 <= i < |outputs| => outputs[i].fileName)
  }

  function GzipTotal(outputs: seq<Output>): nat {
    if outputs == [] then 0 else outputs[0].gzipBytes + GzipTotal(outputs[1..])
  }

  function RawTotal(outputs: seq<Output>): nat {
    if outputs == [] then 0 else outputs[0].rawBytes + RawTotal(outputs[1..])
  }

  // ---- Reachability ----

  /** A chain of static imports from a root; every file but the last must exist to import the next. */
  ghost predicate ImportPath(files: Files, roots: seq<Text>, p: seq<Text>) {
    && p != [] && p[0] in roots
    && forall i :: 0 <= i < |p| - 1 ==> p[i] != [] && p[i] in files && p[i + 1] in files[p[i]].imports
  }

  ghost predicate Reachable(files: Files, roots: seq<Text>, name: Text) {
    exists p :: ImportPath(files, roots, p) && p[|p| - 1] == name
  }

  lemma RootReachable(files: Files, roots: seq<Text>, name: Text)
    requires name in roots
    ensures Reachable(files, roots, name)
  {
    assert ImportPath(files, roots, [name]);
  }

  lemma ImportReachable(files: Files, roots: seq<Text>, name: Text, imported: Text)
    requires Reachable(files, roots, name) && name != [] && name in files && imported in files[name].imports
    ensures Reachable(files, roots, imported)
  {
    var p :| ImportPath(files, roots, p) && p[|p| - 1] == name;
    assert ImportPath(files, roots, p + [imported]);
  }

  /** A set of names that holds the roots and, with every chunk, its imports; empty names are ignored. */
  ghost predicate Closed(files: Files, roots: seq<Text>, names: set<Text>) {
    && (forall n :: n in roots ==> n == [] || n in names)
    && (forall n, m :: n in names && n in files && m in files[n].imports ==> m == [] || m in names)
  }

  /** What is reachable is the least closed set. */
  lemma {:induction false} ClosedHoldsReachable(files: Files, roots: seq<Text>, names: set<Text>, p: seq<Text>)
    requires Closed(files, roots, names) && ImportPath(files, roots, p)
    ensures p[|p| - 1] == [] || p[|p| - 1] in names
    decreases |p|
  {
    if |p| > 1 {
      var q := p[..|p| - 1];
      ClosedHoldsReachable(files, roots, names, q);
      assert p[|p| - 2] in files && p[|p| - 2 + 1] in files[p[|p| - 2]].imports;
    }
  }

  // ---- The worklist ----

  /** Every name on the stack or included is reachable, and the imports of what is included are accounted for. */
  ghost predicate Working(files: Files, roots: seq<Text>, pending: seq<Text>, included: set<Text>) {
    && (forall n :: n in included ==> n != [] && n in files && Reachable(files, roots, n))
    && (forall n :: n in pending ==> Reachable(files, roots, n))
    && (forall n :: n in roots ==> n == [] || n in included || n in pending)
    && (forall n, m :: n in included && m in files[n].imports ==> m == [] || m in included || m in pending)
  }

  lemma PoppedKnown(files: Files, roots: seq<Text>, pending: seq<Text>, included: set<Text>)
    requires Working(files, roots, pending, included) && pending != []
    requires pending[|pending| - 1] == [] || pending[|pending| - 1] in included
    ensures Working(files, roots, pending[..|pending| - 1], included)
  {
    assert pending == pending[..|pending| - 1] + [pending[|pending| - 1]];
  }

  lemma PoppedNew(files: Files, roots: seq<Text>, pending: seq<Text>, included: set<Text>)
    requires Working(files, roots, pending, included) && pending != []
    requires pending[|pending| - 1] != [] && pending[|pending| - 1] in files
    ensures var name := pending[|pending| - 1];
            Working(files, roots, pending[..|pending| - 1] + files[name].imports, included + {name})
  {
    var name := pending[|pending| - 1];
    var rest := pending[..|pending| - 1];
    assert pending == rest + [name] && name in pending;
    forall m | m in files[name].imports ensures Reachable(files, roots, m) { ImportReachable(files, roots, name, m); }
    hide Reachable;
    var next, now := rest + files[name].imports, included + {name};
    forall n | n in roots ensures n == [] || n in now || n in next {
      if n in pending && n != name { assert n in rest; }
    }
    forall n, m | n in now && m in files[n].imports ensures m == [] || m in now || m in next {
      if n != name && m in pending && m != name { assert m in rest; }
    }
  }

  /** Follows static imports from the roots. It stops for every graph, cyclic or
      not, with exactly the reachable chunks, or names a reachable chunk that is missing. */
  method FollowImports(files: Files, roots: seq<Text>) returns (r: Result<set<Text>, Text>)
    ensures r.Ok? ==> forall n :: n in r.value <==> n != [] && Reachable(files, roots, n)
    ensures r.Ok? ==> r.value <= files.Keys
    ensures r.Err? ==> r.error != [] && r.error !in files && Reachable(files, roots, r.error)
  {
    var pending, included := roots, {};
    forall n | n in roots ensures Reachable(files, roots, n) { RootReachable(files, roots, n); }
    while pending != []
      invariant Working(files, roots, pending, included)
      decreases files.Keys - included, |pending|
    {
      var name := pending[|pending| - 1];
      assert name in pending;
      if name == [] || name in included {
        PoppedKnown(files, roots, pending, included);
        pending := pending[..|pending| - 1];
      } else {
        if name !in files { return Err(name); }
        PoppedNew(files, roots, pending, included);
        pending, included := pending[..|pending| - 1] + files[name].imports, included + {name};
      }
    }
    assert Closed(files, roots, included);
    forall n | n != [] && Reachable(files, roots, n) ensures n in included {
      var p :| ImportPath(files, roots, p) && p[|p| - 1] == n;
      ClosedHoldsReachable(files, roots, included, p);
    }
    r := Ok(included);
  }

  /** The chunks of the closure: one per reachable name, in name order. */
  ghost predicate IsClosure(files: Files, roots: seq<Text>, chunks: seq<Output>) {
    && StrictlySorted(Names(chunks))
    && (forall n :: n in Names(chunks) <==> n != [] && Reachable(files, roots, n))
    && (forall i :: 0 <= i < |chunks| ==> chunks[i].fileName in files && chunks[i] == files[chunks[i].fileName])
  }

  /** The names of a set, sorted. */
  method SortedNames(names: set<Text>) returns (s: seq<Text>)
    ensures StrictlySorted(s) && forall n :: n in s <==> n in names
  {
    var list, left := [], names;
    while left != {}
      invariant NoRepeats(list) && left <= names
      invariant forall n :: n in list <==> n in names && n !in left
      decreases left
    {
      var n :| n in left;
      list, left := list + [n], left - {n};
    }
    SortedSorts(list);
    s := Sorted(list);
  }

  /** The closure of a bundle, or exactly the reason there is none. */
  ghost predicate Answers(bundle: seq<Output>, r: Result<Closure, Failure>) {
    if FirstEntry(bundle).None? || FirstApp(bundle).None? then r == Err(NoNativeEntry)
    else
      var files := ByFile(bundle);
      var roots := [FirstEntry(bundle).value.fileName, FirstApp(bundle).value.fileName];
      match r
      case Ok(closure) =>
        && IsClosure(files, roots, closure.chunks) && closure.assets == StyleAssets(bundle)
        && forall n :: n != [] && Reachable(files, roots, n) ==> n in files
      case Err(error) =>
        error.MissingChunk? && error.fileName != [] && error.fileName !in files && Reachable(files, roots, error.fileName)
  }

  method StartupClosure(bundle: seq<Output>) returns (r: Result<Closure, Failure>)
    ensures Answers(bundle, r)
  {
    hide Reachable;
    var entry, app := FirstEntry(bundle), FirstApp(bundle);
    if entry.None? || app.None? { return Err(NoNativeEntry); }
    var files := ByFile(bundle);
    var included := FollowImports(files, [entry.value.fileName, app.value.fileName]);
    if included.Err? { return Err(MissingChunk(included.error)); }
    var names := SortedNames(included.value);
    assert forall i :: 0 <= i < |names| ==> names[i] in names;
    var chunks := seq(|names|, i requires 0 <= i < |names| => files[names[i]]);
    assert Names(chunks) == names;
    r := Ok(Closure(chunks, StyleAssets(bundle)));
  }

  /** The report weighs the closure and the eager styles, and is refused when it exceeds the budget. */
  method BudgetReport(bundle: seq<Output>, budgetBytes: nat) returns (r: Result<Report, Failure>)
    ensures match r
            case Ok(report) =>
              && Answers(bundle, Ok(Closure(report.chunks, report.assets)))
              && report.gzipBytes == GzipTotal(report.chunks + report.assets) <= budgetBytes
              && report.rawBytes == RawTotal(report.chunks + report.assets)
            case Err(error) =>
              if error.OverBudget? then
                error.gzipBytes > budgetBytes &&
                exists c :: Answers(bundle, Ok(c)) && error.gzipBytes == GzipTotal(c.chunks + c.assets)
              else Answers(bundle, Err(error))
  {
    hide Answers, GzipTotal, RawTotal;
    var closure := StartupClosure(bundle);
    if closure.Err? { MissingIsNotWeight(bundle, closure.error); return Err(closure.error); }
    var outputs := closure.value.chunks + closure.value.assets;
    var report := Report(budgetBytes, GzipTotal(outputs), RawTotal(outputs), closure.value.chunks, closure.value.assets);
    if report.gzipBytes > budgetBytes {
      assert Answers(bundle, Ok(closure.value));
      return Err(OverBudget(report.gzipBytes));
    }
    r := Ok(report);
  }

  lemma MissingIsNotWeight(bundle: seq<Output>, error: Failure)
    requires Answers(bundle, Err(error))
    ensures !error.OverBudget?
  {}

  // ---- What the report depends on ----

  /** Two emitted bundles agree on everything reachable. */
  ghost predicate AgreeOnReachable(a: Files, b: Files, roots: seq<Text>) {
    forall n :: n != [] && Reachable(a, roots, n) ==> n in a && n in b && a[n] == b[n]
  }

  lemma LastEdgeAgrees(a: Files, b: Files, roots: seq<Text>, q: seq<Text>, n: Text)
    requires AgreeOnReachable(a, b, roots) && ImportPath(a, roots, q) && q[|q| - 1] == n && n != []
    ensures n in a && n in b && a[n] == b[n]
  {
    assert Reachable(a, roots, n);
  }

  lemma {:induction false} SamePaths(a: Files, b: Files, roots: seq<Text>, p: seq<Text>)
    requires AgreeOnReachable(a, b, roots)
    ensures ImportPath(a, roots, p) <==> ImportPath(b, roots, p)
    decreases |p|
  {
    hide AgreeOnReachable;
    if |p| > 1 {
      var q := p[..|p| - 1];
      var n := p[|p| - 2];
      SamePaths(a, b, roots, q);
      if ImportPath(a, roots, q) && n != [] { LastEdgeAgrees(a, b, roots, q, n); }
      PathEnds(a, roots, p);
      PathEnds(b, roots, p);
    }
  }

  lemma PathEnds(files: Files, roots: seq<Text>, p: seq<Text>)
    requires |p| > 1
    ensures ImportPath(files, roots, p) <==>
              && ImportPath(files, roots, p[..|p| - 1]) && p[|p| - 2] != [] && p[|p| - 2] in files
              && p[|p| - 1] in files[p[|p| - 2]].imports
  {
    var q := p[..|p| - 1];
    if ImportPath(files, roots, p) { assert p[|p| - 2 + 1] == p[|p| - 1]; }
    if ImportPath(files, roots, q) && p[|p| - 2] != [] && p[|p| - 2] in files && p[|p| - 1] in files[p[|p| - 2]].imports {
      forall i | 0 <= i < |p| - 1 ensures p[i] != [] && p[i] in files && p[i + 1] in files[p[i]].imports {
        if i < |p| - 2 { assert q[i] == p[i] && q[i + 1] == p[i + 1]; }
      }
    }
  }

  /** Chunks loaded later are free: the closure is determined by the roots and the
      reachable chunks alone, whatever else the bundle holds and in any order. */
  lemma ClosureIgnoresTheRest(a: Files, b: Files, roots: seq<Text>, inA: seq<Output>, inB: seq<Output>)
    requires AgreeOnReachable(a, b, roots) && IsClosure(a, roots, inA) && IsClosure(b, roots, inB)
    ensures inA == inB
  {
    forall n ensures Reachable(a, roots, n) <==> Reachable(b, roots, n) {
      if Reachable(a, roots, n) {
        var p :| ImportPath(a, roots, p) && p[|p| - 1] == n;
        SamePaths(a, b, roots, p);
      }
      if Reachable(b, roots, n) {
        var p :| ImportPath(b, roots, p) && p[|p| - 1] == n;
        SamePaths(a, b, roots, p);
      }
    }
    SortedIsUnique(Names(inA), Names(inB));
    assert |inA| == |Names(inA)| == |inB|;
    forall i | 0 <= i < |inA| ensures inA[i] == inB[i] {
      assert Names(inA)[i] == Names(inB)[i] && Names(inA)[i] in Names(inA);
    }
  }
}
