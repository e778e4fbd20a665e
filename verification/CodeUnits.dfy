/** Text as JavaScript sees it: a sequence of UTF-16 code units, paired or not,
    compared unit by unit. */
module CodeUnits {
  type Unit = u: int | 0 <= u < 0x10000
  type Text = seq<Unit>

  /** A text of ASCII characters. */
  function Ascii(s: string): (t: Text)
    requires forall i :: 0 <= i < |s| ==> s[i] < 128 as char
    ensures |t| == |s|
  {
    seq(|s|, i requires 0 <= i < |s| => s[i] as int)
  }

  predicate EndsWith(t: Text, suffix: Text) {
    |suffix| <= |t| && t[|t| - |suffix|..] == suffix
  }

  /** The default sort order of JavaScript strings. */
  predicate Below(a: Text, b: Text) {
    b != [] && (a == [] || a[0] < b[0] || (a[0] == b[0] && Below(a[1..], b[1..])))
  }

  /** One text comes before another exactly when it is a proper beginning of it, or its unit
      at the first place where they differ is the smaller one. */
  lemma {:induction false} BelowExactly(a: Text, b: Text)
    ensures Below(a, b) <==>
              || (|a| < |b| && b[..|a|] == a)
              || exists i: nat :: i < |a| && i < |b| && a[..i] == b[..i] && a[i] < b[i]
  {
    if a != [] && b != [] {
      BelowExactly(a[1..], b[1..]);
      if a[0] == b[0] {
        var x, y := a[1..], b[1..];
        assert a == [a[0]] + x && b == [b[0]] + y;
        if |a| < |b| && y[..|x|] == x { assert b[..|a|] == [b[0]] + y[..|x|]; }
        if |a| < |b| && b[..|a|] == a { assert y[..|x|] == b[..|a|][1..]; }
        forall i: nat ensures i < |x| && i < |y| && x[..i] == y[..i] && x[i] < y[i] ==> a[..i + 1] == b[..i + 1] && a[i + 1] < b[i + 1] {
          if i < |x| && i < |y| { assert a[..i + 1] == [a[0]] + x[..i] && b[..i + 1] == [b[0]] + y[..i]; }
        }
        forall i: nat ensures i < |a| && i < |b| && a[..i] == b[..i] && a[i] < b[i] ==> i > 0 && x[..i - 1] == y[..i - 1] && x[i - 1] < y[i - 1] {
          if 0 < i < |a| && i < |b| { assert x[..i - 1] == a[..i][1..] && y[..i - 1] == b[..i][1..]; }
        }
      } else {
        assert a[..0] == b[..0];
        assert forall i: nat :: 0 < i < |a| && i < |b| ==> a[..i][0] == a[0] && b[..i][0] == b[0];
        if |a| <= |b| { assert b[..|a|][0] == b[0]; }
      }
    }
  }

  predicate StrictlySorted(s: seq<Text>) {
    forall i, j :: 0 <= i < j < |s| ==> Below(s[i], s[j])
  }

  lemma {:induction false} BelowIsTotal(a: Text, b: Text)
    ensures Below(a, b) || a == b || Below(b, a)
    ensures !(Below(a, b) && Below(b, a))
    ensures !Below(a, a)
  {
    if a != [] && b != [] && a[0] == b[0] {
      BelowIsTotal(a[1..], b[1..]);
      assert a == [a[0]] + a[1..] && b == [b[0]] + b[1..];
    }
    if a != [] { BelowIsTotal(a[1..], a[1..]); }
  }

  lemma {:induction false} BelowIsTransitive(a: Text, b: Text, c: Text)
    requires Below(a, b) && Below(b, c)
    ensures Below(a, c)
  {
    if a != [] && a[0] == b[0] == c[0] { BelowIsTransitive(a[1..], b[1..], c[1..]); }
  }

  /** One strictly sorted sequence per set of texts. */
  lemma {:induction false} SortedIsUnique(s: seq<Text>, t: seq<Text>)
    requires StrictlySorted(s) && StrictlySorted(t)
    requires forall x :: x in s <==> x in t
    ensures s == t
  {
    assert s != [] ==> s[0] in s;
    assert t != [] ==> t[0] in t;
    if s != [] {
      assert s[0] in t && t[0] in s;
      BelowIsTotal(s[0], t[0]);
      assert s[0] == t[0];
      forall x ensures x in s[1..] <==> x in t[1..] {
        BelowIsTotal(s[0], s[0]);
        if x in s[1..] { assert x in t && x != s[0]; }
        if x in t[1..] { assert x in s && x != s[0]; }
      }
      SortedIsUnique(s[1..], t[1..]);
      assert s == [s[0]] + s[1..] && t == [t[0]] + t[1..];
    }
  }

  function Insert(x: Text, sorted: seq<Text>): (r: seq<Text>)
    ensures forall y :: y in r <==> y == x || y in sorted
  {
    if sorted == [] || !Below(sorted[0], x) then [x] + sorted
    else
      assert sorted == [sorted[0]] + sorted[1..];
      [sorted[0]] + Insert(x, sorted[1..])
  }

  /** The result of JavaScript's `sort` without a comparator. */
  function Sorted(s: seq<Text>): (r: seq<Text>)
    ensures forall y :: y in r <==> y in s
  {
    if s == [] then []
    else
      assert s == [s[0]] + s[1..];
      Insert(s[0], Sorted(s[1..]))
  }

  ghost predicate NoRepeats(s: seq<Text>) {
    forall i, j :: 0 <= i < j < |s| ==> s[i] != s[j]
  }

  lemma {:induction false} InsertSorts(x: Text, sorted: seq<Text>)
    requires StrictlySorted(sorted) && x !in sorted
    ensures StrictlySorted(Insert(x, sorted)) && |Insert(x, sorted)| == |sorted| + 1
  {
    if sorted != [] {
      BelowIsTotal(sorted[0], x);
      var rest := sorted[1..];
      if Below(sorted[0], x) {
        InsertSorts(x, rest);
        forall y | y in Insert(x, rest) ensures Below(sorted[0], y) {
          if y != x { var i :| 0 <= i < |rest| && rest[i] == y; assert sorted[i + 1] == y; }
        }
      } else {
        forall k | 0 <= k < |sorted| ensures Below(x, sorted[k]) {
          if k > 0 { BelowIsTransitive(x, sorted[0], sorted[k]); }
        }
      }
    }
  }

  lemma {:induction false} SortedSorts(s: seq<Text>)
    requires NoRepeats(s)
    ensures StrictlySorted(Sorted(s)) && |Sorted(s)| == |s|
  {
    if s != [] {
      SortedSorts(s[1..]);
      assert s[0] !in s[1..];
      InsertSorts(s[0], Sorted(s[1..]));
    }
  }

  /** Sorting forgets the order it was given. */
  lemma SortedIsDetermined(s: seq<Text>, t: seq<Text>)
    requires NoRepeats(s) && NoRepeats(t) && forall x :: x in s <==> x in t
    ensures Sorted(s) == Sorted(t)
  {
    SortedSorts(s);
    SortedSorts(t);
    SortedIsUnique(Sorted(s), Sorted(t));
  }
}
