/** What a power loss may leave of a directory of whole files.

    Each operation replaces or creates one file. Until the directory is synced, a
    power loss may keep any subset of the operations, in order. Seen file by file:
    each file is left, independently of the others, as it is now or as it was
    before one of its unsynced operations. */
module UnsyncedFiles {
  import opened Outcomes

  /** For each file with unsynced operations, what it was before each of them; `None` is its absence. */
  type Unsynced<K, V(==)> = map<K, set<Option<V>>>

  function VersionOf<K, V>(files: map<K, V>, k: K): Option<V> {
    if k in files then Some(files[k]) else None
  }

  /** One more unsynced operation on file `k`. */
  ghost function Overwritten<K, V>(files: map<K, V>, unsynced: Unsynced<K, V>, k: K): Unsynced<K, V> {
    unsynced[k := (if k in unsynced then unsynced[k] else {}) + {VersionOf(files, k)}]
  }

  /** A version of file `k` that a power loss may leave. */
  ghost predicate MayBe<K, V>(files: map<K, V>, unsynced: Unsynced<K, V>, k: K, v: Option<V>) {
    v == VersionOf(files, k) || (k in unsynced && v in unsynced[k])
  }

  ghost predicate MayLeave<K(!new), V>(files: map<K, V>, unsynced: Unsynced<K, V>, left: map<K, V>) {
    forall k :: MayBe(files, unsynced, k, VersionOf(left, k))
  }

  // ---- The view file by file is exact ----

  datatype FileWrite<K, V> = FileWrite(file: K, content: V)

  ghost function Files<K, V>(base: map<K, V>, writes: seq<FileWrite<K, V>>): map<K, V>
    decreases |writes|
  {
    if writes == [] then base
    else
      var last := writes[|writes| - 1];
      Files(base, writes[..|writes| - 1])[last.file := last.content]
  }

  ghost function Pending<K, V>(base: map<K, V>, writes: seq<FileWrite<K, V>>): Unsynced<K, V>
    decreases |writes|
  {
    if writes == [] then map[]
    else
      var before := writes[..|writes| - 1];
      Overwritten(Files(base, before), Pending(base, before), writes[|writes| - 1].file)
  }

  /** Some subset of the writes, performed in order, leaves exactly these files. */
  ghost predicate SubsetLeaves<K(!new), V(!new)>(base: map<K, V>, writes: seq<FileWrite<K, V>>, left: map<K, V>)
    decreases |writes|
  {
    if writes == [] then left == base
    else
      var before, last := writes[..|writes| - 1], writes[|writes| - 1];
      SubsetLeaves(base, before, left) || exists w :: SubsetLeaves(base, before, w) && left == w[last.file := last.content]
  }

  /** Keeping any subset of the unsynced writes, in order, is the same as leaving
      each file at any one of its versions. */
  lemma {:induction false} AnySubsetIsFileByFile<K(!new), V(!new)>(base: map<K, V>, writes: seq<FileWrite<K, V>>, left: map<K, V>)
    ensures SubsetLeaves(base, writes, left) <==> MayLeave(Files(base, writes), Pending(base, writes), left)
    decreases |writes|
  {
    if writes == [] {
      if MayLeave(base, map[], left) { SameVersions(base, left); }
    } else {
      var before, last := writes[..|writes| - 1], writes[|writes| - 1];
      var files, pending := Files(base, before), Pending(base, before);
      forall w ensures SubsetLeaves(base, before, w) <==> MayLeave(files, pending, w) { AnySubsetIsFileByFile(base, before, w); }
      OneMoreWrite(files, pending, left, last);
    }
  }

  /** One more unsynced write: undone, or on top of anything that could be left before it. */
  lemma OneMoreWrite<K(!new), V(!new)>(files: map<K, V>, pending: Unsynced<K, V>, left: map<K, V>, last: FileWrite<K, V>)
    ensures MayLeave(files[last.file := last.content], Overwritten(files, pending, last.file), left)
       <==> MayLeave(files, pending, left) || exists w :: MayLeave(files, pending, w) && left == w[last.file := last.content]
  {
    var now, nowPending := files[last.file := last.content], Overwritten(files, pending, last.file);
    if MayLeave(now, nowPending, left) && !MayLeave(files, pending, left) {
      var k :| !MayBe(files, pending, k, VersionOf(left, k));
      assert MayBe(now, nowPending, k, VersionOf(left, k));
      assert k == last.file && VersionOf(left, k) == Some(last.content);
      var w := Undone(files, left, last.file);
      forall q ensures MayBe(files, pending, q, VersionOf(w, q)) { assert MayBe(now, nowPending, q, VersionOf(left, q)); }
      assert left == w[last.file := last.content] && MayLeave(files, pending, w);
    }
    if MayLeave(files, pending, left) {
      forall q ensures MayBe(now, nowPending, q, VersionOf(left, q)) { assert MayBe(files, pending, q, VersionOf(left, q)); }
    }
    if exists w :: MayLeave(files, pending, w) && left == w[last.file := last.content] {
      var w :| MayLeave(files, pending, w) && left == w[last.file := last.content];
      forall q ensures MayBe(now, nowPending, q, VersionOf(left, q)) { assert MayBe(files, pending, q, VersionOf(w, q)); }
      assert MayLeave(now, nowPending, left);
    }
  }

  /** `left` with file `k` as it was before the last write. */
  ghost function Undone<K, V>(files: map<K, V>, left: map<K, V>, k: K): map<K, V> {
    if k in files then left[k := files[k]] else left - {k}
  }

  lemma SameVersions<K(!new), V>(files: map<K, V>, left: map<K, V>)
    requires forall k :: MayBe(files, map[], k, VersionOf(left, k))
    ensures left == files
  {
    forall k ensures (k in left <==> k in files) && (k in left ==> left[k] == files[k]) {
      assert MayBe(files, map[], k, VersionOf(left, k));
    }
  }
}
