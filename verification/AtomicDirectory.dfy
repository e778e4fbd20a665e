/** Crash-safe publication, replacement, deletion and recovery of record files in
    one directory.

    The file system model: names point at inodes; a name operation is atomic and
    visible at once, but until the directory is synced a power loss may keep any
    subset of the unsynced operations, in order. File contents survive a power
    loss only once flushed. The process may die before any primitive call. */
module AtomicDirectories {
  type Key = string
  type Body = string
  type Ino = nat

  /** A record file, a private sibling being written, or a record set aside for deletion. */
  datatype Name = Entry(key: Key) | Temp(key: Key, nonce: nat) | Tomb(key: Key, nonce: nat)

  type Names = map<Name, Ino>
  type Records = map<Key, Ino>

  datatype Content = Empty | Partial | Full(body: Body)
  datatype File = File(content: Content, flushed: bool)

  datatype NameOp = Bind(name: Name, ino: Ino) | Unbind(name: Name) | Move(from: Name, to: Name, ino: Ino)

  function Apply(n: Names, op: NameOp): Names {
    match op
    case Bind(name, ino) => n[name := ino]
    case Unbind(name) => n - {name}
    case Move(from, to, ino) => (n - {from})[to := ino]
  }

  /** The name spaces a power loss may leave after one more unsynced operation. */
  function Extended(images: set<Names>, op: NameOp): set<Names> {
    images + set i | i in images :: Apply(i, op)
  }

  // ---- What a name space means ----

  /** Two names of one inode: only a record and the sibling it was published from. */
  predicate Linked(m: Name, n: Name) {
    m == n || (m.Temp? && n == Entry(m.key)) || (n.Temp? && m == Entry(n.key))
  }

  ghost predicate Neat(i: Names) {
    && (forall k, x :: Tomb(k, x) in i ==> Entry(k) !in i)
    && (forall k, x, y :: Tomb(k, x) in i && Tomb(k, y) in i ==> x == y)
    && (forall m, n :: m in i && n in i && i[m] == i[n] ==> Linked(m, n))
  }

  ghost predicate Holds(i: Names, k: Key, ino: Ino) {
    (Entry(k) in i && i[Entry(k)] == ino) || (exists x :: Tomb(k, x) in i && i[Tomb(k, x)] == ino)
  }

  /** Recovery would find exactly these records: a set-aside record still counts. */
  ghost predicate Means(i: Names, records: Records) {
    forall k, ino :: Holds(i, k, ino) <==> k in records && records[k] == ino
  }

  /** A record set aside in the visible name space is in every possible one, as itself or set aside. */
  ghost predicate TombsSure(images: set<Names>, live: Names) {
    forall k, x, i :: Tomb(k, x) in live && i in images ==>
      (Entry(k) in i && i[Entry(k)] == live[Tomb(k, x)]) || (Tomb(k, x) in i && i[Tomb(k, x)] == live[Tomb(k, x)])
  }

  /** Every name space a power loss may leave means the records before the
      operation in flight or the records after it. */
  ghost predicate Safe(images: set<Names>, live: Names, before: Records, after: Records) {
    && live in images && TombsSure(images, live)
    && (forall i :: i in images ==> Neat(i) && (Means(i, before) || Means(i, after)))
  }

  ghost predicate OnlyEntries(i: Names) {
    forall n :: n in i ==> n.Entry?
  }

  /** The inode has no name but `name`, in any possible name space. */
  ghost predicate OnlyAt(images: set<Names>, name: Name, ino: Ino) {
    forall i, n :: i in images && n in i && (i[n] == ino || n == name) ==> n == name && i[n] == ino
  }

  ghost predicate NoTombs(images: set<Names>) {
    forall i, k, x :: i in images ==> Tomb(k, x) !in i
  }

  // ---- What single operations do to the meaning ----

  lemma MeansUnique(i: Names, a: Records, b: Records)
    requires Means(i, a) && Means(i, b)
    ensures a == b
  {
    forall k ensures k in a <==> k in b {
      if k in a { assert Holds(i, k, a[k]); }
      if k in b { assert Holds(i, k, b[k]); }
    }
    forall k | k in a ensures a[k] == b[k] { assert Holds(i, k, a[k]); }
  }

  /** Names of private siblings carry no meaning. */
  ghost predicate SameButTemps(i: Names, j: Names) {
    forall n: Name :: !n.Temp? ==> (n in i <==> n in j) && (n in i ==> i[n] == j[n])
  }

  lemma TempsMeanNothing(i: Names, j: Names, records: Records)
    requires SameButTemps(i, j)
    ensures Means(i, records) <==> Means(j, records)
  {
    forall k, ino ensures Holds(i, k, ino) <==> Holds(j, k, ino) {
      if Holds(i, k, ino) && Entry(k) !in i { var x :| Tomb(k, x) in i && i[Tomb(k, x)] == ino; assert Tomb(k, x) in j; }
      if Holds(j, k, ino) && Entry(k) !in j { var x :| Tomb(k, x) in j && j[Tomb(k, x)] == ino; assert Tomb(k, x) in i; }
      if exists x :: Tomb(k, x) in i && i[Tomb(k, x)] == ino {
        var x :| Tomb(k, x) in i && i[Tomb(k, x)] == ino; assert Tomb(k, x) in j && j[Tomb(k, x)] == ino;
      }
      if exists x :: Tomb(k, x) in j && j[Tomb(k, x)] == ino {
        var x :| Tomb(k, x) in j && j[Tomb(k, x)] == ino; assert Tomb(k, x) in i && i[Tomb(k, x)] == ino;
      }
    }
  }

  lemma TempBindKeepsSafe(images: set<Names>, live: Names, before: Records, after: Records, k: Key, x: nat, ino: Ino)
    requires Safe(images, live, before, after)
    requires forall i, n :: i in images && n in i ==> i[n] != ino && n != Temp(k, x)
    ensures var op := Bind(Temp(k, x), ino);
            Safe(Extended(images, op), Apply(live, op), before, after)
  {
    var op := Bind(Temp(k, x), ino);
    forall i | i in images
      ensures Neat(Apply(i, op)) && (Means(i, before) <==> Means(Apply(i, op), before)) &&
              (Means(i, after) <==> Means(Apply(i, op), after))
    {
      TempsMeanNothing(i, Apply(i, op), before);
      TempsMeanNothing(i, Apply(i, op), after);
    }
    hide Means, Neat;
  }

  lemma TempUnbindKeepsSafe(images: set<Names>, live: Names, before: Records, after: Records, k: Key, x: nat)
    requires Safe(images, live, before, after)
    ensures var op := Unbind(Temp(k, x));
            Safe(Extended(images, op), Apply(live, op), before, after)
  {
    var op := Unbind(Temp(k, x));
    forall i | i in images
      ensures Neat(Apply(i, op)) && (Means(i, before) <==> Means(Apply(i, op), before)) &&
              (Means(i, after) <==> Means(Apply(i, op), after))
    {
      TempsMeanNothing(i, Apply(i, op), before);
      TempsMeanNothing(i, Apply(i, op), after);
    }
    hide Means, Neat;
  }

  /** Publishing a flushed sibling under the record's name: by link (no record
      yet) or by rename (replacing one). */
  lemma PublishKeepsSafe(images: set<Names>, live: Names, records: Records, k: Key, x: nat, ino: Ino, op: NameOp)
    requires Safe(images, live, records, records) && OnlyEntries(live - {Temp(k, x)})
    requires OnlyAt(images, Temp(k, x), ino)
    requires op == Move(Temp(k, x), Entry(k), ino) || (op == Bind(Entry(k), ino) && k !in records)
    requires NoTombs(images)
    ensures Safe(Extended(images, op), Apply(live, op), records, records[k := ino])
    ensures Means(Apply(live, op), records[k := ino])
  {
    forall i | i in images ensures Neat(Apply(i, op)) && Means(Apply(i, op), records[k := ino]) {
      var j := Apply(i, op);
      forall q, v ensures Holds(j, q, v) <==> q in records[k := ino] && records[k := ino][q] == v {
        assert q != k ==> (Holds(j, q, v) <==> Holds(i, q, v));
      }
    }
    hide Means, Neat;
  }

  /** Setting a record aside does not change what the name space means. */
  lemma SetAsideKeepsSafe(live: Names, records: Records, k: Key, x: nat)
    requires Safe({live}, live, records, records) && OnlyEntries(live) && Entry(k) in live
    ensures var op := Move(Entry(k), Tomb(k, x), live[Entry(k)]);
            Safe(Extended({live}, op), Apply(live, op), records, records) && Means(Apply(live, op), records)
  {
    var ino := live[Entry(k)];
    var op := Move(Entry(k), Tomb(k, x), ino);
    var j := Apply(live, op);
    assert Holds(live, k, ino);
    forall q, v ensures Holds(j, q, v) <==> Holds(live, q, v) {
      assert Tomb(k, x) in j && j[Tomb(k, x)] == ino;
    }
    assert Neat(j);
    assert Extended({live}, op) == {live, j};
    hide Means, Neat;
  }

  /** Removing a set-aside record, once that is durable, is the commit point of its deletion. */
  lemma RemovalKeepsSafe(live: Names, records: Records, k: Key, x: nat)
    requires Safe({live}, live, records, records) && Tomb(k, x) in live && k in records
    ensures var op := Unbind(Tomb(k, x));
            && Safe(Extended({live}, op), Apply(live, op), records, records - {k})
            && Means(Apply(live, op), records - {k})
  {
    var op := Unbind(Tomb(k, x));
    var j := Apply(live, op);
    forall q, v ensures Holds(j, q, v) <==> q in records - {k} && (records - {k})[q] == v {
      if q != k {
        assert Holds(live, q, v) <==> q in records && records[q] == v;
        if Holds(live, q, v) && !(Entry(q) in live && live[Entry(q)] == v) {
          var y :| Tomb(q, y) in live && live[Tomb(q, y)] == v; assert Tomb(q, y) in j && j[Tomb(q, y)] == v;
        }
      }
    }
    assert Neat(j);
    assert Extended({live}, op) == {live, j};
    hide Means, Neat;
  }

  /** Restoring a set-aside record changes the meaning of no possible name space. */
  lemma RestoreKeepsSafe(images: set<Names>, live: Names, before: Records, after: Records, k: Key, x: nat)
    requires Safe(images, live, before, after) && Tomb(k, x) in live
    ensures var op := Move(Tomb(k, x), Entry(k), live[Tomb(k, x)]);
            Safe(Extended(images, op), Apply(live, op), before, after)
  {
    var ino := live[Tomb(k, x)];
    var op := Move(Tomb(k, x), Entry(k), ino);
    forall i | i in images
      ensures Neat(Apply(i, op)) && (Means(i, before) ==> Means(Apply(i, op), before)) &&
              (Means(i, after) ==> Means(Apply(i, op), after))
    {
      var j := Apply(i, op);
      forall q, v ensures Holds(j, q, v) <==> Holds(i, q, v) {
        if Holds(i, q, v) && !(Entry(q) in i && i[Entry(q)] == v) {
          var y :| Tomb(q, y) in i && i[Tomb(q, y)] == v;
          assert q != k ==> Tomb(q, y) in j && j[Tomb(q, y)] == v;
        }
        if Holds(j, q, v) && !(Entry(q) in j && j[Entry(q)] == v) {
          var y :| Tomb(q, y) in j && j[Tomb(q, y)] == v; assert Tomb(q, y) in i && i[Tomb(q, y)] == v;
        }
        assert Holds(i, k, ino);
      }
    }
    hide Means, Neat;
  }

  lemma SyncKeepsSafe(images: set<Names>, live: Names, before: Records, after: Records)
    requires Safe(images, live, before, after)
    ensures Safe({live}, live, before, after)
  {
    hide Means, Neat;
  }

  lemma PowerLossKeepsSafe(images: set<Names>, live: Names, image: Names, before: Records, after: Records)
    requires Safe(images, live, before, after) && image in images
    ensures Safe({image}, image, before, after)
  {
    hide Means, Neat;
  }

  lemma EntriesAreRecords(live: Names, records: Records, k: Key)
    requires Means(live, records) && OnlyEntries(live)
    ensures Entry(k) in live <==> k in records
    ensures Entry(k) in live ==> live[Entry(k)] == records[k]
  {
    if Entry(k) in live { assert Holds(live, k, live[Entry(k)]); }
    if k in records { assert Holds(live, k, records[k]); }
  }

  /** A durable name space that means the later records no longer needs the earlier ones. */
  lemma Settled(live: Names, before: Records, after: Records)
    requires Safe({live}, live, before, after) && Means(live, after)
    ensures Safe({live}, live, after, after)
  {
    hide Means, Neat;
  }

  lemma SettledBefore(live: Names, before: Records, after: Records)
    requires Safe({live}, live, before, after) && !Means(live, after)
    ensures Safe({live}, live, before, before) && Means(live, before)
  {
    hide Neat;
  }

  function TombNames(live: Names): set<Name> {
    set n | n in live && n.Tomb?
  }

  function TempNames(live: Names): set<Name> {
    set n | n in live && n.Temp?
  }

  /** Some private sibling has no content at all: it may be anything. */
  predicate HasEmptyTemp(live: Names, files: map<Ino, File>) {
    exists n :: n in TempNames(live) && live[n] in files && files[live[n]].content.Empty?
  }

  lemma SameTemps(a: Names, b: Names, files: map<Ino, File>)
    requires Temps(a) == Temps(b)
    ensures TempNames(a) == TempNames(b) && (HasEmptyTemp(a, files) <==> HasEmptyTemp(b, files))
  {
    forall n: Name ensures n in TempNames(a) <==> n in TempNames(b) { assert n in Temps(a) <==> n in Temps(b); }
    assert forall n :: n in TempNames(a) ==> a[n] == Temps(a)[n] && b[n] == Temps(b)[n];
  }

  /** No name space a power loss may leave holds more than `n` private or set-aside names. */
  ghost predicate Litter(images: set<Names>, n: nat) {
    forall i :: i in images ==> |TombNames(i)| + |TempNames(i)| <= n
  }

  lemma Fewer(a: set<Name>, b: set<Name>)
    requires a <= b
    ensures |a| <= |b|
  {
    assert b == a + (b - a);
  }

  /** Recovery only takes such names away. */
  lemma LitterAfter(images: set<Names>, op: NameOp, n: nat)
    requires Litter(images, n) && (op.Unbind? || (op.Move? && op.to.Entry?))
    ensures Litter(Extended(images, op), n)
  {
    forall i | i in images ensures |TombNames(Apply(i, op))| + |TempNames(Apply(i, op))| <= n {
      Fewer(TombNames(Apply(i, op)), TombNames(i));
      Fewer(TempNames(Apply(i, op)), TempNames(i));
    }
  }

  function Temps(live: Names): Names {
    map n | n in live && n.Temp? :: live[n]
  }

  /** A set-aside record is a complete record file with no other name, and its own name is free. */
  lemma TombIsRecord(
    images: set<Names>, live: Names, files: map<Ino, File>, before: Records, after: Records, k: Key, x: nat)
    requires Safe(images, live, before, after) && Stored(files, before) && Stored(files, after) && Tomb(k, x) in live
    ensures live in images && live[Tomb(k, x)] in files && files[live[Tomb(k, x)]].content.Full?
    ensures Entry(k) !in live && forall m :: m in live && live[m] == live[Tomb(k, x)] ==> m == Tomb(k, x)
  {
    assert Neat(live);
    assert Holds(live, k, live[Tomb(k, x)]);
  }

  /** A private sibling's only other name is the record it was published as. */
  lemma SiblingLinks(images: set<Names>, live: Names, before: Records, after: Records, k: Key, x: nat)
    requires Safe(images, live, before, after) && Temp(k, x) in live
    ensures live in images && forall m :: m in live && live[m] == live[Temp(k, x)] ==> m == Temp(k, x) || m == Entry(k)
  {
    assert Neat(live);
    hide Means;
  }

  lemma LiveLitters(images: set<Names>, live: Names, before: Records, after: Records)
    requires Safe(images, live, before, after)
    ensures forall n: nat :: Litter(images, n) ==> Litter({live}, n)
  {
    hide Means, Neat, TombsSure;
  }

  /** Every name in every possible name space has an inode, and inode numbers are fresh from `next` on. */
  ghost predicate Backed(images: set<Names>, files: map<Ino, File>, next: Ino) {
    && (forall i, n :: i in images && n in i ==> i[n] in files)
    && (forall ino :: ino in files ==> ino < next)
  }

  lemma LiveIsBacked(images: set<Names>, files: map<Ino, File>, next: Ino, live: Names)
    requires Backed(images, files, next) && live in images
    ensures forall n :: n in live ==> live[n] in files
  {}

  lemma BackedAfter(images: set<Names>, files: map<Ino, File>, next: Ino, live: Names, op: NameOp)
    requires Backed(images, files, next) && live in images
    requires op.Unbind? || (op.Move? && op.from in live && op.ino == live[op.from]) || (op.Bind? && op.ino in files)
    ensures Backed(Extended(images, op), files, next)
  {}

  // ---- The directory and its primitive calls ----

  datatype Refusal = BothTombAndTarget | UncorrelatedLink | ZeroLengthTemporary

  datatype RecoveryResult = Recovered | Refused(reason: Refusal) | Crashed

  datatype WriteResult = Done | AlreadyThere | Died

  /** Every record's inode is flushed and complete. */
  ghost predicate Stored(files: map<Ino, File>, records: Records) {
    forall k :: k in records ==> records[k] in files && files[records[k]].flushed && files[records[k]].content.Full?
  }

  ghost function Bodies(files: map<Ino, File>, records: Records): map<Key, Body>
    requires Stored(files, records)
  {
    map k | k in records :: files[records[k]].content.body
  }

  /** Calls that all go through take this much of the budget; they fail only when it does not suffice. */
  predicate Spent(before: nat, after: nat, ok: bool, calls: nat) {
    (ok <==> before >= calls) && (ok ==> after == before - calls)
  }

  /** A fresh sibling beside nothing but records. */
  lemma SiblingAppears(live: Names, files: map<Ino, File>, k: Key, x: nat, ino: Ino, file: File)
    requires OnlyEntries(live) && Backed({live}, files, ino)
    ensures var op := Bind(Temp(k, x), ino);
            var images := Extended({live}, op);
            && OnlyAt(images, Temp(k, x), ino) && OnlyEntries(Apply(live, op) - {Temp(k, x)}) && NoTombs(images)
            && Backed(images, files[ino := file], ino + 1)
            && (forall i, n :: i in {live} && n in i ==> i[n] != ino && n != Temp(k, x))
  {
    var op := Bind(Temp(k, x), ino);
    assert Extended({live}, op) == {live, Apply(live, op)};
  }

  /** What is written to a file that is no record disturbs none. */
  lemma SiblingChanges(
    files: map<Ino, File>, images: set<Names>, next: Ino, before: Records, after: Records, ino: Ino, file: File)
    requires Stored(files, before) && Stored(files, after) && Backed(images, files, next) && ino in files
    requires (forall k :: k in before ==> before[k] != ino) && (forall k :: k in after ==> after[k] != ino)
    ensures var changed := files[ino := file];
            && Stored(changed, before) && Stored(changed, after) && Backed(images, changed, next)
            && Bodies(changed, before) == Bodies(files, before) && Bodies(changed, after) == Bodies(files, after)
  {}

  lemma PublishedBodies(files: map<Ino, File>, records: Records, k: Key, ino: Ino, body: Body)
    requires Stored(files, records) && ino in files && files[ino] == File(Full(body), true)
    ensures Stored(files, records[k := ino]) && Bodies(files, records[k := ino]) == Bodies(files, records)[k := body]
  {}

  lemma DeletedBodies(files: map<Ino, File>, records: Records, k: Key)
    requires Stored(files, records)
    ensures Stored(files, records - {k}) && Bodies(files, records - {k}) == Bodies(files, records) - {k}
  {}

  lemma LeftSomething(images: set<Names>, live: Names, before: Records, after: Records)
    requires Safe(images, live, before, after)
    ensures live in images
  {}

  lemma OneLitters(images: set<Names>, image: Names, n: nat)
    requires Litter(images, n) && image in images
    ensures Litter({image}, n) && |TombNames(image)| + |TempNames(image)| <= n
  {}

  class Directory {
    var live: Names                  // what the running process sees
    var files: map<Ino, File>
    var nextIno: Ino
    var budget: nat                  // primitive calls left before the process dies
    var images: set<Names>           // what a power loss may leave
    ghost var before: Records        // the records before the operation in flight
    ghost var after: Records         // the records after it

    /** What holds between any two primitive calls, and so at every crash. */
    ghost predicate Valid()
      reads this
    {
      && Safe(images, live, before, after)
      && Stored(files, before) && Stored(files, after)
      && Backed(images, files, nextIno)
    }

    /** No operation in flight: synced, and nothing but record files. */
    ghost predicate Quiescent()
      reads this
    {
      Valid() && images == {live} && before == after && Means(live, before) && OnlyEntries(live)
    }

    constructor ()
      ensures Quiescent() && before == map[]
    {
      live, files, nextIno, budget, images, before, after := map[], map[], 0, 0, {map[]}, map[], map[];
    }

    /** One visible, unsynced name operation. */
    method Perform(op: NameOp) returns (ok: bool)
      modifies this`live, this`images, this`budget
      ensures !ok ==> live == old(live) && images == old(images)
      ensures ok ==> live == Apply(old(live), op) && images == Extended(old(images), op)
      ensures Spent(old(budget), budget, ok, 1)
    {
      if budget == 0 { return false; }
      budget := budget - 1;
      live := Apply(live, op);
      images := Extended(images, op);
      ok := true;
    }

    method SyncDirectory() returns (ok: bool)
      requires Valid()
      modifies this`images, this`budget
      ensures Valid()
      ensures images == if ok then {live} else old(images)
      ensures Spent(old(budget), budget, ok, 1)
    {
      if budget == 0 { return false; }
      budget := budget - 1;
      SyncKeepsSafe(images, live, before, after);
      images := {live};
      ok := true;
    }

    /** A new, empty private sibling. */
    method CreateSibling(k: Key, nonce: nat) returns (ok: bool, ino: Ino)
      requires Quiescent()
      modifies this`live, this`images, this`files, this`nextIno, this`budget
      ensures Valid() && Bodies(files, before) == old(Bodies(files, before))
      ensures ok ==> OnlyAt(images, Temp(k, nonce), ino) && OnlyEntries(live - {Temp(k, nonce)}) && NoTombs(images)
      ensures ok ==> ino in files && ino == old(nextIno) && ino !in old(files)
      ensures Means(live, before) && forall q :: Entry(q) in live <==> Entry(q) in old(live)
      ensures Spent(old(budget), budget, ok, 1)
    {
      ino := nextIno;
      SiblingAppears(live, files, k, nonce, ino, File(Empty, false));
      TempBindKeepsSafe(images, live, before, after, k, nonce, ino);
      TempsMeanNothing(live, Apply(live, Bind(Temp(k, nonce), ino)), before);
      hide Safe, Means, OnlyAt, OnlyEntries, NoTombs, Extended;
      ok := Perform(Bind(Temp(k, nonce), ino));
      if ok { files, nextIno := files[ino := File(Empty, false)], nextIno + 1; }
    }

    /** Writes and flushes a private sibling; dying inside the write leaves it torn. */
    method FillSibling(ino: Ino, body: Body) returns (ok: bool)
      requires Valid() && ino in files && (forall k :: k in before ==> before[k] != ino) && (forall k :: k in after ==> after[k] != ino)
      modifies this`files, this`budget
      ensures Valid() && Bodies(files, before) == old(Bodies(files, before))
      ensures ok ==> ino in files && files[ino] == File(Full(body), true)
      ensures Spent(old(budget), budget, ok, 2)
    {
      hide Safe, Stored, Backed, Bodies;
      if budget == 0 {
        var torn :| torn == Empty || torn == Partial;
        SiblingChanges(files, images, nextIno, before, after, ino, File(torn, false));
        files := files[ino := File(torn, false)];
        return false;
      }
      budget := budget - 1;
      SiblingChanges(files, images, nextIno, before, after, ino, File(Full(body), false));
      files := files[ino := File(Full(body), false)];
      if budget == 0 { return false; }
      budget := budget - 1;
      SiblingChanges(files, images, nextIno, before, after, ino, File(Full(body), true));
      files := files[ino := File(Full(body), true)];
      ok := true;
    }

    /** Drops a published sibling's private name and makes the publication durable. */
    method FinishPublication(k: Key, nonce: nat) returns (ok: bool)
      requires Valid() && OnlyEntries(live - {Temp(k, nonce)}) && Means(live, after)
      modifies this`live, this`images, this`budget, this`before
      ensures Valid()
      ensures ok ==> Quiescent()
      ensures before == if ok then after else old(before)
      ensures Spent(old(budget), budget, ok, 2)
    {
      TempUnbindKeepsSafe(images, live, before, after, k, nonce);
      TempsMeanNothing(live, Apply(live, Unbind(Temp(k, nonce))), after);
      hide Safe, Means, Stored;
      ok := Perform(Unbind(Temp(k, nonce)));
      if !ok { return; }
      assert Backed(images, files, nextIno);
      ok := SyncDirectory();
      if !ok { return; }
      Settled(live, before, after);
      before := after;
    }

    /** Creates a record file unless one exists: a flushed sibling, then an atomic no-replace link.
        Only a process that dies leaves it undone. */
    method PublishIfAbsent(k: Key, nonce: nat, body: Body) returns (r: WriteResult)
      requires Quiescent()
      modifies this
      ensures Valid()
      ensures !r.Died? ==> Quiescent()
      ensures r.Done? ==> k !in old(before) && Bodies(files, before) == old(Bodies(files, before))[k := body]
      ensures r.AlreadyThere? ==> k in old(before) && Bodies(files, before) == old(Bodies(files, before))
      ensures r.Died? ==> Bodies(files, before) == old(Bodies(files, before))
      ensures r.Died? ==> (Bodies(files, after) == Bodies(files, before) || Bodies(files, after) == Bodies(files, before)[k := body])
      ensures Spent(old(budget), budget, !r.Died?, if k in old(before) then 5 else 6)
    {
      EntriesAreRecords(live, before, k);
      var ok, ino := CreateSibling(k, nonce);
      if !ok { return Died; }
      ok := FillSibling(ino, body);
      if !ok { return Died; }
      if Entry(k) in live {
        ok := FinishPublication(k, nonce);
        return if ok then AlreadyThere else Died;
      }
      r := PublishSibling(k, nonce, ino, body, Bind(Entry(k), ino));
    }

    /** Replaces a record file by renaming a flushed sibling over it. */
    method Replace(k: Key, nonce: nat, body: Body) returns (r: WriteResult)
      requires Quiescent()
      modifies this
      ensures Valid() && !r.AlreadyThere?
      ensures r.Done? ==> Quiescent() && Bodies(files, before) == old(Bodies(files, before))[k := body]
      ensures r.Died? ==> Bodies(files, before) == old(Bodies(files, before))
      ensures r.Died? ==> (Bodies(files, after) == Bodies(files, before) || Bodies(files, after) == Bodies(files, before)[k := body])
      ensures Spent(old(budget), budget, r.Done?, 6)
    {
      var ok, ino := CreateSibling(k, nonce);
      if !ok { return Died; }
      ok := FillSibling(ino, body);
      if !ok { return Died; }
      r := PublishSibling(k, nonce, ino, body, Move(Temp(k, nonce), Entry(k), ino));
    }

    method PublishSibling(k: Key, nonce: nat, ino: Ino, body: Body, op: NameOp) returns (r: WriteResult)
      requires Valid() && before == after && OnlyEntries(live - {Temp(k, nonce)}) && NoTombs(images)
      requires OnlyAt(images, Temp(k, nonce), ino) && ino in files && files[ino] == File(Full(body), true)
      requires op == Move(Temp(k, nonce), Entry(k), ino) || (op == Bind(Entry(k), ino) && k !in before)
      modifies this`live, this`images, this`budget, this`before, this`after
      ensures Valid() && !r.AlreadyThere?
      ensures r.Done? ==> Quiescent() && Bodies(files, before) == old(Bodies(files, before))[k := body]
      ensures r.Died? ==> Bodies(files, before) == old(Bodies(files, before))
      ensures r.Died? ==> (Bodies(files, after) == Bodies(files, before) || Bodies(files, after) == Bodies(files, before)[k := body])
      ensures Spent(old(budget), budget, r.Done?, 3)
    {
      PublishKeepsSafe(images, live, before, k, nonce, ino, op);
      PublishedBodies(files, before, k, ino, body);
      hide Safe, Means, OnlyAt, NoTombs, Stored, Bodies;
      var ok := Perform(op);
      if !ok { return Died; }
      after := before[k := ino];
      ok := FinishPublication(k, nonce);
      r := if ok then Done else Died;
    }

    /** Deletes a record file: set it aside, make that durable, remove it, make that durable. */
    method DeleteDurably(k: Key, nonce: nat) returns (ok: bool)
      requires Quiescent() && k in before
      modifies this
      ensures Valid()
      ensures ok ==> Quiescent() && Bodies(files, before) == old(Bodies(files, before)) - {k}
      ensures !ok ==> Bodies(files, before) == old(Bodies(files, before))
      ensures !ok ==> (Bodies(files, after) == Bodies(files, before) || Bodies(files, after) == Bodies(files, before) - {k})
      ensures Spent(old(budget), budget, ok, 4)
    {
      hide Safe, Means, Stored, Backed, Bodies, Neat, TombsSure;
      EntriesAreRecords(live, before, k);
      SetAsideKeepsSafe(live, before, k, nonce);
      BackedAfter(images, files, nextIno, live, Move(Entry(k), Tomb(k, nonce), live[Entry(k)]));
      ok := Perform(Move(Entry(k), Tomb(k, nonce), live[Entry(k)]));
      if !ok { return; }
      ok := SyncDirectory();
      if !ok { return; }
      RemovalKeepsSafe(live, before, k, nonce);
      BackedAfter(images, files, nextIno, live, Unbind(Tomb(k, nonce)));
      DeletedBodies(files, before, k);
      assert OnlyEntries(live - {Tomb(k, nonce)});
      ok := Perform(Unbind(Tomb(k, nonce)));
      if !ok { return; }
      after := before - {k};
      ok := SyncDirectory();
      if ok {
        Settled(live, before, after);
        before := after;
      }
    }

    /** Restores every record found set aside. */
    method RestoreTombs() returns (r: RecoveryResult)
      requires Valid()
      modifies this`live, this`images, this`budget
      ensures Valid() && !r.Refused?
      ensures r.Recovered? ==> (forall n :: n in live ==> !n.Tomb?) && Temps(live) == old(Temps(live))
      ensures Spent(old(budget), budget, r.Recovered?, |old(TombNames(live))|)
      ensures forall n: nat :: Litter(old(images), n) ==> Litter(images, n)
    {
      var tombs := TombNames(live);
      hide Safe, Stored, Backed, Means, Litter, Extended;
      while tombs != {}
        invariant Valid()
        invariant tombs == TombNames(live)
        invariant Temps(live) == old(Temps(live))
        invariant budget + |old(TombNames(live))| == old(budget) + |tombs|
        invariant forall n: nat :: Litter(old(images), n) ==> Litter(images, n)
        decreases tombs
      {
        var n :| n in tombs;
        TombIsRecord(images, live, files, before, after, n.key, n.nonce);
        if files[live[n]].content.Empty? { return Refused(ZeroLengthTemporary); }
        if exists m :: m in live && m != n && live[m] == live[n] { return Refused(UncorrelatedLink); }
        if Entry(n.key) in live { return Refused(BothTombAndTarget); }
        RestoreKeepsSafe(images, live, before, after, n.key, n.nonce);
        BackedAfter(images, files, nextIno, live, Move(n, Entry(n.key), live[n]));
        forall m: nat | Litter(old(images), m) ensures Litter(Extended(images, Move(n, Entry(n.key), live[n])), m) {
          LitterAfter(images, Move(n, Entry(n.key), live[n]), m);
        }
        var ok := Perform(Move(n, Entry(n.key), live[n]));
        if !ok { return Crashed; }
        tombs := tombs - {n};
        assert tombs == TombNames(live);
      }
      assert forall n :: n in live && n.Tomb? ==> n in tombs;
      r := Recovered;
    }

    /** Removes every private sibling: unpublished, or the extra name of a published record. */
    method RemoveTemps() returns (r: RecoveryResult)
      requires Valid() && forall n :: n in live ==> !n.Tomb?
      modifies this`live, this`images, this`budget
      ensures Valid()
      ensures r.Recovered? ==> OnlyEntries(live)
      ensures r.Refused? ==> r.reason.ZeroLengthTemporary? && HasEmptyTemp(old(live), files)
      ensures r.Recovered? ==> !HasEmptyTemp(old(live), files)
      ensures r.Recovered? ==> Spent(old(budget), budget, true, |old(TempNames(live))|)
      ensures r.Crashed? ==> old(budget) < |old(TempNames(live))|
      ensures forall n: nat :: Litter(old(images), n) ==> Litter(images, n)
    {
      var temps := TempNames(live);
      hide Safe, Stored, Means, Litter, Extended, Backed;
      while temps != {}
        invariant Valid()
        invariant forall n :: n in live ==> !n.Tomb?
        invariant temps == TempNames(live) && temps <= old(TempNames(live))
        invariant forall n :: n in temps ==> live[n] == old(live[n])
        invariant forall n :: n in old(TempNames(live)) && n !in temps && old(live[n]) in files ==> !files[old(live[n])].content.Empty?
        invariant budget + |old(TempNames(live))| == old(budget) + |temps|
        invariant forall n: nat :: Litter(old(images), n) ==> Litter(images, n)
        decreases temps
      {
        var n :| n in temps;
        SiblingLinks(images, live, before, after, n.key, n.nonce);
        assert live[n] in files by { LiveIsBacked(images, files, nextIno, live); }
        if files[live[n]].content.Empty? { return Refused(ZeroLengthTemporary); }
        if exists m :: m in live && m != n && m != Entry(n.key) && live[m] == live[n] { return Refused(UncorrelatedLink); }
        TempUnbindKeepsSafe(images, live, before, after, n.key, n.nonce);
        BackedAfter(images, files, nextIno, live, Unbind(n));
        forall m: nat | Litter(old(images), m) ensures Litter(Extended(images, Unbind(n)), m) { LitterAfter(images, Unbind(n), m); }
        var ok := Perform(Unbind(n));
        if !ok { return Crashed; }
        temps := temps - {n};
      }
      r := Recovered;
    }

    /** One pass of crash recovery. Any primitive call may be the last one before another crash. */
    method RecoverTemporaryFiles() returns (r: RecoveryResult)
      requires Valid()
      modifies this`live, this`images, this`budget, this`before, this`after
      ensures Valid()
      ensures r.Recovered? ==> Quiescent()
      ensures r.Recovered? ==> (before == old(before) || before == old(after))
      ensures !r.Recovered? ==> before == old(before) && after == old(after)
      ensures r.Refused? ==> r.reason.ZeroLengthTemporary? && HasEmptyTemp(old(live), files)
      ensures r.Recovered? ==> !HasEmptyTemp(old(live), files)
      ensures r.Crashed? ==> old(budget) < |old(TombNames(live))| + |old(TempNames(live))| + 3
      ensures forall n: nat :: Litter(old(images), n) ==> Litter(images, n)
    {
      hide Safe, Stored, Backed, Means, Litter, HasEmptyTemp, TempNames, TombNames;
      ghost var names, found := live, images;
      var restored := exists n :: n in live && n.Tomb?;
      var removed := exists n :: n in live && n.Temp?;
      r := RestoreTombs();
      if !r.Recovered? { return; }
      SameTemps(names, live, files);
      if restored {
        LiveLitters(images, live, before, after);
        var ok := SyncDirectory();
        if !ok { return Crashed; }
      }
      r := RemoveTemps();
      if !r.Recovered? { return; }
      LiveLitters(images, live, before, after);
      if restored || removed {
        var ok := SyncDirectory();
        if !ok { return Crashed; }
      }
      var ok := SyncDirectory();
      if !ok { return Crashed; }
      if Means(live, after) {
        Settled(live, before, after);
        before := after;
      } else {
        SettledBefore(live, before, after);
        after := before;
      }
    }

    /** The candidate store's pass of crash recovery, for a directory without deletions. It
        syncs the directory only if it removed a private sibling: otherwise what was not yet
        durable still is not. */
    method RecoverAtomicTemporaryFiles() returns (r: RecoveryResult)
      requires Valid() && forall n :: n in live ==> !n.Tomb?
      modifies this`live, this`images, this`budget, this`before, this`after
      ensures Valid()
      ensures r.Recovered? ==> OnlyEntries(live)
      ensures old(Temps(live)) == map[] ==> r.Recovered? && live == old(live) && images == old(images)
      ensures r.Recovered? && old(Temps(live)) != map[] ==> Quiescent() && (before == old(before) || before == old(after))
      ensures !Quiescent() ==> before == old(before) && after == old(after)
      ensures r.Refused? ==> HasEmptyTemp(old(live), files)
      ensures r.Recovered? ==> !HasEmptyTemp(old(live), files)
      ensures r.Crashed? ==> old(budget) < |old(TempNames(live))| + 1
    {
      var cleaned := exists n :: n in live && n.Temp?;
      assert cleaned <==> Temps(live) != map[] by {
        if cleaned { var n :| n in live && n.Temp?; assert n in Temps(live); }
        if Temps(live) != map[] { var n :| n in Temps(live); }
      }
      if !cleaned { return Recovered; }
      r := RemoveTemps();
      if !r.Recovered? { return; }
      var ok := SyncDirectory();
      if !ok { return Crashed; }
      if Means(live, after) {
        Settled(live, before, after);
        before := after;
      } else {
        SettledBefore(live, before, after);
        after := before;
      }
    }

    /** The machine stops: visible operations not yet durable may or may not have happened, and
        unflushed contents may be torn. */
    method PowerLoss(image: Names)
      requires Valid() && image in images
      modifies this`live, this`images, this`files
      ensures Valid() && live == image && images == {image}
      ensures Bodies(files, before) == old(Bodies(files, before)) && Bodies(files, after) == old(Bodies(files, after))
    {
      PowerLossKeepsSafe(images, live, image, before, after);
      hide Safe;
      var torn := set ino | ino in files && !files[ino].flushed;
      ghost var was := files;
      while torn != {}
        invariant files.Keys == was.Keys
        invariant forall ino :: ino in files && was[ino].flushed ==> files[ino] == was[ino]
        decreases torn
      {
        var ino :| ino in torn;
        var content :| content == Empty || content == Partial || content == files[ino].content;
        if !files[ino].flushed { files := files[ino := File(content, false)]; }
        torn := torn - {ino};
      }
      live, images := image, {image};
    }

    /** Any number of restarts, each after a death of the machine (`true`) or of the process,
        each allowed the given number of primitive calls, until one recovery completes. Where
        no name space holds more than `litter` names to clean up, one that is allowed three
        calls more than that completes. */
    method RestartUntilRecovered(restarts: seq<(bool, nat)>, litter: nat) returns (r: RecoveryResult)
      requires Valid() && Litter(images, litter)
      modifies this
      ensures Valid()
      ensures r.Recovered? ==> Quiescent()
      ensures r.Recovered? ==> (Bodies(files, before) == old(Bodies(files, before)) || Bodies(files, before) == old(Bodies(files, after)))
      ensures r.Refused? ==> r.reason.ZeroLengthTemporary?
      ensures r.Crashed? ==> forall k :: 0 <= k < |restarts| ==> restarts[k].1 < litter + 3
    {
      hide Safe, Stored, Backed, Litter;
      r := Crashed;
      var k := 0;
      while k < |restarts| && r.Crashed?
        invariant Valid()
        invariant r.Recovered? ==> Quiescent()
        invariant r.Refused? ==> r.reason.ZeroLengthTemporary?
        invariant k <= |restarts| && Litter(images, litter)
        invariant r.Crashed? ==> forall j :: 0 <= j < k ==> restarts[j].1 < litter + 3
        invariant r.Recovered? ==> (Bodies(files, before) == old(Bodies(files, before)) || Bodies(files, before) == old(Bodies(files, after)))
        invariant !r.Recovered? ==>
          Bodies(files, before) == old(Bodies(files, before)) && Bodies(files, after) == old(Bodies(files, after))
      {
        if restarts[k].0 {
          LeftSomething(images, live, before, after);
          var image :| image in images;
          OneLitters(images, image, litter);
          PowerLoss(image);
        }
        LeftSomething(images, live, before, after);
        OneLitters(images, live, litter);
        budget := restarts[k].1;
        r := RecoverTemporaryFiles();
        k := k + 1;
      }
    }
  }
}
