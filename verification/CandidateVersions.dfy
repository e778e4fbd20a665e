/** What holds of every version of the operation and receipt files that a power
    loss may leave, and not only of the files as they are. */
module CandidateVersions {
  import opened Outcomes
  import opened UnsyncedFiles
  import opened CandidateStores

  /** A content the operation file of `k` has, or may have after a power loss; `None` is its absence. */
  ghost predicate OpMay(s: Store, k: Key, v: Option<Operation>) {
    MayBe(s.ops, s.looseOps, k, v)
  }

  /** Failed without evidence: such a status is final, and no evidence is ever published for it. */
  predicate Dead(o: Operation) {
    o.status.phase.Failed? && o.status.receipt.None?
  }

  /** The receipt says what its own envelope supports. */
  predicate Sealed(r: ReceiptFile) {
    && ReceiptOk(r) && r.status.receipt == Some(r.envelope)
    && r.status.completedAt == Some(r.envelope.completedAt) && r.status.updatedAt == r.envelope.completedAt
    && (r.status.phase.Passed? <==> r.envelope.passed)
  }

  /** `n` is the same operation as `o`, at the same point of its life or later. */
  predicate Follows(o: Operation, n: Operation) {
    && n.request == o.request && n.runId == o.runId
    && (o.invocation.Some? ==> n.invocation.Some? && n.invocation.value.startedAt == o.invocation.value.startedAt)
    && (o.invocation.Some? ==> o.status.updatedAt <= n.status.updatedAt)
    && (Dead(o) ==> Dead(n)) && (IsBarrier(n) ==> IsBarrier(o))
  }

  /** Until its outer process is known, a running operation was last updated when it was invoked. */
  predicate UpdatedAtStart(o: Operation) {
    o.invocation.Some? && o.status.phase.Running? && o.invocation.value.outer.None? ==>
      o.status.updatedAt == o.invocation.value.startedAt
  }

  /** What each single version satisfies. */
  ghost predicate VersionOk(s: Store, k: Key, o: Operation) {
    && OperationOk(o) && o.request.key == k && k in s.ops && Follows(o, s.ops[k]) && UpdatedAtStart(o)
    && (o.status.receipt.Some? ==> k in s.receipts && k !in s.looseReceipts && s.receipts[k].status == o.status)
    && (k in s.receipts ==> !Dead(o))
  }

  ghost predicate HasBarrier(s: Store, k: Key) {
    exists o :: OpMay(s, k, Some(o)) && IsBarrier(o)
  }

  /** The creation of this operation is not yet durable. */
  ghost predicate CreationOpen(s: Store, k: Key) {
    k in s.looseOps && None in s.looseOps[k]
  }

  /** A power loss may bring back this operation as a barrier. */
  ghost predicate LiftingOpen(s: Store, k: Key) {
    k in s.looseOps && exists o :: Some(o) in s.looseOps[k] && IsBarrier(o)
  }

  /** Two operations may both be left as barriers only when one was created while
      the lifting of the other was not yet durable. */
  ghost predicate BarriersApart(s: Store) {
    forall j, k :: j != k && HasBarrier(s, j) && HasBarrier(s, k) ==>
      (LiftingOpen(s, j) && CreationOpen(s, k)) || (LiftingOpen(s, k) && CreationOpen(s, j))
  }

  ghost predicate ReceiptsOk(s: Store) {
    && (forall k :: k in s.receipts ==> Sealed(s.receipts[k]) && s.receipts[k].request.key == k)
    && (forall k :: k in s.looseReceipts ==> k in s.receipts && s.looseReceipts[k] == {None})
  }

  ghost predicate FilesInv(s: Store) {
    && (forall k, o :: OpMay(s, k, Some(o)) ==> VersionOk(s, k, o))
    && (forall k :: k in s.looseOps ==> k in s.ops)
    && ReceiptsOk(s)
    && (forall k :: CreationOpen(s, k) ==> HasBarrier(s, k))
    && (OneBarrier(s.ops) ==> BarriersApart(s))
    && |s.ops| <= MAX_OPERATION_FILES && |s.receipts| <= MAX_OPERATION_FILES
  }

  // ---- One operation write ----

  /** What a write may change about the operation it replaces. */
  predicate LegalVersion(s: Store, c: Operation, next: Operation) {
    var k := c.request.key;
    && Follows(c, next) && UpdatedAtStart(next)
    && (next.status.receipt.Some? ==> k in s.receipts && k !in s.looseReceipts && s.receipts[k].status == next.status)
    && (k in s.receipts ==> !Dead(next))
  }

  lemma PutVersions(s: Store, k: Key, o: Operation, fault: WriteFault, j: Key, v: Option<Operation>)
    requires var t := PutOperation(s, k, o, fault).store; OpMay(t, j, v)
    ensures OpMay(s, j, v) || (j == k && v == Some(o))
  {}

  lemma ReplaceKeepsVersions(s: Store, c: Operation, next: Operation, fault: WriteFault)
    requires forall k, o :: OpMay(s, k, Some(o)) ==> VersionOk(s, k, o)
    requires var k := c.request.key; k in s.ops && s.ops[k] == c
    requires OperationOk(next) && LegalVersion(s, c, next)
    ensures var t := PutOperation(s, c.request.key, next, fault).store;
            forall k, o :: OpMay(t, k, Some(o)) ==> VersionOk(t, k, o)
  {
    var key := c.request.key;
    var t := PutOperation(s, key, next, fault).store;
    assert OpMay(s, key, Some(c));
    hide OperationOk, IsBarrier;
    forall k, o | OpMay(t, k, Some(o)) ensures VersionOk(t, k, o) {
      PutVersions(s, key, next, fault, k, Some(o));
      if OpMay(s, k, Some(o)) { assert VersionOk(s, k, o); }
    }
  }

  lemma ReplaceKeepsBarriers(s: Store, c: Operation, next: Operation, fault: WriteFault)
    requires var k := c.request.key; k in s.ops && s.ops[k] == c
    requires IsBarrier(next) ==> IsBarrier(c)
    requires BarriersApart(s) && OneBarrier(s.ops) && forall k :: CreationOpen(s, k) ==> HasBarrier(s, k)
    ensures var t := PutOperation(s, c.request.key, next, fault).store;
            BarriersApart(t) && OneBarrier(t.ops) && forall k :: CreationOpen(t, k) ==> HasBarrier(t, k)
  {
    hide IsBarrier;
    var key := c.request.key;
    var t := PutOperation(s, key, next, fault).store;
    assert OpMay(s, key, Some(c));
    forall k | HasBarrier(t, k) ensures HasBarrier(s, k) {
      var o :| OpMay(t, k, Some(o)) && IsBarrier(o);
      PutVersions(s, key, next, fault, k, Some(o));
    }
    if fault.Unconfirmed? {
      forall k | CreationOpen(t, k) ensures HasBarrier(t, k) {
        assert CreationOpen(s, k);
        var o :| OpMay(s, k, Some(o)) && IsBarrier(o);
        assert OpMay(t, k, Some(o));
      }
      forall k | LiftingOpen(s, k) ensures LiftingOpen(t, k) {
        var o :| Some(o) in s.looseOps[k] && IsBarrier(o);
        assert Some(o) in t.looseOps[k];
      }
    }
    if fault.NoFault? { OnlyVisible(t); }
  }

  /** With everything durable, the barriers are the visible ones. */
  lemma OnlyVisible(s: Store)
    requires s.looseOps == map[] && OneBarrier(s.ops)
    ensures BarriersApart(s)
  {}

  /** A write touches one file of one directory. */
  lemma PutFacts(s: Store, k: Key, o: Operation, fault: WriteFault)
    requires forall j :: j in s.looseOps ==> j in s.ops
    ensures var t := PutOperation(s, k, o, fault).store;
            && t.receipts == s.receipts && t.looseReceipts == s.looseReceipts
            && (forall j :: j in t.looseOps ==> j in t.ops)
            && |t.ops| <= (if k in s.ops then |s.ops| else |s.ops| + 1)
            && (ReceiptsOk(s) ==> ReceiptsOk(t))
  {
    SizeAfterPut(s.ops, k, o);
    SameReceipts(s, PutOperation(s, k, o, fault).store);
    hide ReceiptsOk;
  }

  lemma SizeAfterPut(ops: map<Key, Operation>, k: Key, o: Operation)
    ensures |ops[k := o]| == if k in ops then |ops| else |ops| + 1
  {
    assert ops[k := o].Keys == ops.Keys + {k};
    assert |ops[k := o]| == |ops[k := o].Keys|;
  }

  lemma SameReceipts(s: Store, t: Store)
    ensures s.receipts == t.receipts && s.looseReceipts == t.looseReceipts ==> (ReceiptsOk(s) <==> ReceiptsOk(t))
  {
    hide Sealed;
  }

  lemma ReplaceKeepsFiles(s: Store, c: Operation, next: Operation, fault: WriteFault)
    requires FilesInv(s) && OneBarrier(s.ops)
    requires var k := c.request.key; k in s.ops && s.ops[k] == c
    requires OperationOk(next) && LegalVersion(s, c, next)
    ensures FilesInv(PutOperation(s, c.request.key, next, fault).store)
  {
    ReplaceKeepsVersions(s, c, next, fault);
    ReplaceKeepsBarriers(s, c, next, fault);
    PutFacts(s, c.request.key, next, fault);
    hide BarriersApart, HasBarrier, CreationOpen, VersionOk, OpMay, LegalVersion, OneBarrier, ReceiptsOk, PutOperation;
    hide OperationOk, IsBarrier;
  }

  // ---- Creation, receipts, restart ----

  lemma CreateKeepsFiles(s: Store, record: Operation, fault: WriteFault)
    requires FilesInv(s) && record.request.key !in s.ops && record.request.key !in s.receipts && |s.ops| < MAX_OPERATION_FILES
    requires forall k :: k in s.ops ==> !IsBarrier(s.ops[k])
    requires record == NewOperation(record.request, record.workspace, record.runId, record.status.updatedAt)
    ensures FilesInv(PutOperation(s, record.request.key, record, fault).store)
  {
    var key := record.request.key;
    var t := PutOperation(s, key, record, fault).store;
    CreateKeepsVersions(s, record, fault);
    CreateKeepsBarriers(s, record, fault);
    PutFacts(s, key, record, fault);
    hide BarriersApart, HasBarrier, CreationOpen, VersionOk, OpMay, OneBarrier, ReceiptsOk, IsBarrier, PutOperation;
  }

  lemma CreateKeepsVersions(s: Store, record: Operation, fault: WriteFault)
    requires (forall k, o :: OpMay(s, k, Some(o)) ==> VersionOk(s, k, o))
    requires record.request.key !in s.ops && record.request.key !in s.receipts
    requires record == NewOperation(record.request, record.workspace, record.runId, record.status.updatedAt)
    ensures var t := PutOperation(s, record.request.key, record, fault).store;
            forall k, o :: OpMay(t, k, Some(o)) ==> VersionOk(t, k, o)
  {
    var key := record.request.key;
    var t := PutOperation(s, key, record, fault).store;
    forall k, o | OpMay(t, k, Some(o)) ensures VersionOk(t, k, o) {
      PutVersions(s, key, record, fault, k, Some(o));
      if OpMay(s, k, Some(o)) { assert VersionOk(s, k, o) && k != key; }
    }
  }

  lemma CreateKeepsBarriers(s: Store, record: Operation, fault: WriteFault)
    requires FilesInv(s) && record.request.key !in s.ops && record.status.phase.Prepared?
    requires forall k :: k in s.ops ==> !IsBarrier(s.ops[k])
    ensures var t := PutOperation(s, record.request.key, record, fault).store;
            && (forall k :: CreationOpen(t, k) ==> HasBarrier(t, k)) && BarriersApart(t)
  {
    var key := record.request.key;
    var t := PutOperation(s, key, record, fault).store;
    hide VersionOk, ReceiptsOk;
    if !fault.NotWritten? {
      assert IsBarrier(record) && OpMay(t, key, Some(record));
      forall k | CreationOpen(t, k) ensures HasBarrier(t, k) {
        if k != key {
          assert CreationOpen(s, k);
          var o :| OpMay(s, k, Some(o)) && IsBarrier(o);
          assert OpMay(t, k, Some(o));
        }
      }
      if fault.Unconfirmed? { CreatedApart(s, record); } else { OnlyVisible(t); }
    }
  }

  lemma CreatedApart(s: Store, record: Operation)
    requires (forall k :: k in s.looseOps ==> k in s.ops) && BarriersApart(s)
    requires record.request.key !in s.ops && forall k :: k in s.ops ==> !IsBarrier(s.ops[k])
    ensures BarriersApart(PutOperation(s, record.request.key, record, Unconfirmed).store)
  {
    var key := record.request.key;
    var t := PutOperation(s, key, record, Unconfirmed).store;
    hide IsBarrier;
    assert CreationOpen(t, key);
    forall j | j != key && HasBarrier(t, j) ensures HasBarrier(s, j) && LiftingOpen(t, j) {
      var o :| OpMay(t, j, Some(o)) && IsBarrier(o);
      assert OpMay(s, j, Some(o)) && Some(o) in t.looseOps[j];
    }
    forall j | j != key && LiftingOpen(s, j) ensures LiftingOpen(t, j) {
      var o :| Some(o) in s.looseOps[j] && IsBarrier(o);
      assert Some(o) in t.looseOps[j];
    }
  }

  /** Publishing the first receipt of an operation that may still settle by it. */
  lemma PublishKeepsFiles(s: Store, o: Operation, envelope: Evidence, fault: WriteFault)
    requires FilesInv(s) && o.request.key !in s.receipts && o.request.key in s.ops
    requires !Dead(s.ops[o.request.key]) && Sealed(ReceiptFile(o.request, o.status, envelope)) && s.receipts.Keys <= s.ops.Keys
    ensures FilesInv(PublishWrite(s, o, envelope, fault).store)
  {
    var t := PublishWrite(s, o, envelope, fault).store;
    PublishKeepsVersions(s, o, envelope, fault);
    PublishKeepsReceipts(s, o, envelope, fault);
    SameBarriers(s, t);
    FewerReceipts(t.receipts, t.ops);
    hide BarriersApart, HasBarrier, CreationOpen, VersionOk, OpMay, OneBarrier, Sealed, IsBarrier, ReceiptsOk, PublishWrite;
  }

  lemma PublishKeepsVersions(s: Store, o: Operation, envelope: Evidence, fault: WriteFault)
    requires forall k, v :: OpMay(s, k, Some(v)) ==> VersionOk(s, k, v)
    requires o.request.key !in s.receipts && o.request.key in s.ops && !Dead(s.ops[o.request.key])
    ensures var t := PublishWrite(s, o, envelope, fault).store; forall k, v :: OpMay(t, k, Some(v)) ==> VersionOk(t, k, v)
  {
    hide OperationOk, IsBarrier, Dead;
    var t := PublishWrite(s, o, envelope, fault).store;
    forall k, v | OpMay(t, k, Some(v)) ensures VersionOk(t, k, v) { assert OpMay(s, k, Some(v)) && VersionOk(s, k, v); }
  }

  lemma PublishKeepsReceipts(s: Store, o: Operation, envelope: Evidence, fault: WriteFault)
    requires ReceiptsOk(s) && o.request.key !in s.receipts && Sealed(ReceiptFile(o.request, o.status, envelope))
    ensures var t := PublishWrite(s, o, envelope, fault).store;
            ReceiptsOk(t) && t.receipts.Keys <= s.receipts.Keys + {o.request.key}
  {
    hide Sealed;
    assert o.request.key !in s.looseReceipts && VersionOf(s.receipts, o.request.key) == None;
  }

  lemma FewerReceipts(receipts: map<Key, ReceiptFile>, ops: map<Key, Operation>)
    requires receipts.Keys <= ops.Keys
    ensures |receipts| <= |ops|
  {
    Subset(receipts.Keys, ops.Keys);
    assert |receipts| == |receipts.Keys| && |ops| == |ops.Keys|;
  }

  lemma {:induction false} Subset(a: set<Key>, b: set<Key>)
    requires a <= b
    ensures |a| <= |b|
    decreases a
  {
    if a != {} {
      var k :| k in a;
      Subset(a - {k}, b - {k});
    }
  }

  lemma SameBarriers(s: Store, t: Store)
    requires s.ops == t.ops && s.looseOps == t.looseOps
    requires (forall k :: CreationOpen(s, k) ==> HasBarrier(s, k)) && (OneBarrier(s.ops) ==> BarriersApart(s))
    ensures (forall k :: CreationOpen(t, k) ==> HasBarrier(t, k)) && (OneBarrier(t.ops) ==> BarriersApart(t))
  {
    hide IsBarrier;
    forall k ensures (HasBarrier(s, k) <==> HasBarrier(t, k)) && (CreationOpen(s, k) <==> CreationOpen(t, k))
                     && (LiftingOpen(s, k) <==> LiftingOpen(t, k)) {
      assert forall o :: OpMay(s, k, o) <==> OpMay(t, k, o);
    }
  }

  lemma RecoveredKeepsFiles(s: Store, sweptOps: bool, sweptReceipts: bool)
    requires FilesInv(s)
    ensures FilesInv(Recovered(s, sweptOps, sweptReceipts))
  {
    var t := Recovered(s, sweptOps, sweptReceipts);
    forall k, v | OpMay(t, k, Some(v)) ensures VersionOk(t, k, v) { assert OpMay(s, k, Some(v)) && VersionOk(s, k, v); }
    assert ReceiptsOk(t);
    if sweptOps { if OneBarrier(t.ops) { OnlyVisible(t); } } else { SameBarriers(s, t); }
    hide BarriersApart, HasBarrier, VersionOk, OpMay, OneBarrier, Sealed, IsBarrier, ReceiptsOk;
  }

  /** Files that a power loss may leave, and what they were before. */
  lemma LeftFiles(s: Store, left: Store)
    requires FilesInv(s) && Leaves(s, left)
    ensures left.ops.Keys <= s.ops.Keys && left.receipts.Keys <= s.receipts.Keys
    ensures forall k :: k in left.ops ==> OpMay(s, k, Some(left.ops[k]))
    ensures forall k :: k in left.receipts ==> left.receipts[k] == s.receipts[k]
    ensures forall k :: k in s.receipts && k !in s.looseReceipts ==> k in left.receipts
  {
    hide VersionOk, HasBarrier, BarriersApart, OneBarrier, Sealed;
    forall k | k in left.ops ensures OpMay(s, k, Some(left.ops[k])) && k in s.ops {
      assert MayBe(s.ops, s.looseOps, k, VersionOf(left.ops, k));
    }
    forall k ensures k in left.receipts ==> k in s.receipts && left.receipts[k] == s.receipts[k] {
      assert MayBe(s.receipts, s.looseReceipts, k, VersionOf(left.receipts, k));
    }
    forall k | k in s.receipts && k !in s.looseReceipts ensures k in left.receipts {
      assert MayBe(s.receipts, s.looseReceipts, k, VersionOf(left.receipts, k));
    }
  }

  lemma LeavesKeepsFiles(s: Store, left: Store)
    requires FilesInv(s) && Leaves(s, left)
    ensures FilesInv(left)
  {
    LeftFiles(s, left);
    forall k, v | OpMay(left, k, Some(v)) ensures VersionOk(left, k, v) {
      assert left.ops[k] == v && VersionOk(s, k, v);
    }
    assert ReceiptsOk(left);
    Subset(left.ops.Keys, s.ops.Keys);
    Subset(left.receipts.Keys, s.receipts.Keys);
    assert |left.ops| == |left.ops.Keys| && |s.ops| == |s.ops.Keys|;
    assert |left.receipts| == |left.receipts.Keys| && |s.receipts| == |s.receipts.Keys|;
    if OneBarrier(left.ops) { OnlyVisible(left); }
    hide BarriersApart, HasBarrier, VersionOk, OpMay, OneBarrier, Sealed, IsBarrier, ReceiptsOk, Leaves;
  }

  // ---- When a start accepts what a power loss left ----

  /** A receipt is out, but a power loss may still take back the invocation it is about. */
  ghost predicate EvidenceAhead(s: Store, k: Key) {
    k in s.receipts && k in s.looseOps && exists v :: v in s.looseOps[k] && (v.None? || v.value.invocation.None?)
  }

  /** An operation was created while the lifting of another one's barrier was unsynced, and still is. */
  ghost predicate CreatedOverLifting(s: Store) {
    exists j, k :: j != k && LiftingOpen(s, j) && CreationOpen(s, k)
  }

  lemma LeftIsAccepted(s: Store, left: Store)
    requires FilesInv(s) && StartAccepts(s) && Leaves(s, left)
    requires !CreatedOverLifting(s) && forall k :: !EvidenceAhead(s, k)
    ensures StartAccepts(left)
  {
    hide Leaves, BarriersApart, OneBarrier, CreatedOverLifting, EvidenceAhead, OperationFits, ReceiptFits, VersionOk;
    hide ReceiptsOk, HasBarrier, CreationOpen;
    LeftOperationsFit(s, left);
    LeftReceiptsFit(s, left);
    LeavesKeepsFiles(s, left);
    LeftFiles(s, left);
    LeftIsApart(s, left);
    hide OpMay;
  }

  lemma LeftOperationsFit(s: Store, left: Store)
    requires FilesInv(s) && Leaves(s, left)
    ensures forall k :: k in left.ops ==> OperationFits(left, k)
  {
    LeftFiles(s, left);
    hide Leaves, BarriersApart, OneBarrier, OperationFits, VersionOk, ReceiptsOk, HasBarrier, CreationOpen, OpMay;
    forall k | k in left.ops ensures OperationFits(left, k) {
      assert VersionOk(s, k, left.ops[k]);
      LeftOperationFits(s, left, k);
    }
  }

  lemma LeftReceiptsFit(s: Store, left: Store)
    requires FilesInv(s) && Accepted(s) && Leaves(s, left) && forall k :: !EvidenceAhead(s, k)
    ensures forall k :: k in left.receipts ==> ReceiptFits(left, k)
  {
    LeftFiles(s, left);
    hide BarriersApart, OneBarrier, OperationFits, ReceiptFits, VersionOk, HasBarrier, CreationOpen, EvidenceAhead, Sealed;
    forall k | k in left.receipts ensures ReceiptFits(left, k) {
      assert MayBe(s.ops, s.looseOps, k, VersionOf(left.ops, k)) && ReceiptFits(s, k);
      LeftReceiptFits(s, left, k);
    }
  }

  lemma SizesOf(s: Store)
    requires FilesInv(s)
    ensures |s.ops| <= MAX_OPERATION_FILES && |s.receipts| <= MAX_OPERATION_FILES
  {}

  lemma LeftIsApart(s: Store, left: Store)
    requires BarriersApart(s) && !CreatedOverLifting(s)
    requires forall k :: k in left.ops ==> OpMay(s, k, Some(left.ops[k]))
    ensures OneBarrier(left.ops)
  {
    hide IsBarrier, LiftingOpen, CreationOpen;
    forall j, k | j in left.ops && k in left.ops && IsBarrier(left.ops[j]) && IsBarrier(left.ops[k]) ensures j == k {
      assert HasBarrier(s, j) && HasBarrier(s, k);
    }
  }

  lemma LeftOperationFits(s: Store, left: Store, k: Key)
    requires k in left.ops && VersionOk(s, k, left.ops[k])
    requires k in s.receipts && k !in s.looseReceipts ==> k in left.receipts && left.receipts[k] == s.receipts[k]
    ensures OperationFits(left, k)
  {}

  lemma LeftReceiptFits(s: Store, left: Store, k: Key)
    requires k in s.receipts && Sealed(s.receipts[k]) && ReceiptFits(s, k) && !EvidenceAhead(s, k)
    requires k in left.receipts && left.receipts[k] == s.receipts[k]
    requires OpMay(s, k, VersionOf(left.ops, k)) && (k in left.ops ==> VersionOk(s, k, left.ops[k]))
    ensures ReceiptFits(left, k)
  {
    hide OperationOk, IsBarrier, ReceiptOk;
    var v := VersionOf(left.ops, k);
    assert v == VersionOf(s.ops, k) || (k in s.looseOps && v in s.looseOps[k]);
    assert v.Some? && v.value.invocation.Some?;
    assert Follows(left.ops[k], s.ops[k]);
  }

  /** Bringing files back one by one is something a power loss may do. */
  lemma BroughtBack(s: Store, k: Key, v: Option<Operation>, ops: map<Key, Operation>)
    requires OpMay(s, k, v) && MayLeave(s.ops, s.looseOps, ops)
    ensures MayLeave(s.ops, s.looseOps, if v.Some? then ops[k := v.value] else ops - {k})
  {
    var left := if v.Some? then ops[k := v.value] else ops - {k};
    forall j ensures MayBe(s.ops, s.looseOps, j, VersionOf(left, j)) {
      assert MayBe(s.ops, s.looseOps, j, VersionOf(ops, j));
    }
  }

  lemma NothingUndone(s: Store)
    ensures Leaves(s, Synced(s.ops, s.receipts))
  {}

  lemma OverLiftingIsRefused(s: Store, j: Key, k: Key) returns (left: Store)
    requires FilesInv(s) && j != k && LiftingOpen(s, j) && CreationOpen(s, k)
    ensures Leaves(s, left) && !StartAccepts(left)
  {
    var o :| Some(o) in s.looseOps[j] && IsBarrier(o);
    assert HasBarrier(s, k);
    var p :| OpMay(s, k, Some(p)) && IsBarrier(p);
    NothingUndone(s);
    BroughtBack(s, j, Some(o), s.ops);
    BroughtBack(s, k, Some(p), s.ops[j := o]);
    left := Synced(s.ops[j := o][k := p], s.receipts);
    assert !OneBarrier(left.ops) by { assert IsBarrier(left.ops[j]) && IsBarrier(left.ops[k]); }
  }

  lemma AheadIsRefused(s: Store, k: Key) returns (left: Store)
    requires EvidenceAhead(s, k)
    ensures Leaves(s, left) && !StartAccepts(left)
  {
    var v :| v in s.looseOps[k] && (v.None? || v.value.invocation.None?);
    NothingUndone(s);
    BroughtBack(s, k, v, s.ops);
    left := Synced(if v.Some? then s.ops[k := v.value] else s.ops - {k}, s.receipts);
    assert !ReceiptFits(left, k);
  }

  /** Every power loss leaves files that a start accepts, if and only if no operation
      was created over an unsynced lifting and no evidence is ahead of its invocation. */
  lemma AcceptsExactly(s: Store)
    requires FilesInv(s) && StartAccepts(s)
    ensures (forall left :: Leaves(s, left) ==> StartAccepts(left)) <==> !CreatedOverLifting(s) && forall k :: !EvidenceAhead(s, k)
  {
    hide FilesInv, StartAccepts, Leaves, EvidenceAhead, LiftingOpen, CreationOpen;
    if CreatedOverLifting(s) {
      var j, k :| j != k && LiftingOpen(s, j) && CreationOpen(s, k);
      var left := OverLiftingIsRefused(s, j, k);
    } else if exists k :: EvidenceAhead(s, k) {
      var k :| EvidenceAhead(s, k);
      var left := AheadIsRefused(s, k);
    } else {
      forall left | Leaves(s, left) ensures StartAccepts(left) { LeftIsAccepted(s, left); }
    }
  }
}
