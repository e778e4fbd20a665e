/** Candidate evaluation records: their schema, the store's compare-and-set
    writes, and the immutable receipts published before the status that cites them. */
module CandidateStores {
  import opened Outcomes
  import opened UnsyncedFiles

  type Key = string                 // digest of the four identities of a start request

  const MAX_OPERATION_FILES := 128

  datatype Phase = Prepared | Running | Passed | Failed | Uncertain

  datatype ErrorCode = NotInvoked | CandidateChanged | LaunchFailed | EvaluationFailed | ReceiptInvalid | OutcomeUnknown

  /** A verified self-build envelope; its summary and candidate are functions of it. */
  datatype Evidence = Evidence(runId: nat, passed: bool, completedAt: int, digest: nat)

  datatype Status = Status(
    phase: Phase, updatedAt: int, invokedAt: Option<int>, completedAt: Option<int>,
    receipt: Option<Evidence>, error: Option<ErrorCode>)

  datatype Proof = SpawnFailed | TreeRetired
  datatype Outer = Outer(pid: nat, observedAt: int)
  datatype Retirement = Retirement(proof: Proof, observedAt: int)
  datatype Invocation = Invocation(startedAt: int, deadlineAt: int, outer: Option<Outer>, retirement: Option<Retirement>)

  /** `detail` stands for the rest of the request. */
  datatype Request = Request(key: Key, detail: nat)

  datatype Operation = Operation(request: Request, workspace: string, runId: nat, status: Status, invocation: Option<Invocation>)

  datatype ReceiptFile = ReceiptFile(request: Request, status: Status, envelope: Evidence)

  /** The two directories: the files they show, and what a power loss may make of them. */
  datatype Store = Store(
    ops: map<Key, Operation>, receipts: map<Key, ReceiptFile>,
    looseOps: Unsynced<Key, Operation>, looseReceipts: Unsynced<Key, ReceiptFile>)

  /** A store whose files are all durable. */
  function Synced(ops: map<Key, Operation>, receipts: map<Key, ReceiptFile>): Store {
    Store(ops, receipts, map[], map[])
  }

  /** A power loss may leave exactly these files. */
  ghost predicate Leaves(s: Store, left: Store) {
    && MayLeave(s.ops, s.looseOps, left.ops) && MayLeave(s.receipts, s.looseReceipts, left.receipts)
    && left == Synced(left.ops, left.receipts)
  }

  // ---- Schema ----

  predicate IsTerminal(p: Phase) { p.Passed? || p.Failed? || p.Uncertain? }

  predicate StatusOk(s: Status) {
    && (IsTerminal(s.phase) <==> s.completedAt.Some?)
    && (s.phase.Prepared? ==> s.invokedAt.None?)
    && (s.phase.Running? || s.phase.Passed? || s.phase.Uncertain? ==> s.invokedAt.Some?)
    && (s.phase.Passed? ==> s.receipt.Some? && s.receipt.value.passed)
    && (s.receipt.Some? ==> s.invokedAt.Some?)
    && (s.phase.Failed? ==> s.receipt.Some? || s.error.Some?)
    && (s.phase.Failed? && s.receipt.Some? ==> !s.receipt.value.passed)
    && (s.phase.Prepared? || s.phase.Running? || s.phase.Uncertain? ==> s.receipt.None?)
    && (s.phase.Uncertain? ==> s.error.Some?)
    && (s.phase.Prepared? || s.phase.Running? || s.phase.Passed? ==> s.error.None?)
  }

  predicate InvocationOk(i: Invocation) {
    && i.deadlineAt > i.startedAt
    && (i.outer.Some? ==> i.outer.value.observedAt >= i.startedAt)
    && (i.retirement.Some? ==> i.retirement.value.observedAt >= i.startedAt)
    && (i.retirement.Some? && !i.retirement.value.proof.SpawnFailed? ==> i.outer.Some?)
  }

  predicate OperationOk(o: Operation) {
    && StatusOk(o.status)
    && (o.invocation.Some? <==> o.status.invokedAt.Some?)
    && (o.invocation.Some? ==> InvocationOk(o.invocation.value) && o.status.invokedAt == Some(o.invocation.value.startedAt))
    && (o.status.receipt.Some? ==> o.status.receipt.value.runId == o.runId)
  }

  predicate ReceiptOk(r: ReceiptFile) {
    StatusOk(r.status) && (r.status.phase.Passed? || r.status.phase.Failed?) && r.status.receipt.Some?
  }

  /** Lifted only by process-retirement evidence, whatever the status says. */
  predicate IsBarrier(o: Operation) {
    o.status.phase.Prepared? || (o.invocation.Some? && o.invocation.value.retirement.None?)
  }

  predicate Belongs(r: ReceiptFile, o: Operation) {
    r.request == o.request && r.status.receipt.Some? && r.status.receipt.value.runId == o.runId
  }

  // ---- Starting up ----

  predicate OperationFits(s: Store, k: Key)
    requires k in s.ops
  {
    var o := s.ops[k];
    && OperationOk(o) && o.request.key == k
    && (o.status.receipt.Some? ==> o.invocation.Some? && k in s.receipts && s.receipts[k].status == o.status)
  }

  predicate ReceiptFits(s: Store, k: Key)
    requires k in s.receipts
  {
    var r := s.receipts[k];
    && ReceiptOk(r) && r.request.key == k && k in s.ops && s.ops[k].invocation.Some?
    && r.status.invokedAt == Some(s.ops[k].invocation.value.startedAt) && Belongs(r, s.ops[k])
  }

  ghost predicate OneBarrier(ops: map<Key, Operation>) {
    forall j, k :: j in ops && k in ops && IsBarrier(ops[j]) && IsBarrier(ops[k]) ==> j == k
  }

  /** The cross-checks a start demands of the files it finds. */
  ghost predicate Accepted(s: Store) {
    && OneBarrier(s.ops)
    && (forall k :: k in s.ops ==> OperationFits(s, k))
    && (forall k :: k in s.receipts ==> ReceiptFits(s, k))
  }

  /** What a start demands in all. */
  ghost predicate StartAccepts(s: Store) {
    |s.ops| <= MAX_OPERATION_FILES && |s.receipts| <= MAX_OPERATION_FILES && Accepted(s)
  }

  /** Recovery syncs a directory only if it removed a temporary file from it. */
  ghost function Recovered(s: Store, sweptOps: bool, sweptReceipts: bool): Store {
    s.(looseOps := if sweptOps then map[] else s.looseOps, looseReceipts := if sweptReceipts then map[] else s.looseReceipts)
  }

  lemma CrossChecksReadFiles(s: Store, t: Store)
    requires s.ops == t.ops && s.receipts == t.receipts
    ensures Accepted(s) <==> Accepted(t)
  {
    hide OneBarrier;
    assert forall k :: k in s.ops ==> (OperationFits(s, k) <==> OperationFits(t, k));
    assert forall k :: k in s.receipts ==> (ReceiptFits(s, k) <==> ReceiptFits(t, k));
  }

  /** What a start that accepts the files has made sure of, record by record. */
  lemma AcceptedMeans(s: Store, k: Key)
    requires Accepted(s)
    ensures k in s.ops ==>
              var o := s.ops[k];
              && o.request.key == k
              && (o.invocation.None? ==> o.status.invokedAt.None? && (o.status.phase.Prepared? || o.status.phase.Failed?))
              && (o.invocation.Some? ==>
                    var i := o.invocation.value;
                    && o.status.invokedAt == Some(i.startedAt) && !o.status.phase.Prepared? && i.startedAt < i.deadlineAt
                    && (i.outer.Some? ==> i.startedAt <= i.outer.value.observedAt)
                    && (i.retirement.Some? ==> i.startedAt <= i.retirement.value.observedAt && (i.retirement.value.proof.TreeRetired? ==> i.outer.Some?)))
              && (o.status.phase.Prepared? || o.status.phase.Running? <==> o.status.completedAt.None?)
              && (o.status.phase.Prepared? || o.status.phase.Running? || o.status.phase.Passed? ==> o.status.error.None?)
              && (o.status.phase.Uncertain? ==> o.status.error.Some? && o.status.receipt.None?)
              && (o.status.phase.Failed? ==> o.status.error.Some? || o.status.receipt.Some?)
              && (o.status.phase.Passed? ==> o.status.receipt.Some?)
              && (o.status.receipt.Some? ==>
                    && (o.status.phase.Passed? || o.status.phase.Failed?) && o.invocation.Some? && o.status.receipt.value.runId == o.runId
                    && (o.status.phase.Passed? <==> o.status.receipt.value.passed)
                    && k in s.receipts && s.receipts[k].status == o.status)
    ensures k in s.receipts ==>
              var r := s.receipts[k];
              && k in s.ops && r.request == s.ops[k].request && r.request.key == k && s.ops[k].invocation.Some?
              && r.status.invokedAt == Some(s.ops[k].invocation.value.startedAt)
              && r.status.receipt.Some? && r.status.receipt.value.runId == s.ops[k].runId
              && (r.status.phase.Passed? || r.status.phase.Failed?) && (r.status.phase.Passed? <==> r.status.receipt.value.passed)
    ensures forall j :: j in s.ops && k in s.ops && j != k ==>
              var o, p := s.ops[j], s.ops[k];
              !(o.status.phase.Prepared? || (o.invocation.Some? && o.invocation.value.retirement.None?))
              || !(p.status.phase.Prepared? || (p.invocation.Some? && p.invocation.value.retirement.None?))
  {
    if k in s.ops { assert OperationFits(s, k); }
    if k in s.receipts { assert ReceiptFits(s, k) && OperationFits(s, k); }
    hide ReceiptFits, OperationFits;
  }

  // ---- Next records ----

  predicate AllowedTransition(previous: Status, next: Status) {
    && next.updatedAt >= previous.updatedAt
    && (|| previous == next
        || (previous.phase.Prepared? && next.phase.Failed? && next.invokedAt.None?)
        || (previous.phase.Running? && IsTerminal(next.phase))
        || (previous.phase.Uncertain? && next.receipt.Some? && (next.phase.Failed? || next.phase.Passed?)))
  }

  function NewOperation(request: Request, workspace: string, runId: nat, now: int): Operation {
    Operation(request, workspace, runId, Status(Prepared, now, None, None, None, None), None)
  }

  /** None when the store refuses. */
  function StartedRecord(o: Operation, startedAt: int, deadlineAt: int): Option<Operation> {
    if o.invocation.Some? then
      if o.invocation.value.startedAt == startedAt && o.invocation.value.deadlineAt == deadlineAt then Some(o) else None
    else if !o.status.phase.Prepared? then None
    else Some(o.(invocation := Some(Invocation(startedAt, deadlineAt, None, None)),
                 status := o.status.(phase := Running, updatedAt := startedAt, invokedAt := Some(startedAt))))
  }

  function OuterRecord(o: Operation, pid: nat, observedAt: int): Option<Operation> {
    if o.invocation.None? || !o.status.phase.Running? then None
    else if o.invocation.value.outer.Some? then if o.invocation.value.outer.value == Outer(pid, observedAt) then Some(o) else None
    else Some(o.(invocation := Some(o.invocation.value.(outer := Some(Outer(pid, observedAt)))),
                 status := o.status.(updatedAt := observedAt)))
  }

  function RetiredRecord(o: Operation, proof: Proof, observedAt: int): Option<Operation> {
    if o.invocation.None? then None
    else if o.invocation.value.retirement.Some? then
      if o.invocation.value.retirement.value == Retirement(proof, observedAt) then Some(o) else None
    else if !proof.SpawnFailed? && o.invocation.value.outer.None? then None
    else Some(o.(invocation := Some(o.invocation.value.(retirement := Some(Retirement(proof, observedAt))))))
  }

  function SettledRecord(o: Operation, phase: Phase, completedAt: int, receipt: Option<Evidence>, error: Option<ErrorCode>): Option<Operation> {
    var next := Status(phase, completedAt, o.status.invokedAt, Some(completedAt), receipt, error);
    var settled := o.(status := next);
    if !IsTerminal(phase) || !StatusOk(next) || !AllowedTransition(o.status, next) || !OperationOk(settled)
       || (phase.Passed? && receipt.None?) then None
    else Some(settled)
  }

  // ---- Writes ----

  /** Where a write stops: complete, failed before it became visible, or visible but unconfirmed. */
  datatype WriteFault = NoFault | NotWritten | Unconfirmed

  datatype Write = Write(store: Store, ok: bool)

  /** The operation file's new content, as far as the fault let it get. */
  ghost function PutOperation(s: Store, k: Key, o: Operation, fault: WriteFault): Write {
    match fault
    case NotWritten => Write(s, false)
    case NoFault => Write(s.(ops := s.ops[k := o], looseOps := map[]), true)
    case Unconfirmed => Write(s.(ops := s.ops[k := o], looseOps := Overwritten(s.ops, s.looseOps, k)), false)
  }

  /** Replaces a record if the file still holds the one the caller read. */
  ghost function CasWrite(s: Store, previous: Operation, next: Operation, fault: WriteFault): (w: Write)
    requires previous.request.key in s.ops
    ensures w.store.ops.Keys == s.ops.Keys && w.store.receipts == s.receipts && w.store.looseReceipts == s.looseReceipts
  {
    var k := previous.request.key;
    if !OperationOk(next) then Write(s, false)
    else if s.ops[k] != previous then Write(s, s.ops[k] == next)
    else PutOperation(s, k, next, fault)
  }

  /** Publishes a receipt unless one exists, which is then made durable and must be identical. */
  ghost function PublishWrite(s: Store, o: Operation, envelope: Evidence, fault: WriteFault): (w: Write)
    ensures w.store.ops == s.ops && w.store.looseOps == s.looseOps
  {
    var k := o.request.key;
    var file := ReceiptFile(o.request, o.status, envelope);
    if k in s.receipts then
      if fault.NoFault? then Write(s.(looseReceipts := map[]), s.receipts[k] == file) else Write(s, false)
    else
      match fault
      case NotWritten => Write(s, false)
      case NoFault => Write(s.(receipts := s.receipts[k := file], looseReceipts := map[]), true)
      case Unconfirmed =>
        Write(s.(receipts := s.receipts[k := file], looseReceipts := Overwritten(s.receipts, s.looseReceipts, k)), false)
  }

  datatype StoreError = IdConflict | StorageFull | StoreInvalid | WriteFailed

  predicate SameOperation(o: Operation, request: Request, workspace: string, runId: nat) {
    o.request == request && o.workspace == workspace && o.runId == runId
  }

  /** What a caller of `prepare` gets, by the store's state. */
  ghost function PrepareOutcome(s: Store, request: Request, workspace: string, runId: nat, now: int, fault: WriteFault)
    : (Store, Result<(Operation, bool), StoreError>)
  {
    var k := request.key;
    var record := NewOperation(request, workspace, runId, now);
    if k in s.ops then (s, if SameOperation(s.ops[k], request, workspace, runId) then Ok((s.ops[k], false)) else Err(IdConflict))
    else if exists j :: j in s.ops && IsBarrier(s.ops[j]) then (s, Err(IdConflict))
    else if |s.ops| >= MAX_OPERATION_FILES then (s, Err(StorageFull))
    else
      var w := PutOperation(s, k, record, fault);
      (w.store, if w.ok then Ok((record, true)) else Err(WriteFailed))
  }

  // ---- The store ----

  class CandidateStore {
    var operations: map<Key, Operation>    // the operation files
    var receipts: map<Key, ReceiptFile>    // the receipt files
    var initialized: bool
    /** What a power loss may make of the files. */
    ghost var looseOperations: Unsynced<Key, Operation>
    ghost var looseReceipts: Unsynced<Key, ReceiptFile>

    ghost function View(): Store
      reads this
    {
      Store(operations, receipts, looseOperations, looseReceipts)
    }

    constructor (disk: Store)
      ensures View() == disk && !initialized
    {
      operations, receipts, initialized := disk.ops, disk.receipts, false;
      looseOperations, looseReceipts := disk.looseOps, disk.looseReceipts;
    }

    /** Recovers the directories, then accepts the files exactly when every check holds. */
    method Initialize(sweptOperations: bool, sweptReceipts: bool) returns (ok: bool)
      modifies this`initialized, this`looseOperations, this`looseReceipts
      ensures ok <==> old(initialized) || StartAccepts(View())
      ensures initialized <==> ok
      ensures View() == if old(initialized) then old(View()) else Recovered(old(View()), sweptOperations, sweptReceipts)
    {
      if initialized { return true; }
      if sweptOperations { looseOperations := map[]; }
      if sweptReceipts { looseReceipts := map[]; }
      if |operations| > MAX_OPERATION_FILES || |receipts| > MAX_OPERATION_FILES { return false; }
      CrossChecksReadFiles(View(), Synced(operations, receipts));
      hide Accepted;
      ok := CrossCheck(Synced(operations, receipts));
      initialized := ok;
    }

    /** The scan over both directories. */
    static method CrossCheck(found: Store) returns (ok: bool)
      ensures ok <==> Accepted(found)
    {
      hide OperationFits, ReceiptFits, IsBarrier;
      var left, barrier := found.ops.Keys, None;
      while left != {}
        invariant left <= found.ops.Keys
        invariant forall k :: k in found.ops && k !in left ==> OperationFits(found, k)
        invariant barrier.Some? ==> barrier.value in found.ops && IsBarrier(found.ops[barrier.value])
        invariant forall k :: k in found.ops && k !in left && IsBarrier(found.ops[k]) ==> barrier == Some(k)
        decreases left
      {
        var k :| k in left;
        if !OperationFits(found, k) { return false; }
        if IsBarrier(found.ops[k]) {
          if barrier.Some? && barrier.value != k { return false; }
          barrier := Some(k);
        }
        left := left - {k};
      }
      left := found.receipts.Keys;
      while left != {}
        invariant left <= found.receipts.Keys
        invariant forall k :: k in found.receipts && k !in left ==> ReceiptFits(found, k)
        decreases left
      {
        var k :| k in left;
        if !ReceiptFits(found, k) { return false; }
        left := left - {k};
      }
      ok := true;
    }

    method Prepare(request: Request, workspace: string, runId: nat, now: int, fault: WriteFault)
      returns (r: Result<(Operation, bool), StoreError>)
      requires initialized
      modifies this`operations, this`looseOperations
      ensures (View(), r) == PrepareOutcome(old(View()), request, workspace, runId, now, fault)
    {
      if request.key in operations {
        var existing := operations[request.key];
        return if SameOperation(existing, request, workspace, runId) then Ok((existing, false)) else Err(IdConflict);
      }
      if exists j :: j in operations && IsBarrier(operations[j]) { return Err(IdConflict); }
      if |operations| >= MAX_OPERATION_FILES { return Err(StorageFull); }
      var record := NewOperation(request, workspace, runId, now);
      var written := WriteOperation(request.key, record, fault);
      r := if written then Ok((record, true)) else Err(WriteFailed);
    }

    method ReplaceUnlocked(previous: Operation, next: Operation, fault: WriteFault) returns (r: Result<Operation, StoreError>)
      requires initialized && previous.request.key in operations
      modifies this`operations, this`looseOperations
      ensures Write(View(), r.Ok?) == CasWrite(old(View()), previous, next, fault)
      ensures r.Ok? ==> r.value == next
    {
      if !OperationOk(next) { return Err(StoreInvalid); }
      var current := operations[previous.request.key];
      if current != previous { return if current == next then Ok(current) else Err(IdConflict); }
      var written := WriteOperation(previous.request.key, next, fault);
      r := if written then Ok(next) else Err(WriteFailed);
    }

    /** A flushed sibling takes the file's name, and the directory is synced. */
    method WriteOperation(k: Key, o: Operation, fault: WriteFault) returns (ok: bool)
      modifies this`operations, this`looseOperations
      ensures Write(View(), ok) == PutOperation(old(View()), k, o, fault)
    {
      if fault.NotWritten? { return false; }
      looseOperations := Overwritten(operations, looseOperations, k);
      operations := operations[k := o];
      if fault.Unconfirmed? { return false; }
      looseOperations := map[];
      ok := true;
    }

    method MarkInvocationStarted(record: Operation, startedAt: int, deadlineAt: int, fault: WriteFault)
      returns (r: Result<Operation, StoreError>)
      requires initialized && record.request.key in operations
      modifies this`operations, this`looseOperations
      ensures MarkedAs(old(View()), record, StartedRecord(record, startedAt, deadlineAt), fault, View(), r)
    {
      if record.invocation.Some? {
        return if record.invocation.value.startedAt == startedAt && record.invocation.value.deadlineAt == deadlineAt
               then Ok(record) else Err(StoreInvalid);
      }
      if !record.status.phase.Prepared? { return Err(StoreInvalid); }
      r := ReplaceUnlocked(record, record.(
        invocation := Some(Invocation(startedAt, deadlineAt, None, None)),
        status := record.status.(phase := Running, updatedAt := startedAt, invokedAt := Some(startedAt))), fault);
    }

    method MarkOuterProcess(record: Operation, pid: nat, observedAt: int, fault: WriteFault)
      returns (r: Result<Operation, StoreError>)
      requires initialized && record.request.key in operations
      modifies this`operations, this`looseOperations
      ensures MarkedAs(old(View()), record, OuterRecord(record, pid, observedAt), fault, View(), r)
    {
      if record.invocation.None? || !record.status.phase.Running? { return Err(StoreInvalid); }
      var invocation := record.invocation.value;
      if invocation.outer.Some? { return if invocation.outer.value == Outer(pid, observedAt) then Ok(record) else Err(StoreInvalid); }
      r := ReplaceUnlocked(record, record.(
        invocation := Some(invocation.(outer := Some(Outer(pid, observedAt)))),
        status := record.status.(updatedAt := observedAt)), fault);
    }

    method MarkInvocationRetired(record: Operation, proof: Proof, observedAt: int, fault: WriteFault)
      returns (r: Result<Operation, StoreError>)
      requires initialized && record.request.key in operations
      modifies this`operations, this`looseOperations
      ensures MarkedAs(old(View()), record, RetiredRecord(record, proof, observedAt), fault, View(), r)
    {
      if record.invocation.None? { return Err(StoreInvalid); }
      var invocation := record.invocation.value;
      if invocation.retirement.Some? {
        return if invocation.retirement.value == Retirement(proof, observedAt) then Ok(record) else Err(StoreInvalid);
      }
      if !proof.SpawnFailed? && invocation.outer.None? { return Err(StoreInvalid); }
      r := ReplaceUnlocked(record, record.(invocation := Some(invocation.(retirement := Some(Retirement(proof, observedAt))))), fault);
    }

    /** Settles a record; a receipt becomes immutable before the status that cites it is written. */
    method Settle(record: Operation, phase: Phase, completedAt: int, receipt: Option<Evidence>, error: Option<ErrorCode>,
                  publishFault: WriteFault, fault: WriteFault)
      returns (r: Result<Operation, StoreError>)
      requires initialized && record.request.key in operations && IsTerminal(phase)
      modifies this`operations, this`receipts, this`looseOperations, this`looseReceipts
      ensures var settled := SettledRecord(record, phase, completedAt, receipt, error);
              if settled.None? then r.Err? && View() == old(View())
              else if receipt.Some? then
                var published := PublishWrite(old(View()), settled.value, receipt.value, publishFault);
                if !published.ok then r.Err? && View() == published.store
                else ReplacedBy(published.store, record, settled.value, fault, View(), r)
              else ReplacedBy(old(View()), record, settled.value, fault, View(), r)
    {
      var status := Status(phase, completedAt, record.status.invokedAt, Some(completedAt), receipt, error);
      if !StatusOk(status) || !AllowedTransition(record.status, status) { return Err(StoreInvalid); }
      var next := record.(status := status);
      if !OperationOk(next) { return Err(StoreInvalid); }
      if receipt.Some? {
        var published := PublishReceipt(next, receipt.value, publishFault);
        if !published { return Err(IdConflict); }
      } else if phase.Passed? {
        return Err(StoreInvalid);
      }
      r := ReplaceUnlocked(record, next, fault);
    }

    method PublishReceipt(record: Operation, envelope: Evidence, fault: WriteFault) returns (ok: bool)
      modifies this`receipts, this`looseReceipts
      ensures Write(View(), ok) == PublishWrite(old(View()), record, envelope, fault)
    {
      var file := ReceiptFile(record.request, record.status, envelope);
      if record.request.key in receipts {
        if !fault.NoFault? { return false; }
        looseReceipts := map[];
        return receipts[record.request.key] == file;
      }
      if fault.NotWritten? { return false; }
      looseReceipts := Overwritten(receipts, looseReceipts, record.request.key);
      receipts := receipts[record.request.key := file];
      if fault.Unconfirmed? { return false; }
      looseReceipts := map[];
      ok := true;
    }
  }

  /** The outcome of replacing a record. */
  ghost predicate ReplacedBy(before: Store, record: Operation, next: Operation, fault: WriteFault,
                             after: Store, r: Result<Operation, StoreError>)
    requires record.request.key in before.ops
  {
    Write(after, r.Ok?) == CasWrite(before, record, next, fault) && (r.Ok? ==> r.value == next)
  }

  /** The outcome of moving a record to `next`, of refusing to, or of finding it there already. */
  ghost predicate MarkedAs(before: Store, record: Operation, next: Option<Operation>, fault: WriteFault,
                           after: Store, r: Result<Operation, StoreError>)
    requires record.request.key in before.ops
  {
    if next.None? then r.Err? && after == before
    else if next.value == record then r == Ok(record) && after == before
    else ReplacedBy(before, record, next.value, fault, after, r)
  }
}
