/** What every run of the candidate evaluation coordinator keeps. */
module CandidateSafety {
  import opened Outcomes
  import opened UnsyncedFiles
  import opened CandidateStores
  import opened CandidateVersions
  import opened CandidateCoordinators

  ghost predicate NoRepeats(s: seq<Key>) {
    forall i, j :: 0 <= i < j < |s| ==> s[i] != s[j]
  }

  /** A stored receipt is the evidence of its operation, whose status either is
      the receipt's or can still become it. */
  predicate ReceiptSound(s: Store, k: Key)
    requires k in s.receipts && k in s.ops
  {
    var r, o := s.receipts[k], s.ops[k];
    && Correlated(r, o) && r.status.updatedAt == r.envelope.completedAt
    && (r.status.phase.Passed? <==> r.envelope.passed)
    && (o.status.receipt.Some? || o.status.phase.Running? || o.status.phase.Uncertain?)
  }

  /** Whatever a power loss leaves, a launched operation has its invocation, and one
      whose process tree runs has no retirement evidence. */
  ghost predicate WorldOk(s: Store, launched: seq<Key>, alive: set<Key>) {
    && NoRepeats(launched)
    && (forall k, v :: k in launched && OpMay(s, k, v) ==> v.Some? && v.value.invocation.Some?)
    && (forall k :: k in alive ==> k in launched)
    && (forall k, v :: k in alive && OpMay(s, k, v) ==>
          v.Some? && v.value.invocation.Some? && v.value.invocation.value.retirement.None?)
    && (forall j, k :: j in alive && k in alive ==> j == k)
  }

  ghost predicate Core(s: State) {
    Accepted(s.store) && FilesInv(s.store) && WorldOk(s.store, s.launched, s.alive)
  }

  /** The carried record is what its file holds. */
  predicate Current(s: State, c: Operation) {
    c.request.key in s.store.ops && s.store.ops[c.request.key] == c
  }

  ghost predicate StageInv(s: State) {
    match s.stage
    case Idle => true
    case Checking(c) => Current(s, c) && c.status.phase.Prepared?
    case Launching(c) => Unlaunchable(s, c) && s.store.looseOps == map[]
    case Unlaunched(c) => Unlaunchable(s, c)
    case FailingUnlaunched(c) => Current(s, c) && Unpublished(s, c) && c.request.key !in s.launched
    case Launched(c) => Current(s, c) && Unpublished(s, c)
    case ReadingEvidence(c) => Current(s, c)
    case Publishing(c, next) =>
      && Current(s, c) && c.request.key in s.store.receipts && next == c.(status := s.store.receipts[c.request.key].status)
      && c.request.key !in s.store.looseReceipts
      && c.status.receipt.None? && next.status.updatedAt >= c.status.updatedAt && OperationOk(next)
    case Caught(c) => OperationOk(c) && c.request.key in s.store.ops
    case Concluding(c) => OperationOk(c) && c.request.key in s.store.ops
  }

  /** Invoked, running and without evidence. */
  predicate Unpublished(s: State, c: Operation) {
    c.invocation.Some? && c.status.phase.Running? && c.request.key !in s.store.receipts
  }

  predicate Unlaunchable(s: State, c: Operation) {
    Current(s, c) && Unpublished(s, c) && c.invocation.value.retirement.None? && c.request.key !in s.launched
  }

  /** What holds while the daemon serves. */
  ghost predicate Live(s: State) {
    s.ready && Carried(s) && Core(s) && StageInv(s)
  }

  ghost predicate Inv(s: State) {
    if s.ready then Live(s)
    else s.stage.Idle? && FilesInv(s.store) && WorldOk(s.store, s.launched, s.alive)
  }

  // ---- What later states keep of earlier ones ----

  /** Every version of the operation has this status. */
  ghost predicate Stands(s: Store, k: Key, status: Status) {
    forall v :: OpMay(s, k, v) ==> v.Some? && v.value.status == status
  }

  /** No version of the operation is older than this. */
  ghost predicate NotBefore(s: Store, k: Key, at: int) {
    forall v :: OpMay(s, k, v) ==> v.Some? && v.value.status.updatedAt >= at
  }

  predicate DurableReceipt(s: Store, k: Key) {
    k in s.receipts && k !in s.looseReceipts
  }

  /** Whatever happens, power loss included: a durable receipt never changes, neither
      does a durable status backed by one, and its operation does not get older. */
  ghost predicate KeptDurably(s: Store, t: Store) {
    && (forall k :: DurableReceipt(s, k) ==> DurableReceipt(t, k) && t.receipts[k] == s.receipts[k])
    && (forall k, status :: Stands(s, k, status) && status.receipt.Some? ==> Stands(t, k, status))
    && (forall k, at :: DurableReceipt(s, k) && NotBefore(s, k, at) ==> NotBefore(t, k, at))
  }

  /** As long as no power is lost: the same of the files as they are. */
  ghost predicate KeptVisibly(s: Store, t: Store) {
    && (forall k :: k in s.receipts && k in s.ops ==>
         k in t.receipts && t.receipts[k] == s.receipts[k] && k in t.ops && t.ops[k].status.updatedAt >= s.ops[k].status.updatedAt)
    && (forall k :: k in s.ops && s.ops[k].status.receipt.Some? ==> k in t.ops && t.ops[k].status == s.ops[k].status)
  }

  ghost predicate Kept(s: Store, t: Store) { KeptDurably(s, t) && KeptVisibly(s, t) }

  ghost predicate Keeps(s: State, t: State) { Live(t) && Kept(s.store, t.store) }

  /** Nothing new among the versions. */
  ghost predicate Fewer(s: Store, t: Store) {
    && (forall k, v :: OpMay(t, k, v) ==> OpMay(s, k, v))
    && (forall k :: DurableReceipt(s, k) ==> DurableReceipt(t, k) && t.receipts[k] == s.receipts[k])
  }

  lemma FewerIsKept(s: Store, t: Store)
    requires Fewer(s, t)
    ensures KeptDurably(s, t)
  {
    hide OpMay, DurableReceipt;
  }

  lemma FewerKeepsWorld(s: Store, t: Store, launched: seq<Key>, alive: set<Key>)
    requires Fewer(s, t) && WorldOk(s, launched, alive)
    ensures WorldOk(t, launched, alive)
  {
    hide OpMay, DurableReceipt, NoRepeats;
  }

  lemma KeptAtOnce(s: State)
    ensures Kept(s.store, s.store)
  {}

  // ---- One write ----

  /** What a write may change about the record it replaces. */
  predicate Legal(s: State, c: Operation, next: Operation) {
    var k := c.request.key;
    && LegalVersion(s.store, c, next)
    && (k in s.store.receipts ==> next.status.updatedAt >= c.status.updatedAt)
    && (c.status.receipt.Some? ==> next.status == c.status)
    && (next.invocation.Some? && next.invocation.value.retirement.Some? ==>
         k !in s.alive || (c.invocation.Some? && c.invocation.value.retirement.Some?))
  }

  lemma LegalKeepsAccepted(s: Store, c: Operation, next: Operation, fault: WriteFault)
    requires Accepted(s) && FilesInv(s) && c.request.key in s.ops && s.ops[c.request.key] == c
    requires OperationOk(next) && LegalVersion(s, c, next)
    ensures Accepted(PutOperation(s, c.request.key, next, fault).store)
  {
    var k := c.request.key;
    var t := PutOperation(s, k, next, fault).store;
    hide OperationOk, IsBarrier, FilesInv, Dead;
    assert OperationFits(s, k);
    forall j | j in t.ops ensures OperationFits(t, j) { assert OperationFits(s, j); }
    forall j | j in t.receipts ensures ReceiptFits(t, j) { assert ReceiptFits(s, j); }
    assert OneBarrier(t.ops);
  }

  lemma LegalKeepsWorld(s: State, c: Operation, next: Operation, fault: WriteFault)
    requires WorldOk(s.store, s.launched, s.alive) && Current(s, c) && Legal(s, c, next)
    ensures WorldOk(PutOperation(s.store, c.request.key, next, fault).store, s.launched, s.alive)
  {
    var k := c.request.key;
    var t := PutOperation(s.store, k, next, fault).store;
    assert OpMay(s.store, k, Some(c));
    hide IsBarrier, NoRepeats;
    forall j, v | OpMay(t, j, v) ensures OpMay(s.store, j, v) || (j == k && v == Some(next)) {
      PutVersions(s.store, k, next, fault, j, v);
    }
    hide OpMay, PutOperation;
  }

  lemma LegalIsKept(s: State, c: Operation, next: Operation, fault: WriteFault)
    requires Current(s, c) && Legal(s, c, next)
    ensures Kept(s.store, PutOperation(s.store, c.request.key, next, fault).store)
  {
    var k := c.request.key;
    var t := PutOperation(s.store, k, next, fault).store;
    assert OpMay(s.store, k, Some(c));
    hide IsBarrier, LegalVersion;
    forall j, v | OpMay(t, j, v) ensures OpMay(s.store, j, v) || (j == k && v == Some(next)) {
      PutVersions(s.store, k, next, fault, j, v);
    }
    assert t.receipts == s.store.receipts && t.looseReceipts == s.store.looseReceipts;
    assert KeptVisibly(s.store, t);
    hide OpMay, PutOperation;
  }

  lemma CasKeepsCore(s: State, c: Operation, next: Operation, fault: WriteFault)
    requires Core(s) && c.request.key in s.store.ops
    requires Current(s, c) && OperationOk(next) ==> Legal(s, c, next)
    ensures var w := CasWrite(s.store, c, next, fault);
            && Core(s.(store := w.store)) && w.store.receipts == s.store.receipts && w.store.looseReceipts == s.store.looseReceipts
            && Kept(s.store, w.store)
            && (w.ok ==> w.store.ops[c.request.key] == next && OperationOk(next))
            && (w.ok && Current(s, c) ==> w.store.looseOps == map[])
  {
    hide Accepted, FilesInv, WorldOk, OperationOk, Legal, Kept, OneBarrier;
    KeptAtOnce(s);
    assert s.(store := s.store) == s;
    if Current(s, c) && OperationOk(next) {
      assert LegalVersion(s.store, c, next) by { LegalHasVersion(s, c, next); }
      LegalKeepsAccepted(s.store, c, next, fault);
      assert OneBarrier(s.store.ops) by { AcceptedIsApart(s.store); }
      ReplaceKeepsFiles(s.store, c, next, fault);
      LegalKeepsWorld(s, c, next, fault);
      LegalIsKept(s, c, next, fault);
    } else {
      AcceptedIsOk(s, c.request.key);
    }
  }

  lemma LegalHasVersion(s: State, c: Operation, next: Operation)
    requires Legal(s, c, next)
    ensures LegalVersion(s.store, c, next)
  {
    hide LegalVersion;
  }

  lemma AcceptedIsApart(s: Store)
    requires Accepted(s)
    ensures OneBarrier(s.ops)
  {
    hide OneBarrier;
  }

  lemma AcceptedIsOk(s: State, k: Key)
    requires Core(s) && k in s.store.ops
    ensures OperationOk(s.store.ops[k])
  {
    assert OperationFits(s.store, k);
  }

  /** The step lemma behind every status or invocation write of the section. */
  lemma MovedKeepsCore(s: State, c: Operation, next: Option<Operation>, fault: WriteFault, after: Stage)
    requires Core(s) && c.request.key in s.store.ops
    requires next.Some? && Current(s, c) && OperationOk(next.value) ==> Legal(s, c, next.value)
    ensures var t := Moved(s, c, next, fault, after);
            && Core(t) && Kept(s.store, t.store)
            && (t.stage == after && !after.Idle? ==> next.Some?)
            && (t.stage == after && !after.Idle? && next.value != c ==>
                  && t.store.ops[c.request.key] == next.value && OperationOk(next.value)
                  && (Current(s, c) ==> t.store.looseOps == map[]))
  {
    hide Core, OperationOk, CasWrite, Legal, Kept;
    KeptAtOnce(s);
    var t := Moved(s, c, next, fault, after);
    if next.Some? && next.value != c {
      CasKeepsCore(s, c, next.value, fault);
      CoreIgnoresStage(s.(store := t.store), t.stage);
    } else {
      CoreIgnoresStage(s, t.stage);
    }
  }

  lemma CoreIgnoresStage(s: State, stage: Stage)
    requires Core(s)
    ensures Core(s.(stage := stage))
  {
    hide Accepted, FilesInv, WorldOk;
  }

  lemma CoreAt(s: State, c: Operation)
    requires Core(s) && Current(s, c)
    ensures OperationOk(c) && (c.status.phase.Prepared? ==> c.request.key !in s.store.receipts)
    ensures c.request.key in s.store.receipts ==>
              ReceiptFits(s.store, c.request.key) && ReceiptSound(s.store, c.request.key) && !Dead(c)
    ensures c.status.receipt.Some? ==> DurableReceipt(s.store, c.request.key) && s.store.receipts[c.request.key].status == c.status
    ensures UpdatedAtStart(c)
  {
    var k := c.request.key;
    assert OperationFits(s.store, k);
    assert OpMay(s.store, k, Some(c)) && VersionOk(s.store, k, c);
    hide BarriersApart, OneBarrier;
    if k in s.store.receipts { assert ReceiptFits(s.store, k) && Sealed(s.store.receipts[k]); }
  }

  /** Settling without a receipt: prepared or running becomes failed or uncertain. */
  lemma SettleIsLegal(s: State, c: Operation, phase: Phase, now: int, error: ErrorCode)
    requires Core(s) && StatusOk(c.status)
    requires SettledRecord(c, phase, now, None, Some(error)).Some?
    requires phase.Uncertain? || (phase.Failed? && c.request.key !in s.store.receipts)
    ensures Legal(s, c, SettledRecord(c, phase, now, None, Some(error)).value)
  {}

  // ---- Steps, one by one ----

  lemma NewOperationIsAccepted(s: Store, record: Operation, fault: WriteFault)
    requires Accepted(s) && record.request.key !in s.ops && forall j :: j in s.ops ==> !IsBarrier(s.ops[j])
    requires record == NewOperation(record.request, record.workspace, record.runId, record.status.updatedAt)
    ensures Accepted(PutOperation(s, record.request.key, record, fault).store) && record.request.key !in s.receipts
  {
    var k := record.request.key;
    var t := PutOperation(s, k, record, fault).store;
    forall j | j in t.ops ensures OperationFits(t, j) { if j != k { assert OperationFits(s, j); } }
    forall j | j in t.receipts ensures ReceiptFits(t, j) { assert ReceiptFits(s, j); }
    assert k in s.receipts ==> ReceiptFits(s, k);
  }

  lemma NewOperationIsKept(s: Store, record: Operation, fault: WriteFault, launched: seq<Key>, alive: set<Key>)
    requires WorldOk(s, launched, alive) && record.request.key !in s.ops && record.request.key !in s.receipts
    ensures var t := PutOperation(s, record.request.key, record, fault).store;
            Kept(s, t) && WorldOk(t, launched, alive)
  {
    var k := record.request.key;
    var t := PutOperation(s, k, record, fault).store;
    assert OpMay(s, k, None);
    hide IsBarrier, NoRepeats;
    forall j, v | OpMay(t, j, v) ensures OpMay(s, j, v) || (j == k && v == Some(record)) { PutVersions(s, k, record, fault, j, v); }
    assert t.receipts == s.receipts && t.looseReceipts == s.looseReceipts && KeptVisibly(s, t);
    hide OpMay, PutOperation;
  }

  lemma StartKeepsInv(s: State, e: Event)
    requires Live(s) && e.Start?
    ensures Keeps(s, Step(s, e))
  {
    hide FilesInv, WorldOk, OperationOk, IsBarrier, Kept, Accepted;
    KeptAtOnce(s);
    if Step(s, e) != s {
      var record := NewOperation(e.request, e.workspace, e.runId, e.now);
      NewOperationIsAccepted(s.store, record, e.fault);
      NewOperationIsKept(s.store, record, e.fault, s.launched, s.alive);
      CreateKeepsFiles(s.store, record, e.fault);
    }
  }

  /** A write after which the section is left. */
  lemma LastWriteKeepsInv(s: State, c: Operation, next: Option<Operation>, fault: WriteFault)
    requires Live(s) && c.request.key in s.store.ops
    requires next.Some? && Current(s, c) && OperationOk(next.value) ==> Legal(s, c, next.value)
    ensures Keeps(s, Moved(s, c, next, fault, Idle))
  {
    MovedKeepsCore(s, c, next, fault, Idle);
    hide Core, Moved, Kept, Legal, OperationOk;
  }

  lemma CheckFailsKeepsInv(s: State, c: Operation, now: int, error: ErrorCode, fault: WriteFault)
    requires Live(s) && s.stage == Checking(c)
    ensures Keeps(s, Moved(s, c, FailedRecord(c, now, error), fault, Idle))
  {
    hide Core, Kept, Legal, SettledRecord, Moved, OperationOk;
    CoreAt(s, c);
    assert StatusOk(c.status) by { OkStatus(c); }
    var next := FailedRecord(c, now, error);
    if next.Some? { SettleIsLegal(s, c, Failed, now, error); }
    LastWriteKeepsInv(s, c, next, fault);
  }

  lemma NotLaunched(s: State, c: Operation)
    requires Core(s) && Current(s, c) && c.invocation.None?
    ensures c.request.key !in s.launched
  {
    assert OpMay(s.store, c.request.key, Some(c));
    hide Accepted, FilesInv;
  }

  lemma StartedIsLegal(s: State, c: Operation, now: int, deadlineAt: int)
    requires Live(s) && s.stage == Checking(c)
    ensures var next := StartedRecord(c, now, deadlineAt);
            && c.invocation.None? && next.Some? && Legal(s, c, next.value) && next.value != c && next.value.request == c.request
            && next.value.invocation.Some? && next.value.invocation.value.retirement.None? && next.value.status.phase.Running?
  {
    CoreAt(s, c);
    hide Core;
  }

  lemma CheckKeepsInv(s: State, e: Event)
    requires Live(s) && (e.CheckFails? || e.CheckPasses?)
    ensures Keeps(s, Step(s, e))
  {
    hide Core, Legal, OperationOk, SettledRecord, StartedRecord, Moved, Kept;
    KeptAtOnce(s);
    if s.stage.Checking? {
      var c := s.stage.current;
      CheckFailsKeepsInv(s, c, e.now, if e.CheckFails? && e.changed then CandidateChanged else NotInvoked, e.fault);
      if e.CheckPasses? && !s.closed {
        var next := StartedRecord(c, e.now, e.deadlineAt);
        StartedIsLegal(s, c, e.now, e.deadlineAt);
        CoreAt(s, c);
        NotLaunched(s, c);
        MovedKeepsCore(s, c, next, e.fault, Launching(next.value));
      }
    }
  }

  lemma UnlaunchedKeepsInv(s: State, e: Event)
    requires Live(s) && (e.RetireUnlaunched? || e.FailUnlaunched?)
    ensures Keeps(s, Step(s, e))
  {
    hide Core, Legal, OperationOk, SettledRecord, Moved, Kept;
    KeptAtOnce(s);
    if e.RetireUnlaunched? && s.stage.Unlaunched? {
      var c := s.stage.current;
      var next := RetiredRecord(c, SpawnFailed, e.now);
      assert c.request.key !in s.alive by { AliveIsLaunched(s); }
      RetiringIsLegal(s, c, SpawnFailed, e.now);
      MovedKeepsCore(s, c, next, e.fault, FailingUnlaunched(next.value));
    } else if e.FailUnlaunched? && s.stage.FailingUnlaunched? {
      var c := s.stage.current;
      var next := FailedRecord(c, e.now, LaunchFailed);
      CoreAt(s, c);
      assert StatusOk(c.status) by { OkStatus(c); }
      if next.Some? { SettleIsLegal(s, c, Failed, e.now, LaunchFailed); }
      LastWriteKeepsInv(s, c, next, e.fault);
    }
  }

  lemma OkStatus(c: Operation)
    requires OperationOk(c)
    ensures StatusOk(c.status)
  {}

  lemma AliveIsLaunched(s: State)
    requires Core(s)
    ensures forall k :: k in s.alive ==> k in s.launched
  {
    hide Accepted, FilesInv, OpMay;
  }

  /** At a launch every other invocation is retired, so no other process tree runs. */
  lemma LaunchIsAlone(s: State, c: Operation)
    requires Live(s) && s.stage == Launching(c)
    ensures s.alive == {} && IsBarrier(c)
    ensures forall j :: j in s.store.ops && j != c.request.key ==> !IsBarrier(s.store.ops[j])
  {
    hide FilesInv, OperationFits, ReceiptFits, IsBarrier, NoRepeats;
    assert IsBarrier(c) by { InvokedIsBarrier(c); }
    forall j | j in s.alive ensures false {
      assert OpMay(s.store, j, VersionOf(s.store.ops, j));
      InvokedIsBarrier(s.store.ops[j]);
    }
  }

  lemma InvokedIsBarrier(o: Operation)
    requires o.invocation.Some? && o.invocation.value.retirement.None?
    ensures IsBarrier(o)
  {}

  lemma NoRepeatsGrows(s: seq<Key>, k: Key)
    requires NoRepeats(s) && k !in s
    ensures NoRepeats(s + [k])
  {}

  lemma NewlyAlive(s: Store, launched: seq<Key>, k: Key, c: Operation)
    requires WorldOk(s, launched, {}) && k !in launched && (forall v :: OpMay(s, k, v) ==> v == Some(c))
    requires c.invocation.Some? && c.invocation.value.retirement.None?
    ensures WorldOk(s, launched + [k], {k})
  {
    NoRepeatsGrows(launched, k);
    hide OpMay, NoRepeats;
  }

  lemma LaunchKeepsWorld(s: State, c: Operation)
    requires Live(s) && s.stage == Launching(c)
    ensures WorldOk(s.store, s.launched + [c.request.key], s.alive + {c.request.key})
  {
    LaunchIsAlone(s, c);
    hide FilesInv, Accepted, IsBarrier, WorldOk;
    var k := c.request.key;
    assert forall v :: OpMay(s.store, k, v) ==> v == Some(c);
    assert s.alive == {} && s.alive + {k} == {k};
    NewlyAlive(s.store, s.launched, k, c);
  }

  lemma LaunchKeepsInv(s: State, e: Event)
    requires Live(s) && (e.Launch? || e.PublishOuter?)
    ensures Keeps(s, Step(s, e))
  {
    hide Accepted, FilesInv, WorldOk, OperationOk, Legal, Kept, Moved, OuterRecord;
    KeptAtOnce(s);
    if e.Launch? && s.stage.Launching? {
      LaunchKeepsWorld(s, s.stage.current);
    } else if e.PublishOuter? && s.stage.Launched? {
      OuterIsLegal(s, s.stage.current, e.pid, e.now);
      LastWriteKeepsInv(s, s.stage.current, OuterRecord(s.stage.current, e.pid, e.now), e.fault);
    }
  }

  lemma OuterIsLegal(s: State, c: Operation, pid: nat, now: int)
    requires Live(s) && s.stage == Launched(c)
    ensures var next := OuterRecord(c, pid, now); next.Some? && OperationOk(next.value) ==> Legal(s, c, next.value)
  {
    CoreAt(s, c);
    hide Core, OperationOk;
  }

  lemma RetiringIsLegal(s: State, c: Operation, proof: Proof, now: int)
    requires Core(s) && Current(s, c) && c.request.key !in s.alive && c.invocation.Some? && c.invocation.value.retirement.None?
    requires RetiredRecord(c, proof, now).Some?
    ensures Legal(s, c, RetiredRecord(c, proof, now).value)
  {
    CoreAt(s, c);
    hide Core, OperationOk, StatusOk;
  }

  lemma ConcludeKeepsInv(s: State, c: Operation, gone: bool, now: int, fault: WriteFault)
    requires Live(s) && s.stage == Concluding(c)
    ensures Keeps(s, StepConclude(s, c, gone, now, fault))
  {
    var failed := FailedRecord(c, now, NotInvoked);
    var uncertain := UncertainRecord(c, now, OutcomeUnknown);
    var retired := RetiredRecord(c, TreeRetired, now);
    hide Core, Kept, Legal, SettledRecord, RetiredRecord, Moved, StatusOk;
    KeptAtOnce(s);
    CoreIgnoresStage(s, Idle);
    if Current(s, c) {
      CoreAt(s, c);
      if failed.Some? && c.status.phase.Prepared? { SettleIsLegal(s, c, Failed, now, NotInvoked); }
      if uncertain.Some? { SettleIsLegal(s, c, Uncertain, now, OutcomeUnknown); }
    }
    if c.status.phase.Prepared? {
      MovedKeepsCore(s, c, failed, fault, Idle);
    } else if c.invocation.Some? {
      var i := c.invocation.value;
      if i.retirement.None? && i.outer.Some? && gone && c.request.key !in s.alive {
        RetiredHere(c, now);
        if Current(s, c) { RetiringIsLegal(s, c, TreeRetired, now); }
        MovedKeepsCore(s, c, retired, fault, Concluding(retired.value));
      } else {
        MovedKeepsCore(s, c, uncertain, fault, Idle);
      }
    }
  }

  lemma RetiredHere(c: Operation, now: int)
    requires c.invocation.Some? && c.invocation.value.retirement.None? && c.invocation.value.outer.Some?
    ensures var r := RetiredRecord(c, TreeRetired, now); r.Some? && r.value.request == c.request && r.value != c
  {}

  lemma CaughtKeepsInv(s: State, e: Event)
    requires Live(s) && e.HandleCaught? && s.stage.Caught?
    ensures Keeps(s, Step(s, e))
  {
    hide Core, Kept, Legal, SettledRecord, Moved, OperationOk, StatusOk;
    var c := s.stage.current;
    var next := UncertainRecord(c, e.now, ReceiptInvalid);
    assert StatusOk(c.status) by { OkStatus(c); }
    KeptAtOnce(s);
    CoreIgnoresStage(s, Concluding(c));
    CoreIgnoresStage(s, Idle);
    if next.Some? { SettleIsLegal(s, c, Uncertain, e.now, ReceiptInvalid); }
    if next.Some? { SettledKeepsRequest(c, Uncertain, e.now, None, Some(ReceiptInvalid)); }
    MovedKeepsCore(s, c, next, e.fault, if next.Some? then Concluding(next.value) else Idle);
  }

  lemma SettledKeepsRequest(c: Operation, phase: Phase, at: int, receipt: Option<Evidence>, error: Option<ErrorCode>)
    requires SettledRecord(c, phase, at, receipt, error).Some?
    ensures SettledRecord(c, phase, at, receipt, error).value.request == c.request
  {}

  lemma RejectionKeepsInv(s: State, e: Event)
    requires Live(s) && e.RejectCompletion?
    ensures Keeps(s, Step(s, e))
  {
    hide Core, Kept, Legal, SettledRecord, Moved, OperationOk;
    KeptAtOnce(s);
    if Step(s, e) != s {
      var c := s.store.ops[e.key];
      CoreAt(s, c);
      assert StatusOk(c.status) by { OkStatus(c); }
      var next := UncertainRecord(c, e.now, OutcomeUnknown);
      if next.Some? { SettleIsLegal(s, c, Uncertain, e.now, OutcomeUnknown); }
      LastWriteKeepsInv(s, c, next, e.fault);
    }
  }

  lemma ReplaceIsLegal(s: State, c: Operation, next: Operation)
    requires Live(s) && s.stage == Publishing(c, next)
    ensures Legal(s, c, next) && OperationOk(c)
  {
    CoreAt(s, c);
    hide Core, OperationOk, StatusOk;
  }

  lemma ReplaceKeepsInv(s: State, c: Operation, next: Operation, fault: WriteFault)
    requires Live(s) && s.stage == Publishing(c, next)
    ensures Keeps(s, StepReplace(s, c, next, fault))
  {
    hide Core, Legal, CasWrite;
    ReplaceIsLegal(s, c, next);
    CasKeepsCore(s, c, next, fault);
    var t := StepReplace(s, c, next, fault);
    CoreIgnoresStage(s.(store := t.store), t.stage);
  }

  lemma EvidencedIsSealed(c: Operation, e: Evidence)
    requires OperationOk(c) && c.status.receipt.None? && EvidencedRecord(c, e).Some?
    ensures var next := EvidencedRecord(c, e).value;
            && next == c.(status := next.status) && OperationOk(next) && Sealed(ReceiptFile(next.request, next.status, e))
            && c.invocation.Some? && next.status.invokedAt == c.status.invokedAt && next.status.receipt == Some(e) && e.runId == c.runId
            && !Dead(c) && next.status.updatedAt >= c.status.updatedAt
  {}

  lemma SameOpsKeepWorld(s: Store, t: Store, launched: seq<Key>, alive: set<Key>)
    requires WorldOk(s, launched, alive) && s.ops == t.ops && s.looseOps == t.looseOps
    ensures WorldOk(t, launched, alive)
  {
    assert forall k, v :: OpMay(s, k, v) <==> OpMay(t, k, v);
    hide OpMay, NoRepeats;
  }

  lemma NewReceiptIsAccepted(s: Store, c: Operation, next: Operation, e: Evidence, t: Store)
    requires Accepted(s) && c.request.key in s.ops && s.ops[c.request.key] == c && c.request.key !in s.receipts
    requires OperationOk(c) && c.status.receipt.None? && EvidencedRecord(c, e) == Some(next)
    requires t.ops == s.ops && t.receipts == s.receipts[c.request.key := ReceiptFile(next.request, next.status, e)]
    ensures Accepted(t)
  {
    var k := c.request.key;
    EvidencedIsSealed(c, e);
    hide OneBarrier, OperationOk, EvidencedRecord, ReceiptOk;
    assert ReceiptOk(t.receipts[k]) by { SealedIsOk(t.receipts[k]); }
    assert OperationFits(s, k);
    forall j | j in t.ops ensures OperationFits(t, j) { assert OperationFits(s, j); }
    forall j | j in t.receipts ensures ReceiptFits(t, j) { if j != k { assert ReceiptFits(s, j); } }
  }

  lemma SealedIsOk(r: ReceiptFile)
    requires Sealed(r)
    ensures ReceiptOk(r)
  {}

  lemma ReceiptsHaveOperations(s: Store)
    requires Accepted(s)
    ensures s.receipts.Keys <= s.ops.Keys
  {
    forall j | j in s.receipts ensures j in s.ops { assert ReceiptFits(s, j); }
  }

  lemma PublishFacts(s: Store, o: Operation, e: Evidence, fault: WriteFault)
    requires o.request.key !in s.receipts
    ensures var w := PublishWrite(s, o, e, fault);
            var file := ReceiptFile(o.request, o.status, e);
            && w.store == s.(receipts := w.store.receipts, looseReceipts := w.store.looseReceipts)
            && (w.store != s ==> w.store.receipts == s.receipts[o.request.key := file])
            && (w.ok ==> o.request.key in w.store.receipts && w.store.receipts[o.request.key] == file && w.store.looseReceipts == map[])
  {}

  lemma PublishIsKept(s: Store, o: Operation, e: Evidence, fault: WriteFault)
    requires o.request.key !in s.receipts
    ensures Kept(s, PublishWrite(s, o, e, fault).store)
  {
    var t := PublishWrite(s, o, e, fault).store;
    assert forall k, v :: OpMay(s, k, v) <==> OpMay(t, k, v);
    assert forall k :: DurableReceipt(s, k) ==> DurableReceipt(t, k) && t.receipts[k] == s.receipts[k];
    assert KeptVisibly(s, t);
    hide OpMay, DurableReceipt, PublishWrite;
  }

  /** New evidence: its receipt is published first, whether or not the status follows. */
  lemma FoundKeepsInv(s: State, c: Operation, e: Evidence, fault: WriteFault)
    requires Live(s) && s.stage == ReadingEvidence(c) && c.request.key !in s.store.receipts && c.status.receipt.None?
    requires EvidencedRecord(c, e).Some?
    ensures var next := EvidencedRecord(c, e).value;
            var w := PublishWrite(s.store, next, e, fault);
            Keeps(s, s.(store := w.store, stage := if w.ok then Publishing(c, next) else Caught(c)))
  {
    hide FilesInv, WorldOk, Accepted, OperationOk, EvidencedRecord, Kept, Sealed, PublishWrite, Dead;
    CoreAt(s, c);
    EvidencedIsSealed(c, e);
    var next := EvidencedRecord(c, e).value;
    var w := PublishWrite(s.store, next, e, fault);
    PublishFacts(s.store, next, e, fault);
    PublishIsKept(s.store, next, e, fault);
    SameOpsKeepWorld(s.store, w.store, s.launched, s.alive);
    if w.store != s.store { NewReceiptIsAccepted(s.store, c, next, e, w.store); }
    assert s.store.receipts.Keys <= s.store.ops.Keys by { ReceiptsHaveOperations(s.store); }
    PublishKeepsFiles(s.store, next, e, fault);
  }

  lemma EvidenceKeepsInv(s: State, c: Operation, reading: Reading, publishFault: WriteFault, fault: WriteFault)
    requires Live(s) && s.stage == ReadingEvidence(c)
    ensures Keeps(s, StepEvidence(s, c, reading, publishFault, fault))
  {
    hide Core, OperationOk, EvidencedRecord, PublishWrite, Correlated, Belongs, Kept, ReceiptFits, ReceiptSound, Moved, Dead;
    CoreAt(s, c);
    KeptAtOnce(s);
    CoreIgnoresStage(s, Concluding(c));
    CoreIgnoresStage(s, Caught(c));
    if c.request.key in s.store.receipts {
      AdoptKeepsInv(s, c, reading, publishFault, fault);
    } else if c.status.receipt.None? && reading.Found? && EvidencedRecord(c, reading.envelope).Some? {
      FoundKeepsInv(s, c, reading.envelope, publishFault);
    }
  }

  /** An existing receipt was confirmed durable. */
  lemma ConfirmKeepsCore(s: State)
    requires Core(s)
    ensures var t := s.(store := Recovered(s.store, false, true)); Core(t) && Kept(s.store, t.store)
  {
    hide FilesInv, Accepted, WorldOk, KeptDurably;
    var t := Recovered(s.store, false, true);
    RecoveredKeepsFiles(s.store, false, true);
    CrossChecksReadFiles(s.store, t);
    SameOpsKeepWorld(s.store, t, s.launched, s.alive);
    RecoveredIsFewer(s.store, false, true);
    FewerIsKept(s.store, t);
  }

  lemma RecoveredIsFewer(s: Store, sweptOps: bool, sweptReceipts: bool)
    ensures Fewer(s, Recovered(s, sweptOps, sweptReceipts)) && KeptVisibly(s, Recovered(s, sweptOps, sweptReceipts))
  {}

  lemma AdoptIsLegal(s: State, c: Operation)
    requires Core(s) && Current(s, c) && c.request.key in s.store.receipts && s.store.looseReceipts == map[]
    requires var r := s.store.receipts[c.request.key];
             var next := AdoptedRecord(r, c);
             next.Some? && next.value != c && r == ReceiptFile(next.value.request, next.value.status, r.envelope)
    ensures Legal(s, c, AdoptedRecord(s.store.receipts[c.request.key], c).value)
  {
    CoreAt(s, c);
    hide Core, OperationOk, StatusOk;
  }

  lemma AdoptKeepsInv(s: State, c: Operation, reading: Reading, publishFault: WriteFault, fault: WriteFault)
    requires Live(s) && s.stage == ReadingEvidence(c) && c.request.key in s.store.receipts
    ensures Keeps(s, StepEvidence(s, c, reading, publishFault, fault))
  {
    hide Core, Legal, OperationOk, AdoptedRecord, Moved, Kept, ReceiptFits, ReceiptSound, Dead;
    var r := s.store.receipts[c.request.key];
    var next := AdoptedRecord(r, c);
    CoreAt(s, c);
    KeptAtOnce(s);
    CoreIgnoresStage(s, Concluding(c));
    CoreIgnoresStage(s, Idle);
    ConfirmKeepsCore(s);
    var confirmed := s.(store := Recovered(s.store, false, true));
    CoreIgnoresStage(confirmed, Idle);
    if next.Some? && next.value != c {
      AdoptedFacts(r, c);
      var w := PublishWrite(s.store, next.value, r.envelope, publishFault);
      assert w.store == s.store || w.store == confirmed.store;
      if w.ok {
        assert w.store == confirmed.store && r == ReceiptFile(next.value.request, next.value.status, r.envelope);
        AdoptIsLegal(confirmed, c);
        MovedKeepsCore(confirmed, c, next, fault, Concluding(next.value));
        KeptTwice(s.store, confirmed.store, Moved(confirmed, c, next, fault, Concluding(next.value)).store);
      }
    }
  }

  lemma KeptTwice(s: Store, t: Store, u: Store)
    requires Kept(s, t) && Kept(t, u)
    ensures Kept(s, u)
  {
    DurablyTwice(s, t, u);
    hide KeptDurably;
  }

  lemma DurablyTwice(s: Store, t: Store, u: Store)
    requires KeptDurably(s, t) && KeptDurably(t, u)
    ensures KeptDurably(s, u)
  {
    hide Stands, NotBefore, DurableReceipt;
  }

  lemma OtherKeepsInv(s: State, e: Event)
    requires Live(s) && (e.BeginReconcile? || e.Close? || e.TreeEnds?)
    ensures Keeps(s, Step(s, e))
  {
    hide FilesInv, OperationOk, Accepted, OpMay;
    KeptAtOnce(s);
    hide Kept;
  }

  lemma AdoptedFacts(r: ReceiptFile, c: Operation)
    requires AdoptedRecord(r, c).Some?
    ensures var next := AdoptedRecord(r, c).value;
            next.request == c.request && next.status.receipt.Some? && (next != c ==> next.status.updatedAt == r.envelope.completedAt)
  {}

  lemma LiveStepKeepsInv(s: State, e: Event)
    requires Live(s) && !e.Crash? && !e.PowerLoss?
    ensures Keeps(s, Step(s, e))
  {
    hide Core, StageInv, StepReplace, StepEvidence, StepConclude, Moved, Kept, OperationOk;
    KeptAtOnce(s);
    if e.Start? { StartKeepsInv(s, e); }
    else if e.CheckFails? || e.CheckPasses? { CheckKeepsInv(s, e); }
    else if e.RetireUnlaunched? || e.FailUnlaunched? { UnlaunchedKeepsInv(s, e); }
    else if e.Launch? || e.PublishOuter? { LaunchKeepsInv(s, e); }
    else if e.Conclude? { if s.stage.Concluding? { ConcludeKeepsInv(s, s.stage.current, e.gone, e.now, e.fault); } }
    else if e.HandleCaught? { if s.stage.Caught? { CaughtKeepsInv(s, e); } }
    else if e.RejectCompletion? { RejectionKeepsInv(s, e); }
    else if e.ReplaceStatus? { if s.stage.Publishing? { ReplaceKeepsInv(s, s.stage.current, s.stage.next, e.fault); } }
    else if e.ReadEvidence? { if s.stage.ReadingEvidence? { EvidenceKeepsInv(s, s.stage.current, e.reading, e.publishFault, e.fault); } }
    else if !e.Open? { OtherKeepsInv(s, e); }
  }

  // ---- Death, power loss and restart ----

  lemma InvParts(s: State)
    requires Inv(s)
    ensures Carried(s) && FilesInv(s.store) && WorldOk(s.store, s.launched, s.alive) && (s.ready ==> Live(s))
  {
    hide FilesInv, WorldOk, Accepted;
  }

  lemma LeftIsFewer(s: Store, left: Store)
    requires FilesInv(s) && Leaves(s, left)
    ensures Fewer(s, left)
  {
    LeftFiles(s, left);
    forall k, v | OpMay(left, k, v) ensures OpMay(s, k, v) { assert MayBe(s.ops, s.looseOps, k, VersionOf(left.ops, k)); }
    hide FilesInv, Leaves, OpMay;
  }

  lemma DeathKeepsInv(s: State, e: Event)
    requires Inv(s) && (e.Crash? || e.PowerLoss?)
    ensures var t := Step(s, e); Inv(t) && KeptDurably(s.store, t.store) && (e.Crash? ==> Kept(s.store, t.store))
  {
    hide FilesInv, WorldOk, Leaves, KeptDurably, KeptVisibly, StageInv, Accepted;
    InvParts(s);
    KeptAtOnce(s);
    if e.PowerLoss? {
      var left := Step(s, e).store;
      NothingUndone(s.store);
      LeavesKeepsFiles(s.store, left);
      LeftIsFewer(s.store, left);
      FewerIsKept(s.store, left);
      FewerKeepsWorld(s.store, left, s.launched, s.alive);
    }
  }

  lemma OpenKeepsInv(s: State, e: Event)
    requires Inv(s) && !s.ready && e.Open?
    ensures var t := Step(s, e); Inv(t) && Kept(s.store, t.store)
  {
    hide FilesInv, WorldOk, KeptDurably, KeptVisibly, Accepted;
    var store := Recovered(s.store, e.sweptOps, e.sweptReceipts);
    RecoveredKeepsFiles(s.store, e.sweptOps, e.sweptReceipts);
    RecoveredIsFewer(s.store, e.sweptOps, e.sweptReceipts);
    FewerIsKept(s.store, store);
    FewerKeepsWorld(s.store, store, s.launched, s.alive);
  }

  lemma IdleKeepsInv(s: State, e: Event)
    requires Inv(s) && !s.ready && !e.Crash? && !e.PowerLoss? && !e.Open?
    ensures var t := Step(s, e); Inv(t) && t.store == s.store
  {
    hide FilesInv, Accepted, OpMay, Moved;
  }

  lemma StepKeepsInv(s: State, e: Event)
    requires Inv(s)
    ensures var t := Step(s, e); Inv(t) && KeptDurably(s.store, t.store) && (!e.PowerLoss? ==> Kept(s.store, t.store))
  {
    hide Step, FilesInv, WorldOk, Core, StageInv, KeptDurably, KeptVisibly;
    if e.Crash? || e.PowerLoss? { DeathKeepsInv(s, e); }
    else if s.ready { LiveStepKeepsInv(s, e); }
    else if e.Open? { OpenKeepsInv(s, e); }
    else { IdleKeepsInv(s, e); KeptAtOnce(s); }
  }

  predicate NoPowerLoss(events: seq<Event>) {
    forall e :: e in events ==> !e.PowerLoss?
  }

  lemma {:induction false} RunKeepsInv(s: State, events: seq<Event>)
    requires Inv(s)
    ensures var t := Run(s, events); Inv(t) && KeptDurably(s.store, t.store) && (NoPowerLoss(events) ==> Kept(s.store, t.store))
    decreases |events|
  {
    hide Inv, Step, KeptDurably, KeptVisibly;
    InvParts(s);
    KeptAtOnce(s);
    if events != [] {
      var next := Step(s, events[0]);
      StepKeepsInv(s, events[0]);
      InvParts(next);
      RunKeepsInv(next, events[1..]);
      var t := Run(next, events[1..]);
      DurablyTwice(s.store, next.store, t.store);
      if NoPowerLoss(events) {
        assert events[0] in events && forall e :: e in events[1..] ==> e in events;
        KeptTwice(s.store, next.store, t.store);
      }
    }
  }
}
