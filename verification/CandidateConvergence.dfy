/** Reconciling an operation with its published evidence: when it converges. */
module CandidateConvergence {
  import opened Outcomes
  import opened UnsyncedFiles
  import opened CandidateStores
  import opened CandidateVersions
  import opened CandidateCoordinators
  import opened CandidateSafety
  import opened CandidateResults

  /** Reconciling an operation whose receipt is already there. */
  function Reconcile(k: Key, reading: Reading): seq<Event> {
    [BeginReconcile(k), ReadEvidence(reading, NoFault, NoFault)]
  }

  lemma SoundAt(s: State, k: Key)
    requires Live(s) && k in s.store.receipts
    ensures k in s.store.ops && s.store.ops[k].request.key == k && OperationOk(s.store.ops[k])
    ensures ReceiptFits(s.store, k) && ReceiptSound(s.store, k)
  {
    assert ReceiptFits(s.store, k) && OperationFits(s.store, k);
    CoreAt(s, s.store.ops[k]);
    hide Live, ReceiptFits, ReceiptSound;
  }

  lemma ReconcileSteps(s: State, k: Key, reading: Reading)
    requires Carried(s) && s.ready && s.stage.Idle? && k in s.store.ops && s.store.ops[k].request.key == k
    ensures var next := s.(stage := ReadingEvidence(s.store.ops[k]));
            && Step(s, BeginReconcile(k)) == next
            && Step(next, ReadEvidence(reading, NoFault, NoFault)) == StepEvidence(next, s.store.ops[k], reading, NoFault, NoFault)
  {
    hide StepEvidence, StepReplace, StepConclude, Moved, Leaves, StartAccepts, Recovered, PutOperation;
  }

  lemma ReconcileRuns(s: State, k: Key, reading: Reading)
    requires Live(s) && s.stage.Idle? && k in s.store.receipts
    ensures k in s.store.ops
    ensures var next := s.(stage := ReadingEvidence(s.store.ops[k]));
            Run(s, Reconcile(k, reading)) == StepEvidence(next, s.store.ops[k], reading, NoFault, NoFault)
  {
    SoundAt(s, k);
    hide Core;
    ReconcileSteps(s, k, reading);
    hide Step, StepEvidence, Live, OperationOk, ReceiptFits, ReceiptSound;
    var next := s.(stage := ReadingEvidence(s.store.ops[k]));
    RunStep(s, BeginReconcile(k), next, [ReadEvidence(reading, NoFault, NoFault)]);
    RunStep(next, ReadEvidence(reading, NoFault, NoFault), Step(next, ReadEvidence(reading, NoFault, NoFault)), []);
    assert [BeginReconcile(k)] + [ReadEvidence(reading, NoFault, NoFault)] == Reconcile(k, reading);
    assert [ReadEvidence(reading, NoFault, NoFault)] + [] == [ReadEvidence(reading, NoFault, NoFault)];
  }

  /** When the receipt can be adopted, and what it makes of the record. */
  lemma AdoptableExactly(r: ReceiptFile, c: Operation)
    requires OperationOk(c) && c.invocation.Some? && ReceiptOk(r) && Belongs(r, c) && Correlated(r, c)
    requires r.status.updatedAt == r.envelope.completedAt && r.status.invokedAt == Some(c.invocation.value.startedAt)
    requires c.status.receipt.Some? || c.status.phase.Running? || c.status.phase.Uncertain?
    requires c.status.receipt.Some? ==> c.status == r.status
    ensures var next := AdoptedRecord(r, c);
            && (next.Some? <==> c.status.updatedAt <= r.envelope.completedAt)
            && (next.Some? ==> next.value.status == r.status && next.value.request == c.request && OperationOk(next.value))
  {}

  /** Reconciling gives the receipt's status to its operation exactly when the
      operation was not updated after the evidence was completed; otherwise it
      changes nothing. */
  lemma AdoptionExactly(s: State, k: Key, reading: Reading)
    requires Live(s) && s.stage.Idle? && k in s.store.receipts
    ensures var t := Run(s, Reconcile(k, reading)); var r := s.store.receipts[k];
            && k in s.store.ops && k in t.store.ops
            && (t.store.ops[k].status == r.status <==> s.store.ops[k].status.updatedAt <= r.envelope.completedAt)
            && (t.store.ops[k].status != r.status ==> t == s)
  {
    ReconcileRuns(s, k, reading);
    SoundAt(s, k);
    var c, r := s.store.ops[k], s.store.receipts[k];
    if c.status.receipt.Some? { CoreAt(s, c); }
    AdoptableExactly(r, c);
    hide Live, Step, Run, Overwritten, AdoptedRecord, OperationOk, Correlated, StatusOk, Leaves, Accepted, ReceiptFits, ReceiptSound;
    hide StartAccepts, Recovered, EvidencedRecord;
  }

  /** An operation whose every version was updated after its durable evidence was
      completed keeps its own status for good, whatever power losses bring back. */
  lemma NeverAdopted(s: State, k: Key, later: seq<Event>)
    requires Inv(s) && DurableReceipt(s.store, k) && k in s.store.ops && k !in s.store.looseOps
    requires s.store.ops[k].status.updatedAt > s.store.receipts[k].envelope.completedAt
    ensures var t := Run(s, later); k in t.store.ops && t.store.ops[k].status != s.store.receipts[k].status
  {
    RunKeepsInv(s, later);
    StandsAlone(s.store, k);
    VisibleVersion(Run(s, later).store, k);
    InvParts(s);
    assert Sealed(s.store.receipts[k]);
    hide Inv, FilesInv, WorldOk, Run, Live;
  }

  // ---- Runs in which failing means dying ----

  /** Every write of the step completed. */
  predicate Completed(e: Event) {
    match e
    case Start(_, _, _, _, fault) => fault.NoFault?
    case ReadEvidence(_, publishFault, fault) => publishFault.NoFault? && fault.NoFault?
    case ReplaceStatus(fault) => fault.NoFault?
    case HandleCaught(_, fault) => fault.NoFault?
    case Conclude(_, _, fault) => fault.NoFault?
    case _ => true
  }

  predicate Dies(e: Event) {
    e.Crash? || e.PowerLoss?
  }

  /** A write of a settlement that does not complete is the last thing its process does. */
  predicate Orderly(events: seq<Event>) {
    forall i :: 0 <= i < |events| ==> CompletesOrDies(events, i)
  }

  predicate CompletesOrDies(events: seq<Event>, i: nat)
    requires i < |events|
  {
    Completed(events[i]) || (i + 1 < |events| && Dies(events[i + 1]))
  }

  /** No invoked operation was updated after its evidence was completed. */
  ghost predicate TimelyStore(s: Store) {
    forall k :: k in s.receipts && k in s.ops && s.ops[k].invocation.Some? ==>
      s.ops[k].status.updatedAt <= s.receipts[k].envelope.completedAt
  }

  /** Nor is the section about to do so. */
  ghost predicate TimelyStage(s: State) {
    && (s.stage.Caught? ==> Current(s, s.stage.current) && s.stage.current.request.key !in s.store.receipts)
    && (s.stage.Concluding? ==> Current(s, s.stage.current))
    && (s.stage.Concluding? && s.stage.current.request.key in s.store.receipts ==> s.stage.current.status.receipt.Some?)
  }

  /** The evidence of an invocation this process still awaits has reached its status, or is about to. */
  ghost predicate TimelyWatch(s: State) {
    forall k :: k in s.watched && k in s.store.receipts ==>
      (k in s.store.ops && s.store.ops[k].status.receipt.Some?) || (s.stage.Publishing? && s.stage.current.request.key == k)
  }

  ghost predicate Timely(s: State) { TimelyStore(s.store) && TimelyStage(s) && TimelyWatch(s) }

  /** One step: the files stay timely in any case, the section only if every write completed. */
  ghost predicate StaysTimely(t: State, e: Event) {
    TimelyStore(t.store) && (Completed(e) ==> TimelyStage(t))
  }

  lemma MovedTimely(s: State, c: Operation, next: Option<Operation>, fault: WriteFault, after: Stage)
    requires TimelyStore(s.store) && Current(s, c)
    requires next.Some? && c.request.key in s.store.receipts ==>
               next.value.status.updatedAt <= s.store.receipts[c.request.key].envelope.completedAt
    ensures var t := Moved(s, c, next, fault, after);
            && TimelyStore(t.store) && t.store.receipts == s.store.receipts
            && (t.stage == after && !after.Idle? && next.Some? && next.value.request == c.request ==> Current(t, next.value))
  {
    hide OperationOk, Overwritten;
  }

  lemma StartIsTimely(s: State, e: Event)
    requires Live(s) && Timely(s) && (e.Start? || e.Launch?)
    ensures StaysTimely(Step(s, e), e)
  {
    LiveIsAccepted(s);
    ReceiptsHaveOperations(s.store);
    hide Live, IsBarrier, Accepted, Overwritten, Leaves, StartAccepts, TimelyStore, PutOperation, TimelyWatch;
    if e.Start? && e.request.key !in s.store.ops {
      PutTimely(s.store, e.request.key, NewOperation(e.request, e.workspace, e.runId, e.now), e.fault);
    }
  }

  /** A write to an operation without evidence, or up to when its evidence was completed. */
  lemma PutTimely(s: Store, k: Key, o: Operation, fault: WriteFault)
    requires TimelyStore(s) && (k in s.receipts ==> o.status.updatedAt <= s.receipts[k].envelope.completedAt)
    ensures TimelyStore(PutOperation(s, k, o, fault).store)
  {
    hide Overwritten;
  }

  lemma CheckIsTimely(s: State, e: Event)
    requires Live(s) && Timely(s) && (e.CheckFails? || e.CheckPasses?)
    ensures StaysTimely(Step(s, e), e)
  {
    hide Core, Moved, OperationOk, SettledRecord;
    if s.stage.Checking? {
      var c := s.stage.current;
      CoreAt(s, c);
      MovedTimely(s, c, FailedRecord(c, e.now, if e.CheckFails? && e.changed then CandidateChanged else NotInvoked), e.fault, Idle);
      if e.CheckPasses? {
        var next := StartedRecord(c, e.now, e.deadlineAt);
        MovedTimely(s, c, next, e.fault, if next.Some? then Launching(next.value) else Idle);
      }
    }
  }

  lemma LaunchedIsTimely(s: State, e: Event)
    requires Live(s) && Timely(s) && (e.RetireUnlaunched? || e.FailUnlaunched? || e.PublishOuter?)
    ensures StaysTimely(Step(s, e), e)
  {
    hide Core, Moved, OperationOk, SettledRecord;
    if e.RetireUnlaunched? && s.stage.Unlaunched? {
      var next := RetiredRecord(s.stage.current, SpawnFailed, e.now);
      MovedTimely(s, s.stage.current, next, e.fault, if next.Some? then FailingUnlaunched(next.value) else Idle);
    } else if e.FailUnlaunched? && s.stage.FailingUnlaunched? {
      MovedTimely(s, s.stage.current, FailedRecord(s.stage.current, e.now, LaunchFailed), e.fault, Idle);
    } else if e.PublishOuter? && s.stage.Launched? {
      MovedTimely(s, s.stage.current, OuterRecord(s.stage.current, e.pid, e.now), e.fault, Idle);
    }
  }

  lemma EvidencedFacts(c: Operation, e: Evidence)
    requires EvidencedRecord(c, e).Some?
    ensures c.status.updatedAt <= e.completedAt && EvidencedRecord(c, e).value.request == c.request
  {}

  lemma EvidenceIsTimely(s: State, e: Event)
    requires Live(s) && Timely(s) && e.ReadEvidence? && s.stage.ReadingEvidence?
    ensures StaysTimely(Step(s, e), e)
  {
    hide Core, OperationOk, Moved, AdoptedRecord, EvidencedRecord, ReceiptFits, ReceiptSound;
    var c := s.stage.current;
    if c.request.key in s.store.receipts {
      AdoptionIsTimely(s, c, e.reading, e.publishFault, e.fault);
    } else if e.reading.Found? && EvidencedRecord(c, e.reading.envelope).Some? {
      EvidencedFacts(c, e.reading.envelope);
      PublishFacts(s.store, EvidencedRecord(c, e.reading.envelope).value, e.reading.envelope, e.publishFault);
      hide PublishWrite;
    }
  }

  lemma AdoptionIsTimely(s: State, c: Operation, reading: Reading, publishFault: WriteFault, fault: WriteFault)
    requires Live(s) && Timely(s) && s.stage == ReadingEvidence(c) && c.request.key in s.store.receipts
    ensures var t := StepEvidence(s, c, reading, publishFault, fault); TimelyStore(t.store) && TimelyStage(t)
  {
    hide Core, OperationOk, Moved, AdoptedRecord, EvidencedRecord, TimelyStore;
    var next := AdoptedRecord(s.store.receipts[c.request.key], c);
    var confirmed := s.(store := s.store.(looseReceipts := map[]));
    SameFilesTimely(s.store, confirmed.store);
    if next.Some? {
      AdoptedFacts(s.store.receipts[c.request.key], c);
      UpToDate(s, c);
      MovedTimely(confirmed, c, next, fault, Concluding(next.value));
    }
  }

  lemma SameFilesTimely(s: Store, t: Store)
    requires TimelyStore(s) && s.ops == t.ops && s.receipts == t.receipts
    ensures TimelyStore(t)
  {}

  lemma UpToDate(s: State, c: Operation)
    requires Live(s) && TimelyStore(s.store) && Current(s, c) && c.request.key in s.store.receipts
    ensures c.status.updatedAt <= s.store.receipts[c.request.key].envelope.completedAt
  {
    SoundAt(s, c.request.key);
    hide Live, ReceiptSound, OperationOk;
  }

  lemma ReplaceIsTimely(s: State, e: Event)
    requires Live(s) && Timely(s) && e.ReplaceStatus? && s.stage.Publishing?
    ensures StaysTimely(Step(s, e), e)
  {
    hide Core, OperationOk, TimelyStore, PutOperation;
    var c, next := s.stage.current, s.stage.next;
    var k := c.request.key;
    CoreAt(s, c);
    PutTimely(s.store, k, next, e.fault);
    PutIsThere(s.store, k, next, e.fault);
  }

  lemma PutIsThere(s: Store, k: Key, o: Operation, fault: WriteFault)
    ensures var w := PutOperation(s, k, o, fault);
            (w.ok <==> fault.NoFault?) && (w.ok ==> k in w.store.ops && w.store.ops[k] == o) && w.store.receipts == s.receipts
  {}

  lemma RetiredFacts(c: Operation, proof: Proof, now: int)
    requires RetiredRecord(c, proof, now).Some?
    ensures var next := RetiredRecord(c, proof, now).value; next.request == c.request && next.status == c.status
  {}

  lemma UnreceiptedWhile(s: State, c: Operation)
    requires Core(s) && Current(s, c)
    ensures c.status.phase.Prepared? ==> c.request.key !in s.store.receipts
    ensures c.status.phase.Running? ==> c.status.receipt.None?
  {
    CoreAt(s, c);
    hide Core;
  }

  lemma ConcludeIsTimely(s: State, e: Event)
    requires Live(s) && Timely(s) && e.Conclude? && s.stage.Concluding?
    ensures StaysTimely(Step(s, e), e)
  {
    hide Core, OperationOk, Moved, SettledRecord, RetiredRecord, TimelyStore;
    var c := s.stage.current;
    UnreceiptedWhile(s, c);
    if c.status.phase.Prepared? { MovedTimely(s, c, FailedRecord(c, e.now, NotInvoked), e.fault, Idle); }
    if c.status.phase.Running? { MovedTimely(s, c, UncertainRecord(c, e.now, OutcomeUnknown), e.fault, Idle); }
    var retired := RetiredRecord(c, TreeRetired, e.now);
    if c.invocation.Some? && c.invocation.value.retirement.None? && c.invocation.value.outer.Some? { RetiredHere(c, e.now); }
    if retired.Some? {
      RetiredFacts(c, TreeRetired, e.now);
      if c.request.key in s.store.receipts { UpToDate(s, c); }
      MovedTimely(s, c, retired, e.fault, Concluding(retired.value));
    }
  }

  lemma CaughtIsTimely(s: State, e: Event)
    requires Live(s) && Timely(s) && e.HandleCaught? && s.stage.Caught?
    ensures StaysTimely(Step(s, e), e)
  {
    hide Core, OperationOk, Moved, SettledRecord;
    var c := s.stage.current;
    var next := UncertainRecord(c, e.now, ReceiptInvalid);
    if next.Some? { SettledKeepsRequest(c, Uncertain, e.now, None, Some(ReceiptInvalid)); }
    MovedTimely(s, c, next, e.fault, if next.Some? then Concluding(next.value) else Idle);
  }

  lemma RejectionIsTimely(s: State, e: Event)
    requires Live(s) && Timely(s) && e.RejectCompletion?
    ensures StaysTimely(Step(s, e), e)
  {
    hide Core, OperationOk, Moved, SettledRecord;
    if Step(s, e) != s {
      var c := s.store.ops[e.key];
      UnreceiptedWhile(s, c);
      MovedTimely(s, c, UncertainRecord(c, e.now, OutcomeUnknown), e.fault, Idle);
    }
  }

  lemma StepIsTimely(s: State, e: Event)
    requires Live(s) && Timely(s) && !Dies(e)
    ensures StaysTimely(Step(s, e), e)
  {
    hide Core, StageInv, StepReplace, StepEvidence, StepConclude, Moved, TimelyStore, Current;
    if e.Start? || e.Launch? { StartIsTimely(s, e); }
    else if e.CheckFails? || e.CheckPasses? { CheckIsTimely(s, e); }
    else if e.RetireUnlaunched? || e.FailUnlaunched? || e.PublishOuter? { LaunchedIsTimely(s, e); }
    else if e.ReadEvidence? { if s.stage.ReadingEvidence? { EvidenceIsTimely(s, e); } }
    else if e.ReplaceStatus? { if s.stage.Publishing? { ReplaceIsTimely(s, e); } }
    else if e.Conclude? { if s.stage.Concluding? { ConcludeIsTimely(s, e); } }
    else if e.HandleCaught? { if s.stage.Caught? { CaughtIsTimely(s, e); } }
    else if e.RejectCompletion? { RejectionIsTimely(s, e); }
    else { OtherIsTimely(s, e); }
  }

  lemma OtherIsTimely(s: State, e: Event)
    requires Live(s) && Timely(s) && (e.BeginReconcile? || e.Close? || e.TreeEnds? || e.Open?)
    ensures StaysTimely(Step(s, e), e)
  {
    hide Core, StageInv, TimelyStore;
  }

  // ---- The watch ----

  lemma WatchKept(s: State, t: State)
    requires TimelyWatch(s) && t.watched == s.watched && !s.stage.Publishing?
    requires KeptVisibly(s.store, t.store) && t.store.receipts == s.store.receipts
    ensures TimelyWatch(t)
  {}

  lemma OnlyEvidencePublishes(s: State, e: Event)
    requires Live(s) && !Dies(e) && !e.ReadEvidence? && !e.Launch?
    ensures Step(s, e).store.receipts == s.store.receipts && Step(s, e).watched == s.watched
  {
    hide Core, StageInv, OperationOk, IsBarrier, StartAccepts, Overwritten;
  }

  lemma LaunchIsWatched(s: State, e: Event)
    requires Live(s) && TimelyWatch(s) && e.Launch?
    ensures TimelyWatch(Step(s, e))
  {
    hide Core, OperationOk;
  }

  lemma ReplaceIsWatched(s: State, c: Operation, next: Operation)
    requires Live(s) && TimelyWatch(s) && s.stage == Publishing(c, next)
    ensures TimelyWatch(StepReplace(s, c, next, NoFault))
  {
    hide Core, OperationOk, KeptDurably, PutOperation, StatusOk;
    CoreAt(s, c);
    ReplaceKeepsInv(s, c, next, NoFault);
    PutIsThere(s.store, c.request.key, next, NoFault);
    hide Live, ReceiptFits;
  }

  /** Only a receipt newly found changes what is published. */
  lemma ReceiptsAfter(s: State, c: Operation, reading: Reading, fault: WriteFault)
    requires c.request.key in s.store.ops
    ensures var t := StepEvidence(s, c, reading, NoFault, fault);
            && t.watched == s.watched
            && (|| t.store.receipts == s.store.receipts
                || (&& t.store.ops == s.store.ops && t.store.receipts.Keys == s.store.receipts.Keys + {c.request.key}
                    && t.stage.Publishing? && t.stage.current == c))
  {
    hide Moved, AdoptedRecord, OperationOk, StatusOk, EvidencedRecord;
    var t := StepEvidence(s, c, reading, NoFault, fault);
    var k := c.request.key;
    if k in s.store.receipts {
      if AdoptedRecord(s.store.receipts[k], c).Some? { AdoptedFacts(s.store.receipts[k], c); }
      assert t.store.receipts == s.store.receipts;
    } else if reading.Found? && EvidencedRecord(c, reading.envelope).Some? {
      EvidencedFacts(c, reading.envelope);
      var next := EvidencedRecord(c, reading.envelope).value;
      assert s.store.receipts[k := ReceiptFile(next.request, next.status, reading.envelope)].Keys == s.store.receipts.Keys + {k};
    }
  }

  lemma EvidenceIsWatched(s: State, c: Operation, reading: Reading, fault: WriteFault)
    requires Live(s) && TimelyWatch(s) && s.stage == ReadingEvidence(c)
    ensures TimelyWatch(StepEvidence(s, c, reading, NoFault, fault))
  {
    var t := StepEvidence(s, c, reading, NoFault, fault);
    EvidenceKeepsInv(s, c, reading, NoFault, fault);
    ReceiptsAfter(s, c, reading, fault);
    hide Core, KeptDurably, KeptVisibly, TimelyWatch, StepEvidence;
    if t.store.receipts == s.store.receipts { WatchKept(s, t); } else { NewlyWatched(s, t, c.request.key); }
  }

  lemma NewlyWatched(s: State, t: State, k: Key)
    requires TimelyWatch(s) && !s.stage.Publishing? && t.watched == s.watched && t.store.ops == s.store.ops
    requires t.store.receipts.Keys == s.store.receipts.Keys + {k} && t.stage.Publishing? && t.stage.current.request.key == k
    ensures TimelyWatch(t)
  {}

  lemma LiveIsCarried(s: State)
    requires Live(s)
    ensures Carried(s)
  {
    hide Core, StageInv;
  }

  lemma EvidenceStep(s: State, e: Event)
    requires Carried(s)
    ensures e.ReadEvidence? && s.stage.ReadingEvidence? ==>
              Step(s, e) == StepEvidence(s, s.stage.current, e.reading, e.publishFault, e.fault)
    ensures e.ReplaceStatus? && s.stage.Publishing? ==> Step(s, e) == StepReplace(s, s.stage.current, s.stage.next, e.fault)
  {
    hide StepEvidence, StepReplace, StepConclude, Moved;
  }

  lemma StepIsWatched(s: State, e: Event)
    requires Live(s) && TimelyWatch(s) && !Dies(e) && Completed(e)
    ensures TimelyWatch(Step(s, e))
  {
    LiveIsCarried(s);
    hide Live, TimelyWatch, Step, KeptDurably, KeptVisibly;
    if e.Launch? { LaunchIsWatched(s, e); }
    else if e.ReadEvidence? && s.stage.ReadingEvidence? { EvidenceIsWatched(s, s.stage.current, e.reading, e.fault); EvidenceStep(s, e); }
    else if e.ReplaceStatus? && s.stage.Publishing? { ReplaceIsWatched(s, s.stage.current, s.stage.next); EvidenceStep(s, e); }
    else { QuietIsWatched(s, e); }
  }

  lemma QuietIsWatched(s: State, e: Event)
    requires Live(s) && TimelyWatch(s) && !Dies(e) && !e.Launch?
    requires !(e.ReadEvidence? && s.stage.ReadingEvidence?) && !(e.ReplaceStatus? && s.stage.Publishing?)
    ensures TimelyWatch(Step(s, e))
  {
    hide Live, Step, KeptDurably, KeptVisibly, TimelyWatch;
    LiveStepKeepsInv(s, e);
    LiveIsCarried(s);
    if s.stage.Publishing? { PublishingWaits(s, e); SameIsWatched(s, Step(s, e)); }
    else if e.ReadEvidence? { UnreadIsIgnored(s, e); }
    else { OnlyEvidencePublishes(s, e); WatchKept(s, Step(s, e)); }
  }

  lemma SameIsWatched(s: State, t: State)
    requires TimelyWatch(s) && t.store == s.store && t.stage == s.stage && t.watched == s.watched
    ensures TimelyWatch(t)
  {}

  lemma UnreadIsIgnored(s: State, e: Event)
    requires Carried(s) && e.ReadEvidence? && !s.stage.ReadingEvidence?
    ensures Step(s, e) == s
  {
    hide StepEvidence, StepReplace, StepConclude, Moved;
  }

  /** While a receipt's status is being written, nothing else is. */
  lemma PublishingWaits(s: State, e: Event)
    requires Live(s) && s.stage.Publishing? && !Dies(e) && !e.ReplaceStatus?
    ensures var t := Step(s, e); t.store == s.store && t.stage == s.stage && t.watched == s.watched
  {
    hide Core, OperationOk, StartAccepts, Leaves;
  }

  // ---- Runs ----

  /** Every version a power loss may bring back is as old as the visible one, or older. */
  lemma LeftIsTimely(s: Store, left: Store)
    requires FilesInv(s) && TimelyStore(s) && Leaves(s, left)
    ensures TimelyStore(left)
  {
    LeftFiles(s, left);
    hide Leaves, BarriersApart, OneBarrier, HasBarrier, OperationOk, OpMay;
    forall k | k in left.receipts && k in left.ops && left.ops[k].invocation.Some?
      ensures left.ops[k].status.updatedAt <= left.receipts[k].envelope.completedAt { assert VersionOk(s, k, left.ops[k]); }
  }

  lemma DeathIsTimely(s: State, e: Event)
    requires FilesInv(s.store) && TimelyStore(s.store) && Carried(s) && Dies(e)
    ensures Timely(Step(s, e))
  {
    if e.PowerLoss? {
      NothingUndone(s.store);
      LeftIsTimely(s.store, Step(s, e).store);
    }
    hide TimelyStore, Leaves, FilesInv;
  }

  /** Timely, or about to die. */
  ghost predicate OnTime(s: State, events: seq<Event>) {
    TimelyStore(s.store) && (Timely(s) || (events != [] && Dies(events[0])))
  }

  lemma StepIsOnTime(s: State, e: Event, rest: seq<Event>)
    requires Inv(s) && OnTime(s, [e] + rest)
    requires Completed(e) || (rest != [] && Dies(rest[0]))
    ensures OnTime(Step(s, e), rest)
  {
    hide Inv, Live, Step, TimelyStore, TimelyStage, TimelyWatch;
    InvParts(s);
    if Dies(e) {
      DeathIsTimely(s, e);
    } else if s.ready {
      StepIsTimely(s, e);
      if Completed(e) { StepIsWatched(s, e); }
    } else {
      RestIsTimely(s, e);
    }
  }

  lemma RestIsTimely(s: State, e: Event)
    requires Inv(s) && !s.ready && Timely(s) && !Dies(e)
    ensures Timely(Step(s, e))
  {
    hide FilesInv, WorldOk, StartAccepts;
  }

  lemma OrderlyRest(events: seq<Event>)
    requires events != [] && Orderly(events)
    ensures Orderly(events[1..]) && (Completed(events[0]) || (events[1..] != [] && Dies(events[1..][0])))
  {
    assert CompletesOrDies(events, 0);
    var rest := events[1..];
    forall i | 0 <= i < |rest| ensures CompletesOrDies(rest, i) { assert CompletesOrDies(events, i + 1); }
  }

  lemma {:induction false} RunIsTimely(s: State, events: seq<Event>)
    requires Inv(s) && Carried(s) && OnTime(s, events) && Orderly(events)
    ensures Inv(Run(s, events)) && Timely(Run(s, events))
    decreases |events|
  {
    hide Inv, Step, TimelyStore, TimelyStage, TimelyWatch, KeptDurably, KeptVisibly, Completed, Orderly;
    if events != [] {
      assert events == [events[0]] + events[1..];
      StepKeepsInv(s, events[0]);
      OrderlyRest(events);
      StepIsOnTime(s, events[0], events[1..]);
      InvParts(Step(s, events[0]));
      RunIsTimely(Step(s, events[0]), events[1..]);
    }
  }

  lemma FreshIsTimely(events: seq<Event>)
    ensures OnTime(FRESH, events)
  {}

  /** As long as a process dies with the first settlement write that does not complete,
      and whatever writes power losses take back, reconciling an operation with
      published evidence gives it the receipt's status: for good once it is durable,
      and until power is lost before that. */
  lemma CrashesConverge(events: seq<Event>, k: Key, reading: Reading, later: seq<Event>)
    requires Orderly(events)
    ensures var s := Run(FRESH, events);
            s.ready && s.stage.Idle? && k in s.store.receipts ==>
              var t := Run(s, Reconcile(k, reading));
              && k in t.store.ops && t.store.ops[k].status == s.store.receipts[k].status
              && (k !in t.store.looseOps || NoPowerLoss(later) ==>
                    k in Run(t, later).store.ops && Run(t, later).store.ops[k].status == s.store.receipts[k].status)
  {
    FreshIsInv();
    FreshIsTimely(events);
    RunIsTimely(FRESH, events);
    Reached(events);
    var s := Run(FRESH, events);
    hide Inv, FilesInv, WorldOk, Live, Orderly;
    if s.ready && s.stage.Idle? && k in s.store.receipts {
      AdoptionExactly(s, k, reading);
      SoundAt(s, k);
      RunConcat(FRESH, events, Reconcile(k, reading));
      EvidenceIsFinal(events + Reconcile(k, reading), later, k);
      hide Run, Reconcile;
    }
  }

  // ---- Where it does not converge ----

  lemma FailureIsCaught(s: State, c: Operation, next: Operation)
    requires Live(s) && s.stage == Publishing(c, next)
    ensures DurableReceipt(s.store, c.request.key)
    ensures Step(s, ReplaceStatus(NotWritten)) == s.(stage := Caught(c)) && Current(s, c)
  {
    hide Core, OperationOk;
  }

  lemma CaughtSteps(s: State, now: int)
    requires Carried(s) && s.stage.Caught? && s.stage.current.status.phase.Running?
    requires UncertainRecord(s.stage.current, now, ReceiptInvalid).Some?
    ensures var next := UncertainRecord(s.stage.current, now, ReceiptInvalid);
            Step(s, HandleCaught(now, NoFault)) == Moved(s, s.stage.current, next, NoFault, Concluding(next.value))
  {
    hide Moved, StepEvidence, StepReplace, StepConclude, Leaves, StartAccepts, SettledRecord;
  }

  lemma MovedWrites(s: State, c: Operation, next: Operation, after: Stage)
    requires Current(s, c) && OperationOk(next) && next != c
    ensures Moved(s, c, Some(next), NoFault, after) ==
              s.(store := s.store.(ops := s.store.ops[c.request.key := next], looseOps := map[]), stage := after)
  {
    hide OperationOk;
  }

  lemma UncertainIsWritten(s: State, c: Operation, now: int)
    requires Carried(s) && Core(s) && s.stage == Caught(c) && Current(s, c) && c.status.phase.Running? && now >= c.status.updatedAt
    ensures var t := Step(s, HandleCaught(now, NoFault));
            && t.store.receipts == s.store.receipts && t.store.looseReceipts == s.store.looseReceipts
            && t.store.looseOps == map[] && c.request.key in t.store.ops && t.store.ops[c.request.key].status.updatedAt == now
  {
    hide Core, OperationOk, Step, SettledRecord, Moved;
    CoreAt(s, c);
    UncertainIsAllowed(c, now);
    CaughtSteps(s, now);
    var next := UncertainRecord(c, now, ReceiptInvalid).value;
    MovedWrites(s, c, next, Concluding(next));
  }

  lemma UncertainIsAllowed(c: Operation, now: int)
    requires OperationOk(c) && c.status.phase.Running? && now >= c.status.updatedAt
    ensures var next := UncertainRecord(c, now, ReceiptInvalid);
            next.Some? && OperationOk(next.value) && next.value != c && next.value.status.updatedAt == now
  {}

  /** A status write that fails while the process lives on breaks this: the uncertain
      status written instead is newer than the evidence, which is then never adopted. */
  lemma SurvivedFailureDiverges(s: State, c: Operation, next: Operation, now: int, later: seq<Event>)
    requires Live(s) && s.stage == Publishing(c, next) && c.status.phase.Running?
    requires now > s.store.receipts[c.request.key].envelope.completedAt && now >= c.status.updatedAt
    ensures var failed := Step(Step(s, ReplaceStatus(NotWritten)), HandleCaught(now, NoFault));
            var t := Run(failed, later);
            && c.request.key in t.store.ops
            && t.store.ops[c.request.key].status != s.store.receipts[c.request.key].status
  {
    var caught := Step(s, ReplaceStatus(NotWritten));
    var failed := Step(caught, HandleCaught(now, NoFault));
    FailureIsCaught(s, c, next);
    hide Core, StageInv, Step, Run, Kept;
    StepKeepsInv(s, ReplaceStatus(NotWritten));
    StepKeepsInv(caught, HandleCaught(now, NoFault));
    UncertainIsWritten(caught, c, now);
    NeverAdopted(failed, c.request.key, later);
  }

  // One operation started, launched, observed and evidenced.
  const SOME_EVIDENCE := Evidence(0, true, 2, 0)

  function ObservedFirst(r: Request): Operation { OuterRecord(InvokedFirst(r), 1, 1).value }

  function OneLaunched(o: Operation, stage: Stage): State {
    OnlyOne(o, stage).(launched := [o.request.key], alive := {o.request.key}, watched := {o.request.key})
  }

  lemma LaunchSteps(r: Request)
    ensures Step(OnlyOne(InvokedFirst(r), Launching(InvokedFirst(r))), Launch(true))
         == OneLaunched(InvokedFirst(r), Launched(InvokedFirst(r)))
    ensures Step(OneLaunched(InvokedFirst(r), Launched(InvokedFirst(r))), PublishOuter(1, 1, NoFault))
         == OneLaunched(ObservedFirst(r), Idle)
  {
    assert map[r.key := InvokedFirst(r)][r.key := ObservedFirst(r)] == map[r.key := ObservedFirst(r)];
  }

  const READING := ReadEvidence(Found(SOME_EVIDENCE), NoFault, NoFault)

  lemma EvidenceSteps(r: Request)
    ensures Step(OneLaunched(ObservedFirst(r), Idle), BeginReconcile(r.key))
         == OneLaunched(ObservedFirst(r), ReadingEvidence(ObservedFirst(r)))
    ensures var t := Step(OneLaunched(ObservedFirst(r), ReadingEvidence(ObservedFirst(r))), READING);
            && t.stage.Publishing? && t.stage.current == ObservedFirst(r)
            && r.key in t.store.receipts && t.store.receipts[r.key].envelope == SOME_EVIDENCE
  {}

  function InvokingRun(r: Request): seq<Event> {
    [Open(false, false)] + ([Start(r, "", 0, 0, NoFault)] + ([CheckPasses(0, 9, NoFault)] + []))
  }

  function EvidencedRun(r: Request): seq<Event> {
    [Launch(true)] + ([PublishOuter(1, 1, NoFault)] + ([BeginReconcile(r.key)] + ([READING] + [])))
  }

  lemma InvokingRuns(r: Request)
    ensures Run(FRESH, InvokingRun(r)) == OnlyOne(InvokedFirst(r), Launching(InvokedFirst(r)))
  {
    OpeningSteps(r);
    hide Step, OnlyOne;
    var last := [CheckPasses(0, 9, NoFault)] + [];
    RunStep(FRESH, Open(false, false), Opened(), [Start(r, "", 0, 0, NoFault)] + last);
    RunStep(Opened(), Start(r, "", 0, 0, NoFault), OnlyOne(PreparedFirst(r), Checking(PreparedFirst(r))), last);
    RunStep(OnlyOne(PreparedFirst(r), Checking(PreparedFirst(r))), CheckPasses(0, 9, NoFault),
            OnlyOne(InvokedFirst(r), Launching(InvokedFirst(r))), []);
  }

  /** Such a state is reached. */
  lemma PublishingIsReached(r: Request)
    ensures var s := Run(FRESH, InvokingRun(r) + EvidencedRun(r));
            && s.stage.Publishing? && s.stage.current.status.phase.Running? && s.stage.current.request == r
            && r.key in s.store.receipts
  {
    InvokingRuns(r);
    LaunchSteps(r);
    EvidenceSteps(r);
    var launching := OnlyOne(InvokedFirst(r), Launching(InvokedFirst(r)));
    var launched := OneLaunched(InvokedFirst(r), Launched(InvokedFirst(r)));
    var observed := OneLaunched(ObservedFirst(r), Idle);
    var reading := OneLaunched(ObservedFirst(r), ReadingEvidence(ObservedFirst(r)));
    hide Step, OnlyOne, OneLaunched;
    RunConcat(FRESH, InvokingRun(r), EvidencedRun(r));
    var last := [READING] + [];
    RunStep(launching, Launch(true), launched, [PublishOuter(1, 1, NoFault)] + ([BeginReconcile(r.key)] + last));
    RunStep(launched, PublishOuter(1, 1, NoFault), observed, [BeginReconcile(r.key)] + last);
    RunStep(observed, BeginReconcile(r.key), reading, last);
    RunStep(reading, READING, Step(reading, READING), []);
  }
}
