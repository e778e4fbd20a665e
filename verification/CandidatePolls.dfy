/** What a poll of a candidate evaluation does, and why each status stands. */
module CandidatePolls {
  import opened Outcomes
  import opened UnsyncedFiles
  import opened CandidateStores
  import opened CandidateVersions
  import opened CandidateCoordinators
  import opened CandidateSafety
  import opened CandidateResults

  // ---- One poll ----

  /** One reconciliation that finds no evidence. */
  function Poll(k: Key, gone: bool, now: int, fault: WriteFault): seq<Event> {
    [BeginReconcile(k)] + ([ReadEvidence(Absent, NoFault, NoFault)] + ([Conclude(gone, now, fault)] + []))
  }

  lemma PollSteps(s: State, k: Key)
    requires Carried(s) && s.ready && s.stage.Idle? && k in s.store.ops && s.store.ops[k].request.key == k && k !in s.store.receipts
    ensures var c := s.store.ops[k];
            && Step(s, BeginReconcile(k)) == s.(stage := ReadingEvidence(c))
            && Step(s.(stage := ReadingEvidence(c)), ReadEvidence(Absent, NoFault, NoFault)) == s.(stage := Concluding(c))
  {
    hide StepReplace, StepConclude, Moved, Leaves, StartAccepts, Recovered, PutOperation;
  }

  lemma PollRuns(s: State, k: Key, gone: bool, now: int, fault: WriteFault)
    requires Carried(s) && s.ready && s.stage.Idle? && k in s.store.ops && s.store.ops[k].request.key == k && k !in s.store.receipts
    ensures var c := s.store.ops[k];
            Run(s, Poll(k, gone, now, fault)) == StepConclude(s.(stage := Concluding(c)), c, gone, now, fault)
  {
    PollSteps(s, k);
    var c := s.store.ops[k];
    var last := s.(stage := Concluding(c));
    assert Step(last, Conclude(gone, now, fault)) == StepConclude(last, c, gone, now, fault) by { hide StepConclude; }
    hide Step, StepConclude;
    var rest := [Conclude(gone, now, fault)] + [];
    RunStep(s, BeginReconcile(k), s.(stage := ReadingEvidence(c)), [ReadEvidence(Absent, NoFault, NoFault)] + rest);
    RunStep(s.(stage := ReadingEvidence(c)), ReadEvidence(Absent, NoFault, NoFault), last, rest);
    RunStep(last, Conclude(gone, now, fault), Step(last, Conclude(gone, now, fault)), []);
  }

  /** The operation as settled without evidence at `now`. */
  function Settled(o: Operation, phase: Phase, now: int, error: ErrorCode): Operation {
    o.(status := Status(phase, now, o.status.invokedAt, Some(now), None, Some(error)))
  }

  /** The file of `k` holds `o` now, or the write failed before it showed. */
  predicate Rewritten(s: Store, t: Store, k: Key, o: Operation, fault: WriteFault) {
    && t.receipts == s.receipts
    && t.ops == (if fault.NotWritten? then s.ops else s.ops[k := o])
  }

  lemma PollReaches(events: seq<Event>, k: Key)
    requires var s := Run(FRESH, events); s.ready && s.stage.Idle? && k in s.store.ops
    ensures var s := Run(FRESH, events); Carried(s) && s.store.ops[k].request.key == k && OperationOk(s.store.ops[k])
  {
    Reached(events);
    var s := Run(FRESH, events);
    hide Run, FilesInv, WorldOk;
    LiveIsAccepted(s);
    assert OperationFits(s.store, k);
  }

  /** Polling a running evaluation whose process tree is not gone, and which left no
      evidence, changes nothing before its deadline; from the deadline on it writes
      the uncertain status. A clock that reads less than the last update writes nothing. */
  lemma PollWaitsForDeadline(events: seq<Event>, k: Key, gone: bool, now: int, fault: WriteFault)
    requires var s := Run(FRESH, events); s.ready && s.stage.Idle? && k in s.store.ops && k !in s.store.receipts
    requires var o := Run(FRESH, events).store.ops[k];
             o.status.phase.Running? && o.invocation.Some? && o.invocation.value.outer.Some? && o.invocation.value.retirement.None?
    requires !gone || k in Run(FRESH, events).alive
    ensures var s := Run(FRESH, events);
            var o, t := s.store.ops[k], Run(s, Poll(k, gone, now, fault));
            && (now < o.invocation.value.deadlineAt || now < o.status.updatedAt ==> t == s)
            && (now >= o.invocation.value.deadlineAt && now >= o.status.updatedAt ==>
                  t.stage.Idle? && Rewritten(s.store, t.store, k, Settled(o, Uncertain, now, OutcomeUnknown), fault))
  {
    PollReaches(events, k);
    var s := Run(FRESH, events);
    PollRuns(s, k, gone, now, fault);
    hide Run, Step, Overwritten;
  }

  /** Polling one whose outer process was never published gives up at once. */
  lemma PollOfUnpublished(events: seq<Event>, k: Key, gone: bool, now: int, fault: WriteFault)
    requires var s := Run(FRESH, events); s.ready && s.stage.Idle? && k in s.store.ops && k !in s.store.receipts
    requires var o := Run(FRESH, events).store.ops[k];
             o.status.phase.Running? && o.invocation.Some? && o.invocation.value.outer.None? && now >= o.status.updatedAt
    ensures var s := Run(FRESH, events);
            Rewritten(s.store, Run(s, Poll(k, gone, now, fault)).store, k, Settled(s.store.ops[k], Uncertain, now, OutcomeUnknown), fault)
  {
    PollReaches(events, k);
    var s := Run(FRESH, events);
    PollRuns(s, k, gone, now, fault);
    hide Run, Step, Overwritten;
  }

  /** Polling a prepared operation, which no process of this daemon will invoke any more, fails it. */
  lemma PollOfPrepared(events: seq<Event>, k: Key, gone: bool, now: int, fault: WriteFault)
    requires var s := Run(FRESH, events); s.ready && s.stage.Idle? && k in s.store.ops && k !in s.store.receipts
    requires var o := Run(FRESH, events).store.ops[k]; o.status.phase.Prepared? && now >= o.status.updatedAt
    ensures var s := Run(FRESH, events);
            Rewritten(s.store, Run(s, Poll(k, gone, now, fault)).store, k, Settled(s.store.ops[k], Failed, now, NotInvoked), fault)
  {
    PollReaches(events, k);
    var s := Run(FRESH, events);
    PollRuns(s, k, gone, now, fault);
    hide Run, Step, Overwritten;
  }

  /** The operation with the proof that its process tree is gone. */
  function TreeGone(o: Operation, now: int): Operation
    requires o.invocation.Some?
  {
    o.(invocation := Some(o.invocation.value.(retirement := Some(Retirement(TreeRetired, now)))))
  }

  lemma EndedIsRetired(s: State, c: Operation, now: int)
    requires s.stage == Concluding(c) && Current(s, c) && OperationOk(c) && c.request.key !in s.alive
    requires c.invocation.Some? && c.invocation.value.outer.Some? && c.invocation.value.retirement.None? && now >= c.invocation.value.startedAt
    ensures var t := StepConclude(s, c, true, now, NoFault);
            && t.stage == Concluding(TreeGone(c, now)) && OperationOk(TreeGone(c, now)) && t.store.looseOps == map[]
            && Rewritten(s.store, t.store, c.request.key, TreeGone(c, now), NoFault)
  {}

  lemma RetiredIsGivenUp(s: State, o: Operation, again: bool, later: int)
    requires s.stage == Concluding(o) && Current(s, o) && OperationOk(o) && s.store.looseOps == map[]
    requires o.invocation.Some? && o.invocation.value.retirement.Some? && later >= o.status.updatedAt
    ensures var t, k := StepConclude(s, o, again, later, NoFault).store, o.request.key;
            && Rewritten(s.store, t, k, if o.status.phase.Running? then Settled(o, Uncertain, later, OutcomeUnknown) else o, NoFault)
            && t.looseOps == map[] && k in t.ops && !IsBarrier(t.ops[k])
  {
    assert s.store.ops == s.store.ops[o.request.key := o];
  }

  /** One more conclusion after a poll. */
  lemma PollAgain(s: State, poll: seq<Event>, t: State, e: Event, u: State)
    requires Carried(s) && Run(s, poll) == t && Step(t, e) == u
    ensures Run(s, poll + ([e] + [])) == u
  {
    RunConcat(s, poll, [e] + []);
    RunStep(t, e, u, []);
    hide Step;
  }

  /** Polling an operation, running or settled, whose process tree is gone writes the
      proof first; only then is a running one given up. Either way it bars no other. */
  lemma PollOfEnded(events: seq<Event>, k: Key, now: int, again: bool, later: int)
    requires var s := Run(FRESH, events); s.ready && s.stage.Idle? && k in s.store.ops && k !in s.store.receipts && k !in s.alive
    requires var o := Run(FRESH, events).store.ops[k];
             o.invocation.Some? && o.invocation.value.outer.Some? && o.invocation.value.retirement.None?
             && now >= o.invocation.value.startedAt && later >= o.status.updatedAt
    ensures var s := Run(FRESH, events);
            var o, t := TreeGone(s.store.ops[k], now), Run(s, Poll(k, true, now, NoFault) + ([Conclude(again, later, NoFault)] + [])).store;
            && Rewritten(s.store, t, k, if o.status.phase.Running? then Settled(o, Uncertain, later, OutcomeUnknown) else o, NoFault)
            && t.looseOps == map[] && k in t.ops && !IsBarrier(t.ops[k])
  {
    hide Run, Step, Poll, StepConclude, OperationOk, IsBarrier;
    PollReaches(events, k);
    var s := Run(FRESH, events);
    var c := s.store.ops[k];
    var o := TreeGone(c, now);
    PollRuns(s, k, true, now, NoFault);
    EndedIsRetired(s.(stage := Concluding(c)), c, now);
    var t := Run(s, Poll(k, true, now, NoFault));
    var u := StepConclude(t, o, again, later, NoFault);
    ConcludeStep(t, Conclude(again, later, NoFault));
    PollAgain(s, Poll(k, true, now, NoFault), t, Conclude(again, later, NoFault), u);
    RetiredIsGivenUp(t, o, again, later);
    assert s.store.ops[k := o][k := u.store.ops[k]] == s.store.ops[k := u.store.ops[k]];
  }

  // ---- Polls that find something ----

  /** One reconciliation that reads this as evidence, up to and with its status write. */
  function PollReading(k: Key, reading: Reading, publishFault: WriteFault): seq<Event> {
    [BeginReconcile(k)] + ([ReadEvidence(reading, publishFault, NoFault)] + [])
  }

  lemma ReadingRuns(s: State, k: Key, reading: Reading, publishFault: WriteFault)
    requires Carried(s) && s.ready && s.stage.Idle? && k in s.store.ops && s.store.ops[k].request.key == k
    ensures var c := s.store.ops[k];
            Run(s, PollReading(k, reading, publishFault)) == StepEvidence(s.(stage := ReadingEvidence(c)), c, reading, publishFault, NoFault)
  {
    var c := s.store.ops[k];
    var t := s.(stage := ReadingEvidence(c));
    ReadingSteps(s, k, reading, publishFault);
    var u := Step(t, ReadEvidence(reading, publishFault, NoFault));
    hide Step, StepEvidence;
    RunStep(s, BeginReconcile(k), t, [ReadEvidence(reading, publishFault, NoFault)] + []);
    RunStep(t, ReadEvidence(reading, publishFault, NoFault), u, []);
  }

  lemma ReadingSteps(s: State, k: Key, reading: Reading, publishFault: WriteFault)
    requires Carried(s) && s.ready && s.stage.Idle? && k in s.store.ops && s.store.ops[k].request.key == k
    ensures var c := s.store.ops[k];
            var t := s.(stage := ReadingEvidence(c));
            && Step(s, BeginReconcile(k)) == t
            && Step(t, ReadEvidence(reading, publishFault, NoFault)) == StepEvidence(t, c, reading, publishFault, NoFault)
  {
    hide StepEvidence, StepReplace, StepConclude, Moved, Leaves, StartAccepts, Recovered, PutOperation;
  }

  /** Polling an invoked operation that has no receipt yet, in every run, when something is
      read as its evidence: an envelope of this run, not older than the record and fit for its
      phase, is published as it is, and the status it supports follows; anything else makes
      a running operation uncertain, its receipt invalid. */
  lemma PollOfEvidence(events: seq<Event>, k: Key, reading: Reading, now: int)
    requires var s := Run(FRESH, events); s.ready && s.stage.Idle? && k in s.store.ops && k !in s.store.receipts
    requires var o := Run(FRESH, events).store.ops[k];
             o.status.phase.Running? && !reading.Absent? && now >= o.status.updatedAt
    ensures var s := Run(FRESH, events);
            var o, t := s.store.ops[k], Run(s, PollReading(k, reading, NoFault));
            if reading.Found? && reading.envelope.runId == o.runId && reading.envelope.completedAt >= o.status.updatedAt then
              && k in t.store.receipts && t.store.receipts[k].envelope == reading.envelope && t.store.ops == s.store.ops
              && var u := Step(t, ReplaceStatus(NoFault)).store;
                 && u.receipts == t.store.receipts && k in u.ops && u.ops == s.store.ops[k := u.ops[k]]
                 && (u.ops[k].status.phase.Passed? <==> reading.envelope.passed) && (u.ops[k].status.phase.Failed? <==> !reading.envelope.passed)
                 && u.ops[k].status.receipt == Some(reading.envelope) && u.ops[k].status.completedAt == Some(reading.envelope.completedAt)
            else
              && t.store == s.store
              && Rewritten(s.store, Step(t, HandleCaught(now, NoFault)).store, k, Settled(o, Uncertain, now, ReceiptInvalid), NoFault)
  {
    PollReaches(events, k);
    var s := Run(FRESH, events);
    ReadingRuns(s, k, reading, NoFault);
    hide Run, Step, PollReading;
    var o := s.store.ops[k];
    if reading.Found? { EvidencedExactly(o, reading); }
    if reading.Found? && EvidencedRecord(o, reading.envelope).Some? { FoundSteps(s, o, reading.envelope); } else { InvalidSteps(s, o, reading, now); }
  }

  lemma EvidencedExactly(o: Operation, reading: Reading)
    requires OperationOk(o) && o.status.phase.Running? && reading.Found?
    ensures var e := reading.envelope;
            && (EvidencedRecord(o, e).Some? <==> e.runId == o.runId && e.completedAt >= o.status.updatedAt)
            && (EvidencedRecord(o, e).Some? ==>
                  var n := EvidencedRecord(o, e).value;
                  && n.request == o.request && n != o && OperationOk(n)
                  && (n.status.phase.Passed? <==> e.passed) && (n.status.phase.Failed? <==> !e.passed)
                  && n.status.receipt == Some(e) && n.status.completedAt == Some(e.completedAt))
  {}

  lemma FoundSteps(s: State, o: Operation, e: Evidence)
    requires Carried(s) && Current(s, o) && OperationOk(o) && o.status.phase.Running? && o.request.key !in s.store.receipts
    requires o.status.receipt.None? && EvidencedRecord(o, e).Some?
    ensures var k, n := o.request.key, EvidencedRecord(o, e).value;
            var t := StepEvidence(s.(stage := ReadingEvidence(o)), o, Found(e), NoFault, NoFault);
            && n.request == o.request
            && t.store.ops == s.store.ops && k in t.store.receipts && t.store.receipts[k].envelope == e
            && Carried(t) && Step(t, ReplaceStatus(NoFault)).store.receipts == t.store.receipts
            && Step(t, ReplaceStatus(NoFault)).store.ops == s.store.ops[k := n]
  {
    var n := EvidencedRecord(o, e).value;
    assert n.request == o.request && OperationOk(n);
    var t := StepEvidence(s.(stage := ReadingEvidence(o)), o, Found(e), NoFault, NoFault);
    assert t.stage == Publishing(o, n) by { hide OperationOk, EvidencedRecord; }
    hide OperationOk, EvidencedRecord, StepConclude, Moved, Overwritten;
  }

  lemma InvalidSteps(s: State, o: Operation, reading: Reading, now: int)
    requires Carried(s) && Current(s, o) && OperationOk(o) && o.status.phase.Running? && o.request.key !in s.store.receipts
    requires !reading.Absent? && (reading.Found? ==> EvidencedRecord(o, reading.envelope).None?) && now >= o.status.updatedAt
    ensures var t := StepEvidence(s.(stage := ReadingEvidence(o)), o, reading, NoFault, NoFault);
            && t.store == s.store && Carried(t)
            && Rewritten(s.store, Step(t, HandleCaught(now, NoFault)).store, o.request.key, Settled(o, Uncertain, now, ReceiptInvalid), NoFault)
  {
    assert o.status.receipt.None?;
    var t := StepEvidence(s.(stage := ReadingEvidence(o)), o, reading, NoFault, NoFault);
    assert t == s.(stage := Caught(o)) by { hide OperationOk, EvidencedRecord; }
    var next := UncertainRecord(o, now, ReceiptInvalid);
    assert next == Some(Settled(o, Uncertain, now, ReceiptInvalid)) && OperationOk(next.value) && next.value != o;
    hide OperationOk, StepEvidence, StepConclude, Overwritten, SettledRecord;
    assert Step(t, HandleCaught(now, NoFault)) == Moved(t, o, next, NoFault, Concluding(next.value));
  }

  // ---- A closed coordinator ----

  /** Once closed, a coordinator launches nothing for the rest of its process. */
  lemma {:induction false} ClosedLaunchesNothing(s: State, events: seq<Event>)
    requires Carried(s) && forall e :: e in events ==> !e.Crash? && !e.PowerLoss?
    ensures var t := Run(Step(s, Close), events); t.closed && t.launched == s.launched
  {
    ClosedStays(Step(s, Close), events);
  }

  lemma {:induction false} ClosedStays(s: State, events: seq<Event>)
    requires Carried(s) && s.closed && forall e :: e in events ==> !e.Crash? && !e.PowerLoss?
    ensures var t := Run(s, events); t.closed && t.launched == s.launched
    decreases |events|
  {
    hide Step;
    if events != [] {
      assert events[0] in events && forall e :: e in events[1..] ==> e in events;
      ClosedStep(s, events[0]);
      ClosedStays(Step(s, events[0]), events[1..]);
    }
  }

  lemma ClosedStep(s: State, e: Event)
    requires Carried(s) && s.closed && !e.Crash? && !e.PowerLoss?
    ensures var t := Step(s, e); t.closed && t.launched == s.launched
  {
    hide Moved, StepEvidence, StepReplace, StepConclude, StartAccepts, PutOperation, Recovered;
  }

  // ---- Preparing ----

  /** A new operation is created exactly when its key is free, none bars, and there is room;
      an existing one is handed out exactly for the same request, workspace and run. */
  lemma PreparedExactly(s: Store, request: Request, workspace: string, runId: nat, now: int, fault: WriteFault)
    ensures var (t, r) := PrepareOutcome(s, request, workspace, runId, now, fault);
            var k := request.key;
            var free := && k !in s.ops && |s.ops| < MAX_OPERATION_FILES
                        && forall j :: j in s.ops ==>
                             !s.ops[j].status.phase.Prepared? && (s.ops[j].invocation.Some? ==> s.ops[j].invocation.value.retirement.Some?);
            && (t.ops != s.ops <==> free && !fault.NotWritten?)
            && (t.ops != s.ops ==> t.ops == s.ops[k := NewOperation(request, workspace, runId, now)])
            && (r.Ok? && r.value.1 <==> free && fault.NoFault?)
            && (r.Ok? && !r.value.1 <==> k in s.ops && s.ops[k].request == request && s.ops[k].workspace == workspace && s.ops[k].runId == runId)
            && (r.Ok? && !r.value.1 ==> r.value.0 == s.ops[k] && t == s)
            && (r.Ok? && r.value.1 ==> r.value.0 == NewOperation(request, workspace, runId, now) && t.looseOps == map[])
  {}

  // ---- Why each status stands ----

  /** What the events of a run did that only the failure they report remembers. */
  datatype Causes = Causes(
    rejected: set<Key>,      // invocations of this process whose completion failed
    read: set<Key>)          // operations for which a reconciliation read something as evidence

  ghost function CausesAfter(s: State, causes: Causes, e: Event): Causes {
    if e.RejectCompletion? && e.key in s.watched then causes.(rejected := causes.rejected + {e.key})
    else if e.ReadEvidence? && !e.reading.Absent? && s.stage.ReadingEvidence? then
      causes.(read := causes.read + {s.stage.current.request.key})
    else causes
  }

  ghost function CausesOf(s: State, causes: Causes, events: seq<Event>): Causes
    requires Carried(s)
    decreases |events|
  {
    if events == [] then causes else CausesOf(Step(s, events[0]), CausesAfter(s, causes, events[0]), events[1..])
  }

  /** Each failure of an operation has its own cause, and each proof of retirement its own past. */
  predicate Explained(o: Operation, launched: seq<Key>, causes: Causes) {
    var k := o.request.key;
    && (o.status.error == Some(NotInvoked) || o.status.error == Some(CandidateChanged) ==> o.status.phase.Failed? && o.invocation.None?)
    && (o.status.error == Some(LaunchFailed) ==>
          o.status.phase.Failed? && o.invocation.Some? && o.invocation.value.retirement.Some?
          && o.invocation.value.retirement.value.proof.SpawnFailed?)
    && (o.status.error == Some(EvaluationFailed) ==> o.status.phase.Failed? && o.status.receipt.Some? && !o.status.receipt.value.passed)
    && (o.status.error == Some(ReceiptInvalid) ==> o.status.phase.Uncertain? && k in causes.read)
    && (o.status.error == Some(OutcomeUnknown) ==>
          o.status.phase.Uncertain? && o.invocation.Some?
          && (|| o.invocation.value.retirement.Some? || o.invocation.value.outer.None?
              || o.status.updatedAt >= o.invocation.value.deadlineAt || k in causes.rejected))
    && (o.status.phase.Uncertain? ==> o.status.error == Some(ReceiptInvalid) || o.status.error == Some(OutcomeUnknown))
    && (o.invocation.Some? ==>
          && (o.invocation.value.outer.Some? ==> k in launched)
          && (o.invocation.value.retirement.Some? && o.invocation.value.retirement.value.proof.SpawnFailed? ==> k !in launched))
  }

  ghost predicate VersionsExplained(s: State, causes: Causes) {
    forall k, o :: OpMay(s.store, k, Some(o)) ==> Explained(o, s.launched, causes)
  }

  predicate ReceiptExplained(r: ReceiptFile) {
    r.status.error == if r.status.phase.Passed? then None else Some(EvaluationFailed)
  }

  predicate StageExplained(s: State, causes: Causes) {
    match s.stage
    case FailingUnlaunched(c) =>
      c.invocation.Some? && c.invocation.value.retirement.Some? && c.invocation.value.retirement.value.proof.SpawnFailed?
    case Launched(c) => c.request.key in s.launched
    case Publishing(c, _) => c.request.key in causes.read
    case Caught(c) => c.request.key in causes.read
    case _ => true
  }

  ghost predicate AllExplained(s: State, causes: Causes) {
    && VersionsExplained(s, causes) && StageExplained(s, causes)
    && forall k :: k in s.store.receipts ==> ReceiptExplained(s.store.receipts[k])
  }

  /** A write over the carried record adds at most the new one to the versions. */
  lemma MovedIsExplained(s: State, c: Operation, next: Option<Operation>, fault: WriteFault, after: Stage, causes: Causes)
    requires VersionsExplained(s, causes) && c.request.key in s.store.ops
    requires next.Some? && Current(s, c) ==> Explained(next.value, s.launched, causes)
    ensures VersionsExplained(Moved(s, c, next, fault, after), causes)
  {
    hide Explained, OperationOk;
    var k := c.request.key;
    var t := Moved(s, c, next, fault, after);
    if t.store != s.store {
      assert t.store == PutOperation(s.store, k, next.value, fault).store;
      forall j, o | OpMay(t.store, j, Some(o)) ensures Explained(o, s.launched, causes) {
        PutVersions(s.store, k, next.value, fault, j, Some(o));
      }
    }
  }

  lemma StepIsMoved(s: State, c: Operation, next: Option<Operation>, fault: WriteFault, after: Stage, causes: Causes)
    requires AllExplained(s, causes) && c.request.key in s.store.ops
    requires next.Some? && Current(s, c) ==> Explained(next.value, s.launched, causes)
    requires StageExplained(s.(stage := after), causes)
    ensures AllExplained(Moved(s, c, next, fault, after), causes)
  {
    MovedIsExplained(s, c, next, fault, after, causes);
    hide VersionsExplained, Explained, ReceiptExplained;
  }

  /** Settling without evidence, for a reason the operation explains. */
  lemma SettlingIsExplained(s: State, c: Operation, phase: Phase, now: int, error: ErrorCode, causes: Causes)
    requires Explained(c, s.launched, causes) && SettledRecord(c, phase, now, None, Some(error)).Some? && OperationOk(c)
    requires match error
             case NotInvoked => phase.Failed? && c.status.phase.Prepared?
             case CandidateChanged => phase.Failed? && c.status.phase.Prepared?
             case LaunchFailed => phase.Failed? && c.invocation.Some? && c.invocation.value.retirement.Some?
                                  && c.invocation.value.retirement.value.proof.SpawnFailed?
             case EvaluationFailed => false
             case ReceiptInvalid => phase.Uncertain? && c.request.key in causes.read
             case OutcomeUnknown =>
               phase.Uncertain? && c.invocation.Some?
               && (|| c.invocation.value.retirement.Some? || c.invocation.value.outer.None?
                   || now >= c.invocation.value.deadlineAt || c.request.key in causes.rejected)
    ensures Explained(SettledRecord(c, phase, now, None, Some(error)).value, s.launched, causes)
  {}

  lemma OtherStageIsExplained(s: State, stage: Stage, causes: Causes)
    requires AllExplained(s, causes) && StageExplained(s.(stage := stage), causes)
    ensures AllExplained(s.(stage := stage), causes)
  {
    hide OpMay, ReceiptExplained;
  }

  lemma CurrentIsExplained(s: State, c: Operation, causes: Causes)
    requires VersionsExplained(s, causes) && Current(s, c)
    ensures Explained(c, s.launched, causes)
  {
    assert OpMay(s.store, c.request.key, Some(c));
    hide Explained;
  }

  lemma CheckIsExplained(s: State, e: Event, causes: Causes)
    requires Live(s) && AllExplained(s, causes) && (e.CheckFails? || e.CheckPasses?)
    ensures AllExplained(Step(s, e), causes)
  {
    hide Core, Moved, OperationOk, SettledRecord, Explained, VersionsExplained, ReceiptExplained;
    if s.stage.Checking? {
      var c := s.stage.current;
      CoreAt(s, c);
      CurrentIsExplained(s, c, causes);
      var error := if e.CheckFails? && e.changed then CandidateChanged else NotInvoked;
      var failed := FailedRecord(c, e.now, error);
      if failed.Some? { SettlingIsExplained(s, c, Failed, e.now, error, causes); }
      StepIsMoved(s, c, failed, e.fault, Idle, causes);
      if e.CheckPasses? && !s.closed {
        var next := StartedRecord(c, e.now, e.deadlineAt);
        StartedIsExplained(s, c, e.now, e.deadlineAt, causes);
        StepIsMoved(s, c, next, e.fault, if next.Some? then Launching(next.value) else Idle, causes);
      }
    }
  }

  lemma StartedIsExplained(s: State, c: Operation, now: int, deadlineAt: int, causes: Causes)
    requires Explained(c, s.launched, causes) && OperationOk(c) && c.status.phase.Prepared?
    ensures var next := StartedRecord(c, now, deadlineAt); next.Some? ==> Explained(next.value, s.launched, causes)
  {}

  lemma UnlaunchedIsExplained(s: State, e: Event, causes: Causes)
    requires Live(s) && AllExplained(s, causes) && (e.RetireUnlaunched? || e.FailUnlaunched? || e.PublishOuter?)
    ensures AllExplained(Step(s, e), causes)
  {
    hide Core, Moved, OperationOk, SettledRecord, VersionsExplained, ReceiptExplained;
    if e.RetireUnlaunched? && s.stage.Unlaunched? {
      var c := s.stage.current;
      CurrentIsExplained(s, c, causes);
      var next := RetiredRecord(c, SpawnFailed, e.now);
      StepIsMoved(s, c, next, e.fault, if next.Some? then FailingUnlaunched(next.value) else Idle, causes);
    } else if e.FailUnlaunched? && s.stage.FailingUnlaunched? {
      var c := s.stage.current;
      CoreAt(s, c);
      CurrentIsExplained(s, c, causes);
      var next := FailedRecord(c, e.now, LaunchFailed);
      if next.Some? { SettlingIsExplained(s, c, Failed, e.now, LaunchFailed, causes); }
      StepIsMoved(s, c, next, e.fault, Idle, causes);
    } else if e.PublishOuter? && s.stage.Launched? {
      var c := s.stage.current;
      CurrentIsExplained(s, c, causes);
      StepIsMoved(s, c, OuterRecord(c, e.pid, e.now), e.fault, Idle, causes);
    }
  }

  lemma ConclusionIsExplained(s: State, c: Operation, gone: bool, now: int, fault: WriteFault, causes: Causes)
    requires Live(s) && AllExplained(s, causes) && s.stage == Concluding(c)
    ensures AllExplained(StepConclude(s, c, gone, now, fault), causes)
  {
    hide Core, Moved, OperationOk, SettledRecord, VersionsExplained, ReceiptExplained, Explained, RetiredRecord;
    var failed := FailedRecord(c, now, NotInvoked);
    var uncertain := UncertainRecord(c, now, OutcomeUnknown);
    var retired := RetiredRecord(c, TreeRetired, now);
    OtherStageIsExplained(s, Idle, causes);
    if Current(s, c) { CurrentIsExplained(s, c, causes); }
    if c.status.phase.Prepared? {
      if Current(s, c) && failed.Some? { SettlingIsExplained(s, c, Failed, now, NotInvoked, causes); }
      StepIsMoved(s, c, failed, fault, Idle, causes);
    } else if c.invocation.Some? {
      var i := c.invocation.value;
      if i.retirement.None? && i.outer.Some? && gone && c.request.key !in s.alive {
        if Current(s, c) && retired.Some? { RetiringIsExplained(s, c, now, causes); }
        StepIsMoved(s, c, retired, fault, if retired.Some? then Concluding(retired.value) else Idle, causes);
      } else if c.status.phase.Running? && (i.retirement.Some? || i.outer.None? || now >= i.deadlineAt) {
        if Current(s, c) && uncertain.Some? { SettlingIsExplained(s, c, Uncertain, now, OutcomeUnknown, causes); }
        StepIsMoved(s, c, uncertain, fault, Idle, causes);
      }
    }
  }

  lemma RetiringIsExplained(s: State, c: Operation, now: int, causes: Causes)
    requires Explained(c, s.launched, causes) && RetiredRecord(c, TreeRetired, now).Some?
    ensures Explained(RetiredRecord(c, TreeRetired, now).value, s.launched, causes)
  {}

  lemma FailureIsExplained(s: State, e: Event, causes: Causes)
    requires Live(s) && AllExplained(s, causes) && (e.HandleCaught? || e.RejectCompletion?)
    ensures AllExplained(Step(s, e), CausesAfter(s, causes, e))
  {
    hide Core, Moved, OperationOk, SettledRecord, VersionsExplained, ReceiptExplained, Explained;
    MoreCauses(s, causes, e);
    var after := CausesAfter(s, causes, e);
    if e.HandleCaught? && s.stage.Caught? {
      var c := s.stage.current;
      var next := UncertainRecord(c, e.now, ReceiptInvalid);
      OtherStageIsExplained(s, Concluding(c), causes);
      if Current(s, c) && next.Some? {
        CurrentIsExplained(s, c, causes);
        SettlingIsExplained(s, c, Uncertain, e.now, ReceiptInvalid, causes);
      }
      StepIsMoved(s, c, next, e.fault, if next.Some? then Concluding(next.value) else Idle, causes);
    } else if e.RejectCompletion? && Step(s, e) != s {
      var c := s.store.ops[e.key];
      CurrentIsExplained(s, c, after);
      CoreAt(s, c);
      var next := UncertainRecord(c, e.now, OutcomeUnknown);
      if next.Some? { RunningIsInvoked(c); SettlingIsExplained(s, c, Uncertain, e.now, OutcomeUnknown, after); }
      StepIsMoved(s, c, next, e.fault, Idle, after);
    }
  }

  lemma RunningIsInvoked(c: Operation)
    requires OperationOk(c) && c.status.phase.Running?
    ensures c.invocation.Some?
  {}

  lemma MoreCauses(s: State, causes: Causes, e: Event)
    requires AllExplained(s, causes)
    ensures AllExplained(s, CausesAfter(s, causes, e))
  {
    hide OpMay, ReceiptExplained;
  }

  lemma EvidenceIsExplained(c: Operation, e: Evidence, launched: seq<Key>, causes: Causes)
    requires Explained(c, launched, causes) && EvidencedRecord(c, e).Some?
    ensures var next := EvidencedRecord(c, e).value;
            && Explained(next, launched, causes) && ReceiptExplained(ReceiptFile(next.request, next.status, e))
  {}

  lemma AdoptionIsExplained(r: ReceiptFile, c: Operation, launched: seq<Key>, causes: Causes)
    requires Explained(c, launched, causes) && ReceiptExplained(r) && AdoptedRecord(r, c).Some?
    ensures Explained(AdoptedRecord(r, c).value, launched, causes)
  {}

  lemma SameOpsAreExplained(s: State, store: Store, causes: Causes)
    requires VersionsExplained(s, causes) && store.ops == s.store.ops && store.looseOps == s.store.looseOps
    ensures VersionsExplained(s.(store := store), causes)
  {
    assert forall k, v :: OpMay(store, k, v) <==> OpMay(s.store, k, v);
    hide OpMay, Explained;
  }

  lemma ReadingIsExplained(s: State, e: Event, causes: Causes)
    requires Live(s) && AllExplained(s, causes) && e.ReadEvidence? && s.stage.ReadingEvidence?
    ensures AllExplained(Step(s, e), CausesAfter(s, causes, e))
  {
    hide Core, Moved, OperationOk, EvidencedRecord, AdoptedRecord, VersionsExplained, ReceiptExplained, Explained, PublishWrite;
    MoreCauses(s, causes, e);
    var after, c := CausesAfter(s, causes, e), s.stage.current;
    var k := c.request.key;
    CurrentIsExplained(s, c, after);
    OtherStageIsExplained(s, Idle, after);
    OtherStageIsExplained(s, Concluding(c), after);
    if k in s.store.receipts {
      var r := s.store.receipts[k];
      var next := AdoptedRecord(r, c);
      if next.Some? && next.value != c {
        AdoptionIsExplained(r, c, s.launched, after);
        var w := PublishWrite(s.store, next.value, r.envelope, e.publishFault);
        assert w.store.receipts == s.store.receipts by { AdoptedFacts(r, c); ConfirmedAgain(s.store, next.value, r.envelope, e.publishFault); }
        var confirmed := s.(store := w.store);
        SameOpsAreExplained(s, w.store, after);
        OtherStageIsExplained(confirmed, Idle, after);
        StepIsMoved(confirmed, c, next, e.fault, Concluding(next.value), after);
      }
    } else if !(c.status.receipt.Some? || c.status.phase.Prepared? || e.reading.Absent?) {
      var next := if e.reading.Found? then EvidencedRecord(c, e.reading.envelope) else None;
      OtherStageIsExplained(s, Caught(c), after);
      if next.Some? {
        EvidenceIsExplained(c, e.reading.envelope, s.launched, after);
        CoreAt(s, c);
        EvidencedIsSealed(c, e.reading.envelope);
        PublishFacts(s.store, next.value, e.reading.envelope, e.publishFault);
        var w := PublishWrite(s.store, next.value, e.reading.envelope, e.publishFault);
        SameOpsAreExplained(s, w.store, after);
        assert AllExplained(s.(store := w.store), after);
        OtherStageIsExplained(s.(store := w.store), if w.ok then Publishing(c, next.value) else Caught(c), after);
      }
    }
  }

  lemma ConfirmedAgain(s: Store, o: Operation, e: Evidence, fault: WriteFault)
    requires o.request.key in s.receipts
    ensures PublishWrite(s, o, e, fault).store.receipts == s.receipts
  {}

  lemma ReplacingIsExplained(s: State, e: Event, causes: Causes)
    requires Live(s) && AllExplained(s, causes) && e.ReplaceStatus? && s.stage.Publishing?
    ensures AllExplained(Step(s, e), causes)
  {
    hide Core, OperationOk, VersionsExplained, ReceiptExplained, CasWrite;
    var c, next := s.stage.current, s.stage.next;
    CurrentIsExplained(s, c, causes);
    CitedIsExplained(s, c, next, causes);
    hide Explained;
    StepIsMoved(s, c, Some(next), e.fault, Concluding(next), causes);
    OtherStageIsExplained(Moved(s, c, Some(next), e.fault, Concluding(next)), Step(s, e).stage, causes);
  }

  lemma CitedIsExplained(s: State, c: Operation, next: Operation, causes: Causes)
    requires Live(s) && AllExplained(s, causes) && s.stage == Publishing(c, next) && Explained(c, s.launched, causes)
    ensures Explained(next, s.launched, causes) && next != c
  {
    CoreAt(s, c);
    hide Core, OpMay, Dead, UpdatedAtStart, ReceiptSound, InvocationOk;
  }

  /** The launched operation has no proof that it never started, in any version. */
  lemma LaunchingIsExplained(s: State, spawned: bool, causes: Causes)
    requires Live(s) && AllExplained(s, causes) && s.stage.Launching?
    ensures AllExplained(Step(s, Launch(spawned)), causes)
  {
    hide Accepted, WorldOk, OperationOk, ReceiptExplained;
    var c := s.stage.current;
    forall k, o | OpMay(s.store, k, Some(o)) ensures Explained(o, s.launched + [c.request.key], causes) {
      assert Explained(o, s.launched, causes) && VersionOk(s.store, k, o);
    }
    hide Explained, FilesInv;
  }

  lemma StartingIsExplained(s: State, e: Event, causes: Causes)
    requires AllExplained(s, causes) && Carried(s) && e.Start?
    ensures AllExplained(Step(s, e), causes)
  {
    hide IsBarrier, ReceiptExplained;
    if Step(s, e) != s {
      var record := NewOperation(e.request, e.workspace, e.runId, e.now);
      var t := Step(s, e);
      forall k, o | OpMay(t.store, k, Some(o)) ensures Explained(o, s.launched, causes) {
        PutVersions(s.store, e.request.key, record, e.fault, k, Some(o));
      }
      hide Explained;
    }
  }

  /** Files that add nothing to the versions. */
  lemma FewerIsExplained(s: State, t: State, causes: Causes)
    requires AllExplained(s, causes) && Fewer(s.store, t.store) && t.launched == s.launched && t.stage.Idle?
    requires forall k :: k in t.store.receipts ==> k in s.store.receipts && t.store.receipts[k] == s.store.receipts[k]
    ensures AllExplained(t, causes)
  {
    hide Explained, ReceiptExplained, OpMay, DurableReceipt;
  }

  lemma LossIsExplained(s: State, left: Store, causes: Causes)
    requires Inv(s) && Carried(s) && AllExplained(s, causes)
    ensures AllExplained(Step(s, PowerLoss(left)), causes)
  {
    InvParts(s);
    NothingUndone(s.store);
    var t := Step(s, PowerLoss(left)).store;
    hide FilesInv, WorldOk, Leaves, Inv, AllExplained, Fewer;
    LeftFiles(s.store, t);
    LeftIsFewer(s.store, t);
    FewerIsExplained(s, Step(s, PowerLoss(left)), causes);
  }

  lemma OpeningIsExplained(s: State, e: Event, causes: Causes)
    requires Inv(s) && Carried(s) && AllExplained(s, causes) && e.Open?
    ensures AllExplained(Step(s, e), causes)
  {
    hide AllExplained, Fewer, FilesInv, WorldOk, Core, StageInv, StartAccepts, KeptVisibly;
    RecoveredIsFewer(s.store, e.sweptOps, e.sweptReceipts);
    if !s.ready { FewerIsExplained(s, Step(s, e), causes); }
  }

  lemma PassingIsExplained(s: State, e: Event, causes: Causes)
    requires Inv(s) && Carried(s) && AllExplained(s, causes)
    requires e.Crash? || e.PowerLoss? || e.Open? || e.Close? || e.TreeEnds? || e.BeginReconcile?
    ensures AllExplained(Step(s, e), causes)
  {
    hide AllExplained, FilesInv, WorldOk, Core, StageInv, StartAccepts;
    if e.PowerLoss? { LossIsExplained(s, e.left, causes); }
    else if e.Open? { OpeningIsExplained(s, e, causes); }
    else {
      var t := s.(stage := Step(s, e).stage);
      if t.stage != s.stage { OtherStageIsExplained(s, t.stage, causes); }
      SameFilesAreExplained(t, Step(s, e), causes);
    }
  }

  lemma SameFilesAreExplained(s: State, t: State, causes: Causes)
    requires AllExplained(s, causes) && t.store == s.store && t.launched == s.launched && t.stage == s.stage
    ensures AllExplained(t, causes)
  {
    hide Explained, ReceiptExplained, OpMay;
  }

  lemma StepIsExplained(s: State, e: Event, causes: Causes)
    requires Inv(s) && Carried(s) && AllExplained(s, causes)
    ensures AllExplained(Step(s, e), CausesAfter(s, causes, e))
  {
    hide Step, Live, AllExplained, FilesInv, WorldOk;
    MoreCauses(s, causes, e);
    var after := CausesAfter(s, causes, e);
    if e.Crash? || e.PowerLoss? || e.Open? || e.Close? || e.TreeEnds? || e.BeginReconcile? { PassingIsExplained(s, e, causes); }
    else if e.Start? { StartingIsExplained(s, e, causes); }
    else if !IsWork(s, e) { NoWork(s, e); }
    else if e.CheckFails? || e.CheckPasses? { CheckIsExplained(s, e, causes); }
    else if e.Launch? { LaunchingIsExplained(s, e.spawned, causes); }
    else if e.RetireUnlaunched? || e.FailUnlaunched? || e.PublishOuter? { UnlaunchedIsExplained(s, e, causes); }
    else if e.ReadEvidence? { ReadingIsExplained(s, e, causes); }
    else if e.ReplaceStatus? { ReplacingIsExplained(s, e, causes); }
    else if e.Conclude? { ConcludeStep(s, e); ConclusionIsExplained(s, s.stage.current, e.gone, e.now, e.fault, causes); }
    else { FailureIsExplained(s, e, causes); }
  }

  /** The section is where this event belongs. */
  predicate IsWork(s: State, e: Event) {
    match e
    case CheckFails(_, _, _) => s.stage.Checking?
    case CheckPasses(_, _, _) => s.stage.Checking?
    case Launch(_) => s.stage.Launching?
    case RetireUnlaunched(_, _) => s.stage.Unlaunched?
    case FailUnlaunched(_, _) => s.stage.FailingUnlaunched?
    case PublishOuter(_, _, _) => s.stage.Launched?
    case ReadEvidence(_, _, _) => s.stage.ReadingEvidence?
    case ReplaceStatus(_) => s.stage.Publishing?
    case HandleCaught(_, _) => s.stage.Caught?
    case Conclude(_, _, _) => s.stage.Concluding?
    case RejectCompletion(_, _, _) => s.ready
    case _ => true
  }

  lemma NoWork(s: State, e: Event)
    requires Carried(s) && !IsWork(s, e)
    ensures Step(s, e) == s
  {
    hide Moved, StepEvidence, StepReplace, StepConclude, StartAccepts;
  }

  lemma ConcludeStep(s: State, e: Event)
    requires Carried(s) && e.Conclude? && s.stage.Concluding?
    ensures Step(s, e) == StepConclude(s, s.stage.current, e.gone, e.now, e.fault)
  {
    hide StepConclude;
  }

  lemma {:induction false} RunIsExplained(s: State, causes: Causes, events: seq<Event>)
    requires Inv(s) && Carried(s) && AllExplained(s, causes)
    ensures AllExplained(Run(s, events), CausesOf(s, causes, events))
    decreases |events|
  {
    hide Inv, Step, AllExplained, CausesAfter;
    if events != [] {
      StepKeepsInv(s, events[0]);
      StepIsExplained(s, events[0], causes);
      RunIsExplained(Step(s, events[0]), CausesAfter(s, causes, events[0]), events[1..]);
    }
  }

  /** In every run, whatever version of an operation a power loss may leave: its outcome
      is unknown only where the invocation was retired, had no outer process, had passed
      its deadline, or had its completion rejected; its receipt is invalid only where
      something was read as one; it counts as not invoked, changed or failed to launch
      only without an invocation or with the proof that nothing started; and that proof
      only stands for an operation never launched, an outer process only for a launched one. */
  lemma StatusIsExplained(events: seq<Event>, k: Key, o: Operation)
    ensures var s := Run(FRESH, events);
            OpMay(s.store, k, Some(o)) ==> Explained(o, s.launched, CausesOf(FRESH, Causes({}, {}), events))
  {
    FreshIsInv();
    RunIsExplained(FRESH, Causes({}, {}), events);
    hide Run, OpMay, Explained;
  }
}
