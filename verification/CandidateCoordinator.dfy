/** The candidate evaluation coordinator as a transition system: every step is one
    store write or one external call of its serialized section, so the death of the
    process, a power loss, a close or the end of a process tree may come between
    any two. A write that the process dies inside is one that ended unconfirmed or
    not at all. */
module CandidateCoordinators {
  import opened Outcomes
  import opened CandidateStores

  /** Where the serialized section stands; a record carried along is the one last
      read or written. */
  datatype Stage =
    | Idle
    | Checking(current: Operation)          // prepared; authority and preflight are checked again
    | Launching(current: Operation)         // the invocation is durable; the launch comes next
    | Unlaunched(current: Operation)        // no launch happened; negative evidence is written next
    | FailingUnlaunched(current: Operation) // and then the failed status
    | Launched(current: Operation)          // the outer process is published next
    | ReadingEvidence(current: Operation)   // reconciling: receipts first
    | Publishing(current: Operation, next: Operation)  // the receipt is out; the status is written next
    | Caught(current: Operation)            // handling evidence failed
    | Concluding(current: Operation)        // reconciling: process observation

  datatype State = State(
    store: Store,
    ready: bool,             // a start has accepted the files
    stage: Stage,
    closed: bool,
    watched: set<Key>,       // invocations this process launched and awaits
    launched: seq<Key>,      // every launch there ever was
    alive: set<Key>)         // operations whose process tree still runs

  const FRESH := State(Synced(map[], map[]), false, Idle, false, {}, [], {})

  datatype Reading = Absent | Invalid | Found(envelope: Evidence)

  datatype Event =
    | Start(request: Request, workspace: string, runId: nat, now: int, fault: WriteFault)
    | CheckFails(changed: bool, now: int, fault: WriteFault)
    | CheckPasses(now: int, deadlineAt: int, fault: WriteFault)
    | Launch(spawned: bool)
    | RetireUnlaunched(now: int, fault: WriteFault)
    | FailUnlaunched(now: int, fault: WriteFault)
    | PublishOuter(pid: nat, now: int, fault: WriteFault)
    | BeginReconcile(key: Key)
    | ReadEvidence(reading: Reading, publishFault: WriteFault, fault: WriteFault)
    | ReplaceStatus(fault: WriteFault)
    | HandleCaught(now: int, fault: WriteFault)
    | Conclude(gone: bool, now: int, fault: WriteFault)
    | RejectCompletion(key: Key, now: int, fault: WriteFault)   // a watched invocation's completion fails
    | Close
    | TreeEnds(key: Key)
    | Crash
    | PowerLoss(left: Store)       // leaves these files, or undoes nothing if it cannot leave them
    | Open(sweptOps: bool, sweptReceipts: bool)

  // ---- Steps ----

  /** The carried record's file exists; it is only ever replaced. */
  predicate Carried(s: State) {
    && (s.stage.Idle? || s.stage.current.request.key in s.store.ops)
    && (s.stage.Publishing? ==> s.stage.next.request == s.stage.current.request)
  }

  /** Writes `next` over the carried record and goes on, or leaves the section when that throws. */
  ghost function Moved(s: State, current: Operation, next: Option<Operation>, fault: WriteFault, after: Stage): (t: State)
    requires current.request.key in s.store.ops
    ensures t.store.ops.Keys == s.store.ops.Keys && (t.stage.Idle? || t.stage == after)
    ensures t == s.(store := t.store, stage := t.stage)
    ensures t.store.receipts == s.store.receipts && t.store.looseReceipts == s.store.looseReceipts
  {
    if next.None? then s.(stage := Idle)
    else if next.value == current then s.(stage := after)
    else
      var w := CasWrite(s.store, current, next.value, fault);
      s.(store := w.store, stage := if w.ok then after else Idle)
  }

  function FailedRecord(c: Operation, now: int, error: ErrorCode): Option<Operation> {
    SettledRecord(c, Failed, now, None, Some(error))
  }

  function UncertainRecord(c: Operation, now: int, error: ErrorCode): Option<Operation> {
    SettledRecord(c, Uncertain, now, None, Some(error))
  }

  /** The terminal record an envelope supports. */
  function EvidencedRecord(c: Operation, e: Evidence): Option<Operation> {
    if e.runId != c.runId then None
    else SettledRecord(c, if e.passed then Passed else Failed, e.completedAt, Some(e), if e.passed then None else Some(EvaluationFailed))
  }

  /** The stored receipt is exactly what its envelope supports. */
  predicate Correlated(r: ReceiptFile, c: Operation) {
    && r.envelope.runId == c.runId && r.status.receipt == Some(r.envelope)
    && r.status.completedAt == Some(r.envelope.completedAt) && (r.status.phase.Passed? || r.status.phase.Failed?)
  }

  function AdoptedRecord(r: ReceiptFile, c: Operation): Option<Operation> {
    if !Belongs(r, c) || !Correlated(r, c) then None
    else if c.status == r.status then Some(c)
    else SettledRecord(c, r.status.phase, r.envelope.completedAt, Some(r.envelope), r.status.error)
  }

  ghost function StepEvidence(s: State, c: Operation, reading: Reading, publishFault: WriteFault, fault: WriteFault): (t: State)
    requires c.request.key in s.store.ops
    ensures Carried(t) && t.store.ops.Keys == s.store.ops.Keys
    ensures t == s.(store := t.store, stage := t.stage)
  {
    var k := c.request.key;
    if k in s.store.receipts then
      var next := AdoptedRecord(s.store.receipts[k], c);
      if next.None? then s.(stage := Idle)
      else if next.value == c then s.(stage := Concluding(c))
      else
        var w := PublishWrite(s.store, next.value, s.store.receipts[k].envelope, publishFault);
        if w.ok then Moved(s.(store := w.store), c, next, fault, Concluding(next.value)) else s.(store := w.store, stage := Idle)
    else if c.status.receipt.Some? || c.status.phase.Prepared? || reading.Absent? then s.(stage := Concluding(c))
    else
      var next := if reading.Found? then EvidencedRecord(c, reading.envelope) else None;
      if next.None? then s.(stage := Caught(c))
      else
        var w := PublishWrite(s.store, next.value, reading.envelope, publishFault);
        s.(store := w.store, stage := if w.ok then Publishing(c, next.value) else Caught(c))
  }

  /** The second write of an evidenced settlement; the first one published the receipt. */
  ghost function StepReplace(s: State, c: Operation, next: Operation, fault: WriteFault): (t: State)
    requires c.request.key in s.store.ops && next.request == c.request
    ensures Carried(t) && t.store.ops.Keys == s.store.ops.Keys && t.store.receipts == s.store.receipts
    ensures t == s.(store := t.store, stage := t.stage)
  {
    var w := CasWrite(s.store, c, next, fault);
    s.(store := w.store, stage := if w.ok then Concluding(next) else Caught(c))
  }

  ghost function StepConclude(s: State, c: Operation, gone: bool, now: int, fault: WriteFault): (t: State)
    requires c.request.key in s.store.ops
    ensures Carried(t) && t.store.ops.Keys == s.store.ops.Keys && t.store.receipts == s.store.receipts
    ensures t == s.(store := t.store, stage := t.stage)
  {
    if c.status.phase.Prepared? then Moved(s, c, FailedRecord(c, now, NotInvoked), fault, Idle)
    else if c.invocation.None? then s.(stage := Idle)
    else
      var i := c.invocation.value;
      var uncertain := UncertainRecord(c, now, OutcomeUnknown);
      if i.retirement.Some? then if c.status.phase.Running? then Moved(s, c, uncertain, fault, Idle) else s.(stage := Idle)
      else if i.outer.Some? && gone && c.request.key !in s.alive then
        var retired := RetiredRecord(c, TreeRetired, now);
        Moved(s, c, retired, fault, if retired.Some? then Concluding(retired.value) else Idle)
      else if c.status.phase.Running? && (i.outer.None? || now >= i.deadlineAt) then Moved(s, c, uncertain, fault, Idle)
      else s.(stage := Idle)
  }

  ghost function Step(s: State, e: Event): (t: State)
    requires Carried(s)
    ensures Carried(t)
  {
    match e
    case Crash => s.(ready := false, stage := Idle, closed := false, watched := {})
    case PowerLoss(left) =>
      s.(store := if Leaves(s.store, left) then left else Synced(s.store.ops, s.store.receipts),
         ready := false, stage := Idle, closed := false, watched := {})
    case Open(sweptOps, sweptReceipts) =>
      if s.ready then s
      else
        var store := Recovered(s.store, sweptOps, sweptReceipts);
        s.(store := store, ready := StartAccepts(store))
    case Close => s.(closed := true)
    case TreeEnds(key) => s.(alive := s.alive - {key})
    case Start(request, workspace, runId, now, fault) =>
      if !s.ready || !s.stage.Idle? || request.key in s.store.ops || (exists j :: j in s.store.ops && IsBarrier(s.store.ops[j]))
         || |s.store.ops| >= MAX_OPERATION_FILES then s
      else
        var record := NewOperation(request, workspace, runId, now);
        var w := PutOperation(s.store, request.key, record, fault);
        s.(store := w.store, stage := if w.ok then Checking(record) else Idle)
    case CheckFails(changed, now, fault) =>
      if !s.stage.Checking? then s
      else Moved(s, s.stage.current, FailedRecord(s.stage.current, now, if changed then CandidateChanged else NotInvoked), fault, Idle)
    case CheckPasses(now, deadlineAt, fault) =>
      if !s.stage.Checking? then s
      else
        var c := s.stage.current;
        if s.closed then Moved(s, c, FailedRecord(c, now, NotInvoked), fault, Idle)
        else
          var next := StartedRecord(c, now, deadlineAt);
          Moved(s, c, next, fault, if next.Some? then Launching(next.value) else Idle)
    case Launch(spawned) =>
      if !s.stage.Launching? then s
      else
        var c := s.stage.current;
        if s.closed || !spawned then s.(stage := Unlaunched(c))
        else s.(stage := Launched(c), launched := s.launched + [c.request.key], alive := s.alive + {c.request.key},
                watched := s.watched + {c.request.key})
    case RetireUnlaunched(now, fault) =>
      if !s.stage.Unlaunched? then s
      else
        var next := RetiredRecord(s.stage.current, SpawnFailed, now);
        Moved(s, s.stage.current, next, fault, if next.Some? then FailingUnlaunched(next.value) else Idle)
    case FailUnlaunched(now, fault) =>
      if !s.stage.FailingUnlaunched? then s
      else Moved(s, s.stage.current, FailedRecord(s.stage.current, now, LaunchFailed), fault, Idle)
    case PublishOuter(pid, now, fault) =>
      if !s.stage.Launched? then s else Moved(s, s.stage.current, OuterRecord(s.stage.current, pid, now), fault, Idle)
    case BeginReconcile(key) =>
      if !s.ready || !s.stage.Idle? || key !in s.store.ops || s.store.ops[key].request.key != key then s
      else s.(stage := ReadingEvidence(s.store.ops[key]))
    case ReadEvidence(reading, publishFault, fault) =>
      if s.stage.ReadingEvidence? then StepEvidence(s, s.stage.current, reading, publishFault, fault) else s
    case ReplaceStatus(fault) =>
      if s.stage.Publishing? then StepReplace(s, s.stage.current, s.stage.next, fault) else s
    case HandleCaught(now, fault) =>
      if !s.stage.Caught? then s
      else if !s.stage.current.status.phase.Running? then s.(stage := Concluding(s.stage.current))
      else
        var next := UncertainRecord(s.stage.current, now, ReceiptInvalid);
        Moved(s, s.stage.current, next, fault, if next.Some? then Concluding(next.value) else Idle)
    case RejectCompletion(key, now, fault) =>
      if !s.ready || !s.stage.Idle? || key !in s.watched || key !in s.store.ops || s.store.ops[key].request.key != key
         || !s.store.ops[key].status.phase.Running? then s
      else Moved(s, s.store.ops[key], UncertainRecord(s.store.ops[key], now, OutcomeUnknown), fault, Idle)
    case Conclude(gone, now, fault) =>
      if s.stage.Concluding? then StepConclude(s, s.stage.current, gone, now, fault) else s
  }

  ghost function Run(s: State, events: seq<Event>): (t: State)
    requires Carried(s)
    ensures Carried(t)
    decreases |events|
  {
    if events == [] then s else Run(Step(s, events[0]), events[1..])
  }
}
