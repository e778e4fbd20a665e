/** The OAuth session broker over the durable journal, as a step system.

    Each step is one stretch of the broker's code between two await points, or
    one effect of the journal. Provider, storage, callers, write failures, process
    death, power loss and the wall clock, which may be set forward or back at any
    time, are free choices carried by the event. The provider is the one literal
    identifier an attempt may carry, so the broker's provider table holds at most
    one session; that session is `slot`. */
module OAuthBrokers {
  import opened Outcomes
  import opened OAuthRecords
  import opened OAuthAttemptStores

  datatype LoginResult = Credentials | LoginRejected | LoginHelperUnconfirmed

  datatype StorageResult = Confirmed | Unconfirmed | StorageHelperUnconfirmed

  datatype RunPc =
    | LoggingIn                         // provider.login has been called and has not returned
    | LoginEnded(login: LoginResult)    // returned; waiting for the transition section
    | ExpiringLogin                     // inside that section, between its two writes
    | AwaitingPersistence               // credentials_ready is durable
    | Dispatching                       // persistence_dispatching is durable, storage.set not called yet
    | Storing                           // storage.set has been called
    | StorageEnded(storage: StorageResult)
    | RunDone

  /** Who holds the session's transition section, and the record it has read. */
  datatype Section = Free | ForRun(seen: Record) | ForCancel(intent: CancelIntent, seen: Record)

  datatype Session = Session(
    attempt: Attempt, sessionId: string, expiresAt: Time, pc: RunPc, section: Section,
    retained: bool, observed: Record)

  /** Where the one admitted start stands; `Idle` means the admission section is free. */
  datatype Admission =
    | Idle
    | Begun(attempt: Attempt, authorityId: string, nowMs: Time, generation: Option<int>)
    | PrepareCalled(input: PrepareInput, generation: Option<int>)
    | PreparedUnresumed(record: Record, generation: Option<int>)
    | MarkCalled(record: Record, at: Time, generation: Option<int>)
    | MarkedUnresumed(record: Record, generation: Option<int>)

  datatype Login = Login(attempt: Attempt, generation: Option<int>)

  datatype State = State(
    clock: Time,
    files: Files,                 // what the journal directory shows
    fallback: Option<Files>,      // what a power loss may return to, after an unconfirmed write
    bootAt: Time,                 // clock reading of the last recovery
    horizon: Option<Time>,        // latest such reading at which a record was compacted
    steady: bool,                 // every admission so far read the clock after the horizon
    serving: bool,                // the journal is initialized and the broker admits calls
    closed: bool,
    storeFailed: bool,            // a journal call failed, or recovery has not completed since the restart
    fence: Option<int>,           // latest connection generation told that an attempt is absent
    admission: Admission,
    slot: Option<Session>,
    logins: seq<Login>,           // every provider.login call ever made
    sets: seq<Attempt>)           // every storage.set call ever made

  datatype Event =
    | Tick(dt: int)
    | StartBegin(attempt: Attempt, authorityId: string, generation: Option<int>, inputOpen: bool)
    | StartLookup(readable: bool, providerFound: bool, sessionId: string, ttl: nat, inputOpen: bool)
    | StartPrepare(outcome: WriteOutcome)
    | StartMark(inputOpen: bool)
    | StartMarkEffect(outcome: WriteOutcome)
    | StartLaunch(inputOpen: bool)
    | StatusRead(attempt: Attempt, generation: Option<int>, inputOpen: bool)
    | LoginReturns(login: LoginResult)
    | RunEnter(readable: bool)
    | RunAct(outcome: WriteOutcome)
    | BeginSet
    | StorageReturns(storage: StorageResult)
    | CancelEnter(intent: CancelIntent, readable: bool)
    | CancelAct(outcome: WriteOutcome)
    | CancelUnstarted(attempt: Attempt, seen: Record, outcome: WriteOutcome)
    | AcknowledgeTerminal(attempt: Attempt, revision: nat, digest: Terminal, at: Time, outcome: WriteOutcome)
    | Close
    | Crash
    | PowerLoss(undone: bool)
    | Recover(synced: bool)
    | Classify(attempt: Attempt, outcome: WriteOutcome)
    | CompactOne(attempt: Attempt, outcome: WriteOutcome)
    | Open

  /** Neither the provider nor storage was called, no start was admitted and no record
      compacted, and the connection fence did not move. */
  predicate SameEffects(s: State, t: State) {
    s.logins == t.logins && s.sets == t.sets && s.fence == t.fence && s.steady == t.steady && s.horizon == t.horizon
  }

  // ---- Journal calls ----

  /** The broker remembers every failure that makes the journal's health unknown. */
  predicate HealthFailure(e: StoreError) {
    e.Invalid? || e.CommitUncertain? || e.IoFailure? || e.Missing? || e.NotInitialized?
  }

  /** One journal call through the broker: a failed journal is never called again. */
  function AfterCall(s: State, call: (Files, Result<Record, StoreError>), outcome: WriteOutcome): (r: (State, Option<Record>))
    ensures SameEffects(s, r.0)
  {
    if s.storeFailed then (s, None)
    else
      var uncertain := outcome.Uncertain? && call.0 != s.files;
      (s.(files := call.0,
          fallback := if uncertain then Some(s.files) else s.fallback,
          storeFailed := call.1.Err? && HealthFailure(call.1.error)),
       if call.1.Ok? then Some(call.1.value) else None)
  }

  function Write(s: State, prev: Record, m: Move, outcome: WriteOutcome): (r: (State, Option<Record>))
    ensures SameEffects(s, r.0)
  {
    AfterCall(s, Replaced(s.files, prev, m, outcome), outcome)
  }

  /** A transition's timestamp never precedes the record it follows. */
  function Stamp(s: State, r: Record): Time {
    if s.clock < r.updatedAt then r.updatedAt else s.clock
  }

  function SettleAs(s: State, r: Record, phase: Phase, resolution: Resolution, configured: Option<bool>): Move {
    Settle(Terminal(r.attempt, phase, resolution, configured, Stamp(s, r)))
  }

  function CancellationMove(s: State, r: Record): Option<Move> {
    match r.cancelIntent
    case Some(ByUser) => Some(SettleAs(s, r, Cancelled, UserCancelled, None))
    case Some(ByExpiry) => Some(SettleAs(s, r, Failed, AttemptExpired, None))
    case Some(ByShutdown) => Some(SettleAs(s, r, Failed, HostShutdown, None))
    case None => None
  }

  function RecoveryReasonFor(r: Record): Option<RecoveryReason> {
    match r.phase
    case LoginDispatching => Some(LoginLiveness)
    case PersistenceDispatching => Some(StorageLiveness)
    case Cancelling => Some(CancellingLiveness)
    case _ => None
  }

  /** What the run's error handler writes for a nonterminal record, if anything. */
  function ErrorMove(s: State, r: Record, helperUnconfirmed: bool): Option<Move> {
    if helperUnconfirmed then
      match RecoveryReasonFor(r)
      case Some(reason) => Some(MarkRecoveryRequired(reason, Stamp(s, r)))
      case None => None
    else
      match r.phase
      case Cancelling => CancellationMove(s, r)
      case Prepared => Some(SettleAs(s, r, Failed, InterruptedBeforeLogin, None))
      case LoginDispatching => Some(SettleAs(s, r, Failed, ProviderLoginFailed, None))
      case CredentialsReady => Some(SettleAs(s, r, Failed, CredentialsDiscarded, None))
      case PersistenceDispatching => Some(SettleAs(s, r, Failed, PersistenceFailed, None))
      case _ => None
  }

  // ---- Session bookkeeping ----

  /** The run ends. The provider is released only on a terminal record that nothing put in doubt. */
  function EndRun(s: State, ses: Session): (t: State)
    ensures SameEffects(s, t)
  {
    if !ses.retained && TerminalPhase(ses.observed.phase) then s.(slot := None)
    else s.(slot := Some(ses.(pc := RunDone, section := Free)))
  }

  function EndRetained(s: State, ses: Session): (t: State)
    ensures SameEffects(s, t)
  {
    EndRun(s, ses.(retained := true))
  }

  /** A write of the run, after which the run continues at `pc`. */
  function RunWrite(s: State, ses: Session, prev: Record, m: Move, outcome: WriteOutcome, pc: RunPc, retain: bool): (t: State)
    ensures SameEffects(s, t)
  {
    var (s', written) := Write(s, prev, m, outcome);
    match written
    case None => EndRetained(s', ses)
    case Some(r) =>
      var ses' := ses.(observed := r, retained := ses.retained || retain);
      match pc
      case RunDone => EndRun(s', ses')
      case ExpiringLogin => s'.(slot := Some(ses'.(pc := ExpiringLogin, section := ForRun(r))))
      case _ => s'.(slot := Some(ses'.(pc := pc, section := Free)))
  }

  function HandleError(s: State, ses: Session, seen: Record, helperUnconfirmed: bool, outcome: WriteOutcome): (t: State)
    ensures SameEffects(s, t)
  {
    if TerminalPhase(seen.phase) then EndRun(s, ses)
    else
      match ErrorMove(s, seen, helperUnconfirmed)
      case None => EndRetained(s, ses)
      case Some(m) => RunWrite(s, ses, seen, m, outcome, RunDone, helperUnconfirmed)
  }

  /** The body of the run's transition sections, from the record it read. */
  function ActForRun(s: State, ses: Session, seen: Record, outcome: WriteOutcome): (t: State)
    ensures SameEffects(s, t)
  {
    match ses.pc
    case LoginEnded(LoginRejected) => HandleError(s, ses, seen, false, outcome)
    case LoginEnded(LoginHelperUnconfirmed) => HandleError(s, ses, seen, true, outcome)
    case LoginEnded(Credentials) =>
      if seen.phase.Cancelling? then
        match CancellationMove(s, seen)
        case None => EndRetained(s, ses)
        case Some(m) => RunWrite(s, ses, seen, m, outcome, RunDone, false)
      else if TerminalPhase(seen.phase) then EndRun(s, ses)
      else if seen.phase.LoginDispatching? && s.clock >= ses.expiresAt then
        RunWrite(s, ses, seen, MarkCancelling(ByExpiry, Stamp(s, seen)), outcome, ExpiringLogin, false)
      else if !seen.phase.LoginDispatching? then EndRetained(s, ses)
      else RunWrite(s, ses, seen, MarkCredentialsReady(Stamp(s, seen)), outcome, AwaitingPersistence, false)
    case ExpiringLogin =>
      (match CancellationMove(s, seen)
       case None => EndRetained(s, ses)
       case Some(m) => RunWrite(s, ses, seen, m, outcome, RunDone, false))
    case AwaitingPersistence =>
      if TerminalPhase(seen.phase) then EndRun(s, ses)
      else if !seen.phase.CredentialsReady? then EndRetained(s, ses)
      else RunWrite(s, ses, seen, MarkPersistenceDispatching(Stamp(s, seen)), outcome, Dispatching, false)
    case StorageEnded(Confirmed) =>
      if !seen.phase.PersistenceDispatching? then EndRetained(s, ses)
      else RunWrite(s, ses, seen, SettleAs(s, seen, Completed, PersistenceConfirmed, Some(true)), outcome, RunDone, false)
    case StorageEnded(result) => HandleError(s, ses, seen, result.StorageHelperUnconfirmed?, outcome)
    case _ => s
  }

  /** What a cancellation writes, if anything, for the record it read. */
  function CancelMove(s: State, intent: CancelIntent, seen: Record): Option<Move> {
    match seen.phase
    case LoginDispatching => Some(MarkCancelling(intent, Stamp(s, seen)))
    case CredentialsReady => Some(SettleAs(s, seen, Failed, CredentialsDiscarded, None))
    case _ => None
  }

  function ActForCancel(s: State, ses: Session, intent: CancelIntent, seen: Record, outcome: WriteOutcome): (t: State)
    ensures SameEffects(s, t)
  {
    match CancelMove(s, intent, seen)
    case Some(move) =>
      var (s', written) := Write(s, seen, move, outcome);
      s'.(slot := Some(ses.(section := Free,
                            observed := if written.Some? then written.value else ses.observed,
                            retained := ses.retained || (written.None? && intent.ByExpiry?))))
    case None =>
      s.(slot := Some(ses.(section := Free,
                           retained := ses.retained || seen.phase.Prepared? || seen.phase.RecoveryRequired?)))
  }

  /** The check repeated at every boundary of a start. */
  predicate AdmissionHolds(s: State, generation: Option<int>, inputOpen: bool) {
    generation.None? || (inputOpen && (s.fence.None? || generation.value >= s.fence.value))
  }

  predicate NeedsSection(pc: RunPc) {
    pc.LoginEnded? || pc.AwaitingPersistence? || pc.StorageEnded?
  }

  predicate Classified(files: Files) {
    forall a :: a in files ==> TerminalPhase(files[a].phase) || files[a].phase.RecoveryRequired?
  }

  /** An attempt compacted at the horizon is too old to be admitted at this reading. */
  predicate AfterHorizon(clock: Time, horizon: Option<Time>) {
    horizon.Some? ==> clock > horizon.value - (RETENTION_MS - MAX_AGE_MS)
  }

  function Later(horizon: Option<Time>, reading: Time): Option<Time> {
    if horizon.Some? && horizon.value >= reading then horizon else Some(reading)
  }

  /** The process is gone; its files and what has been called stay. */
  function Restarted(s: State, files: Files, fallback: Option<Files>): (t: State)
    ensures s.logins == t.logins && s.sets == t.sets && s.steady == t.steady && s.horizon == t.horizon
  {
    s.(files := files, fallback := fallback, serving := false, closed := false, storeFailed := true,
       fence := None, admission := Idle, slot := None)
  }

  /** One step. An event that is not enabled leaves the state as it is. */
  function Step(s: State, e: Event): State {
    match e
    case Tick(dt) => s.(clock := s.clock + dt)
    case StartBegin(attempt, authorityId, generation, inputOpen) =>
      if s.serving && s.admission.Idle? && !s.closed && AdmissionHolds(s, generation, inputOpen)
      then s.(admission := Begun(attempt, authorityId, s.clock, generation),
              steady := s.steady && AfterHorizon(s.clock, s.horizon)) else s
    case StartLookup(readable, providerFound, sessionId, ttl, inputOpen) =>
      if !s.admission.Begun? then s else LookupForStart(s, readable, providerFound, sessionId, ttl, inputOpen)
    case StartPrepare(outcome) =>
      if !s.admission.PrepareCalled? then s else PrepareForStart(s, outcome)
    case StartMark(inputOpen) =>
      if !s.admission.PreparedUnresumed? then s
      else if s.closed || !AdmissionHolds(s, s.admission.generation, inputOpen) then s.(admission := Idle)
      else s.(admission := MarkCalled(s.admission.record, Stamp(s, s.admission.record), s.admission.generation))
    case StartMarkEffect(outcome) =>
      if !s.admission.MarkCalled? then s
      else
        var (s', written) := Write(s, s.admission.record, MarkLoginDispatching(s.admission.at), outcome);
        s'.(admission := if written.Some? then MarkedUnresumed(written.value, s.admission.generation) else Idle)
    case StartLaunch(inputOpen) =>
      if !s.admission.MarkedUnresumed? then s
      else if s.closed || !AdmissionHolds(s, s.admission.generation, inputOpen) then s.(admission := Idle)
      else Launched(s, s.admission.record, s.admission.generation)
    case StatusRead(attempt, generation, inputOpen) =>
      if s.serving && s.admission.Idle? && !s.closed && !s.storeFailed && attempt !in s.files && inputOpen && generation.Some? &&
         (s.fence.None? || generation.value > s.fence.value)
      then s.(fence := generation) else s
    case LoginReturns(login) =>
      if s.slot.Some? && s.slot.value.pc.LoggingIn? then s.(slot := Some(s.slot.value.(pc := LoginEnded(login)))) else s
    case RunEnter(readable) =>
      if s.slot.Some? && NeedsSection(s.slot.value.pc) && s.slot.value.section.Free? then EnterForRun(s, s.slot.value, readable)
      else s
    case RunAct(outcome) =>
      if s.slot.Some? && s.slot.value.section.ForRun? then ActForRun(s, s.slot.value, s.slot.value.section.seen, outcome) else s
    case BeginSet =>
      if s.slot.Some? && s.slot.value.pc.Dispatching?
      then s.(slot := Some(s.slot.value.(pc := Storing)), sets := s.sets + [s.slot.value.attempt]) else s
    case StorageReturns(storage) =>
      if s.slot.Some? && s.slot.value.pc.Storing? then s.(slot := Some(s.slot.value.(pc := StorageEnded(storage)))) else s
    case CancelEnter(intent, readable) =>
      if s.slot.Some? && s.slot.value.section.Free? && (intent.ByShutdown? ==> s.closed)
      then EnterForCancel(s, s.slot.value, intent, readable) else s
    case CancelAct(outcome) =>
      if s.slot.Some? && s.slot.value.section.ForCancel?
      then ActForCancel(s, s.slot.value, s.slot.value.section.intent, s.slot.value.section.seen, outcome) else s
    case CancelUnstarted(attempt, seen, outcome) =>
      if s.serving && seen.attempt == attempt && seen.phase.Prepared?
      then Write(s, seen, SettleAs(s, seen, Cancelled, UserCancelled, None), outcome).0 else s
    case AcknowledgeTerminal(attempt, revision, digest, at, outcome) =>
      if s.serving then AfterCall(s, AttemptAcknowledged(s.files, attempt, revision, digest, at, outcome), outcome).0 else s
    case Close => s.(closed := true)
    case Crash => Restarted(s, s.files, s.fallback)
    case PowerLoss(undone) => Restarted(s, if undone && s.fallback.Some? then s.fallback.value else s.files, None)
    case Recover(synced) =>
      if s.serving then s
      else s.(bootAt := s.clock, storeFailed := !synced, fallback := if synced then None else s.fallback)
    case Classify(attempt, outcome) =>
      if s.serving || attempt !in s.files || ClassifyRestart(s.files[attempt], s.bootAt) == s.files[attempt] then s
      else Write(s, s.files[attempt], Restart(s.bootAt), outcome).0
    case CompactOne(attempt, outcome) =>
      if s.serving || s.storeFailed || !Classified(s.files) || attempt !in s.files || !Eligible(s.files[attempt], s.bootAt) then s
      else
        (match outcome
         case Committed => s.(files := s.files - {attempt}, horizon := Later(s.horizon, s.bootAt))
         case NotWritten => s.(storeFailed := true)
         case Uncertain =>
           s.(files := s.files - {attempt}, horizon := Later(s.horizon, s.bootAt),
              fallback := Some(s.files), storeFailed := true))
    case Open => if s.storeFailed || !Classified(s.files) then s else s.(serving := true)
  }

  function LookupForStart(
    s: State, readable: bool, providerFound: bool, sessionId: string, ttl: nat, inputOpen: bool
  ): (t: State)
    requires s.admission.Begun?
    ensures SameEffects(s, t)
  {
    var b := s.admission;
    if s.storeFailed then s.(admission := Idle)
    else if !readable then s.(admission := Idle, storeFailed := true)
    else if s.closed || !AdmissionHolds(s, b.generation, inputOpen) || b.attempt in s.files || s.slot.Some? || !providerFound
    then s.(admission := Idle)
    else
      var start := if b.nowMs < b.attempt.requestedAt then b.attempt.requestedAt else b.nowMs;
      s.(admission := PrepareCalled(
           PrepareInput(b.attempt, sessionId, b.authorityId, b.nowMs, start + ttl), b.generation))
  }

  function PrepareForStart(s: State, outcome: WriteOutcome): (t: State)
    requires s.admission.PrepareCalled?
    ensures SameEffects(s, t)
  {
    var (files, r) := Admitted(s.files, s.admission.input, outcome);
    var call := (files, if r.Ok? then Ok(r.value.0) else Err(r.error));
    var (s', _) := AfterCall(s, call, outcome);
    s'.(admission := if !s.storeFailed && r.Ok? && r.value.1 then PreparedUnresumed(r.value.0, s.admission.generation) else Idle)
  }

  /** The provider is called and its session takes the slot. */
  function Launched(s: State, r: Record, generation: Option<int>): (t: State)
    ensures t.logins == s.logins + [Login(r.attempt, generation)] && t.sets == s.sets && t.fence == s.fence
    ensures s.steady == t.steady && s.horizon == t.horizon
  {
    s.(admission := Idle, slot := Some(Session(r.attempt, r.sessionId, r.expiresAt, LoggingIn, Free, false, r)),
       logins := s.logins + [Login(r.attempt, generation)])
  }

  predicate OwnRecordReadable(s: State, ses: Session, readable: bool) {
    !s.storeFailed && readable && ses.attempt in s.files && s.files[ses.attempt].sessionId == ses.sessionId
  }

  function EnterForRun(s: State, ses: Session, readable: bool): (t: State)
    ensures SameEffects(s, t)
  {
    if OwnRecordReadable(s, ses, readable)
    then s.(slot := Some(ses.(section := ForRun(s.files[ses.attempt]), observed := s.files[ses.attempt])))
    else EndRetained(s.(storeFailed := s.storeFailed || !readable), ses)
  }

  function EnterForCancel(s: State, ses: Session, intent: CancelIntent, readable: bool): (t: State)
    ensures SameEffects(s, t)
  {
    if OwnRecordReadable(s, ses, readable)
    then s.(slot := Some(ses.(section := ForCancel(intent, s.files[ses.attempt]), observed := s.files[ses.attempt])))
    else s.(storeFailed := s.storeFailed || !readable, slot := Some(ses.(retained := ses.retained || intent.ByExpiry?)))
  }

  function Run(s: State, events: seq<Event>): State
    decreases |events|
  {
    if events == [] then s else Run(Step(s, events[0]), events[1..])
  }

  /** A daemon that starts on an empty journal. */
  function Init(clock: Time): State {
    State(clock, map[], None, clock, None, true, false, false, true, None, Idle, None, [], [])
  }
}
