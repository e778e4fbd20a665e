/** What a durable OAuth record says about what happened: to each outcome, the login,
    storage call, cancellation or acknowledgement that caused it. */
module OAuthOutcomes {
  import opened Outcomes
  import opened OAuthRecords
  import opened OAuthAttemptStores
  import opened OAuthBrokers
  import opened OAuthBrokerSafety

  /** The events of a run, by the attempt they were about. */
  datatype Past = Past(
    credentials: set<Attempt>,             // provider.login returned credentials
    rejected: set<Attempt>,                // provider.login failed
    stored: set<Attempt>,                  // storage.set confirmed the credentials
    refused: set<Attempt>,                 // storage.set failed, its helper gone
    asked: set<(Attempt, CancelIntent)>,   // a user, a shutdown or the expiry asked for the end
    acknowledged: set<Attempt>)            // a caller acknowledged the outcome

  const NOTHING := Past({}, {}, {}, {}, {}, {})

  function PastAfter(s: State, p: Past, e: Event): Past {
    match e
    case LoginReturns(login) =>
      if s.slot.None? || !s.slot.value.pc.LoggingIn? then p
      else if login.Credentials? then p.(credentials := p.credentials + {s.slot.value.attempt})
      else if login.LoginRejected? then p.(rejected := p.rejected + {s.slot.value.attempt})
      else p
    case StorageReturns(storage) =>
      if s.slot.None? || !s.slot.value.pc.Storing? then p
      else if storage.Confirmed? then p.(stored := p.stored + {s.slot.value.attempt})
      else if storage.Unconfirmed? then p.(refused := p.refused + {s.slot.value.attempt})
      else p
    case CancelEnter(intent, _) =>
      if s.slot.None? || (intent.ByShutdown? && !s.closed) then p
      else p.(asked := p.asked + {(s.slot.value.attempt, intent)})
    case CancelUnstarted(attempt, _, _) => p.(asked := p.asked + {(attempt, ByUser)})
    case RunAct(_) =>
      if s.slot.None? || s.clock < s.slot.value.expiresAt then p
      else p.(asked := p.asked + {(s.slot.value.attempt, ByExpiry)})
    case AcknowledgeTerminal(attempt, _, _, _, _) => p.(acknowledged := p.acknowledged + {attempt})
    case _ => p
  }

  function PastOf(s: State, p: Past, events: seq<Event>): Past
    decreases |events|
  {
    if events == [] then p else PastOf(Step(s, events[0]), PastAfter(s, p, events[0]), events[1..])
  }

  /** The outcome has its cause among the events. A restart may only say what it can
      know: that no login was made, or that credentials were dropped. */
  predicate OutcomeMeans(a: Attempt, resolution: Resolution, p: Past) {
    match resolution
    case PersistenceConfirmed => a in p.stored && a in p.credentials
    case PersistenceFailed => a in p.refused && a in p.credentials
    case ProviderLoginFailed => a in p.rejected
    case CredentialsDiscarded => a in p.credentials
    case UserCancelled => (a, ByUser) in p.asked
    case AttemptExpired => (a, ByExpiry) in p.asked
    case HostShutdown => (a, ByShutdown) in p.asked
    case InterruptedBeforeLogin => true
    case InterruptedDuringLogin => false
    case ConfiguredObserved => false
    case NotConfiguredObserved => false
  }

  predicate RecordMeans(r: Record, p: Past) {
    && (r.phase.CredentialsReady? || r.phase.PersistenceDispatching? ==> r.attempt in p.credentials)
    && (r.phase.RecoveryRequired? && r.recoveryReason == Some(StorageLiveness) ==> r.attempt in p.credentials)
    && (r.cancelIntent.Some? ==> (r.attempt, r.cancelIntent.value) in p.asked)
    && (r.acknowledgedAt.Some? ==> r.attempt in p.acknowledged)
    && (r.terminal.Some? ==> OutcomeMeans(r.attempt, r.terminal.value.resolution, p))
  }

  /** While no admission preceded the horizon, such a record was never logged in. */
  predicate NeverLoggedIn(r: Record, logins: seq<Login>) {
    r.phase.Prepared? || (r.terminal.Some? && r.terminal.value.resolution.InterruptedBeforeLogin?) ==> !LoggedIn(logins, r.attempt)
  }

  ghost predicate FilesMean(files: Files, logins: seq<Login>, steady: bool, p: Past) {
    && (forall a :: a in files ==> RecordMeans(files[a], p))
    && (steady ==> forall a :: a in files ==> NeverLoggedIn(files[a], logins))
  }

  predicate SessionMeans(ses: Session, p: Past) {
    && (ses.pc == LoginEnded(Credentials) || ses.pc.AwaitingPersistence? || ses.pc.Dispatching? || ses.pc.Storing? || ses.pc.StorageEnded? ==>
          ses.attempt in p.credentials)
    && (ses.pc == LoginEnded(LoginRejected) ==> ses.attempt in p.rejected)
    && (ses.pc == StorageEnded(Confirmed) ==> ses.attempt in p.stored)
    && (ses.pc == StorageEnded(Unconfirmed) ==> ses.attempt in p.refused)
    && (ses.section.ForCancel? ==> (ses.attempt, ses.section.intent) in p.asked)
  }

  /** Only a record just created can be undone altogether. */
  predicate OnlyCreationOpen(files: Files, fallback: Files) {
    forall a :: a in files && a !in fallback ==> files[a].phase.Prepared? && files[a].revision == 0
  }

  ghost predicate AllMeans(s: State, p: Past) {
    && FilesMean(s.files, s.logins, s.steady, p)
    && (s.fallback.Some? ==> FilesMean(s.fallback.value, s.logins, s.steady, p) && OnlyCreationOpen(s.files, s.fallback.value))
    && (s.slot.Some? ==> SessionMeans(s.slot.value, p))
  }

  // ---- Writes ----

  lemma MorePast(s: State, p: Past, e: Event)
    requires AllMeans(s, p)
    ensures AllMeans(s, PastAfter(s, p, e))
  {
    var q := PastAfter(s, p, e);
    forall r | RecordMeans(r, p) ensures RecordMeans(r, q) {}
    forall ses | SessionMeans(ses, p) ensures SessionMeans(ses, q) {}
    hide RecordMeans, SessionMeans, NeverLoggedIn, PastAfter;
  }

  /** The move, where the record still stands, leaves one that means what it says. */
  predicate MoveMeans(s: State, prev: Record, m: Move, p: Past) {
    prev.attempt in s.files && s.files[prev.attempt] == prev && Coherent(prev) && Allowed(prev, m) ==>
      RecordMeans(Candidate(prev, m), p) && (s.steady ==> NeverLoggedIn(Candidate(prev, m), s.logins))
  }

  /** One write, whose move means what it says. */
  lemma WriteMeans(s: State, prev: Record, m: Move, outcome: WriteOutcome, p: Past)
    requires Inv(s) && AllMeans(s, p) && MoveMeans(s, prev, m, p)
    ensures var (t, written) := Write(s, prev, m, outcome);
            AllMeans(t, p) && t == s.(files := t.files, fallback := t.fallback, storeFailed := t.storeFailed)
  {
    hide Inv, RecordMeans, NeverLoggedIn, Coherent, Allowed, LegalTransition, Candidate, SessionMeans, Replaced;
    assert WellFormed(s.files) && (s.fallback.Some? ==> s.storeFailed) by { InvIsWellFormed(s); WriteHealth(s); }
    WriteMoves(s, prev, m, outcome);
    WriteOnce(s, prev, m, outcome);
    hide Write;
  }

  lemma SlotMeans(s: State, slot: Option<Session>, p: Past)
    requires AllMeans(s, p) && (slot.Some? ==> SessionMeans(slot.value, p))
    ensures AllMeans(s.(slot := slot), p)
  {
    hide FilesMean, OnlyCreationOpen, SessionMeans;
  }

  lemma WriteHealth(s: State)
    requires Inv(s)
    ensures s.fallback.Some? ==> s.storeFailed
  {
    hide WorldOk, SlotOk, AdmissionOk, Distinct;
  }

  /** A write with a fallback still open changes nothing. */
  lemma WriteOnce(s: State, prev: Record, m: Move, outcome: WriteOutcome)
    requires s.fallback.Some? ==> s.storeFailed
    ensures var t := Write(s, prev, m, outcome).0;
            && (t.files != s.files ==> !s.storeFailed && s.fallback.None? && (t.fallback.None? || t.fallback == Some(s.files)))
            && (t.files == s.files ==> t.fallback == s.fallback)
  {
    hide Coherent, Allowed, Candidate;
  }

  // ---- Moves ----

  lemma StandingMeans(s: State, prev: Record, p: Past)
    requires AllMeans(s, p) && prev.attempt in s.files && s.files[prev.attempt] == prev
    ensures RecordMeans(prev, p) && (s.steady ==> NeverLoggedIn(prev, s.logins))
  {
    hide RecordMeans, NeverLoggedIn, SessionMeans;
  }

  lemma SettlingMeans(s: State, prev: Record, t: Terminal, p: Past)
    requires AllMeans(s, p) && OutcomeMeans(prev.attempt, t.resolution, p) && !t.resolution.InterruptedBeforeLogin?
    ensures MoveMeans(s, prev, Settle(t), p)
  {
    if prev.attempt in s.files && s.files[prev.attempt] == prev { StandingMeans(s, prev, p); }
    hide AllMeans, TerminalAllowed, BaseRevisions, LoggedIn;
  }

  lemma CancellingMeans(s: State, prev: Record, p: Past)
    requires AllMeans(s, p)
    ensures var m := CancellationMove(s, prev); m.Some? ==> MoveMeans(s, prev, m.value, p)
  {
    var m := CancellationMove(s, prev);
    hide AllMeans, Stamp;
    if m.Some? && prev.attempt in s.files && s.files[prev.attempt] == prev {
      StandingMeans(s, prev, p);
      SettlingMeans(s, prev, m.value.terminal, p);
    }
    hide Coherent, Allowed, Candidate;
  }

  /** The moves that settle nothing. */
  lemma MarkingMeans(s: State, prev: Record, m: Move, p: Past)
    requires AllMeans(s, p)
    requires match m
             case MarkLoginDispatching(_) => true
             case MarkCredentialsReady(_) => prev.attempt in p.credentials
             case MarkPersistenceDispatching(_) => prev.attempt in p.credentials
             case MarkCancelling(intent, _) => (prev.attempt, intent) in p.asked
             case MarkRecoveryRequired(reason, _) => true
             case Acknowledge(_) => prev.attempt in p.acknowledged
             case Restart(_) => true
             case Settle(_) => false
    ensures MoveMeans(s, prev, m, p)
  {
    if prev.attempt in s.files && s.files[prev.attempt] == prev { StandingMeans(s, prev, p); }
    hide AllMeans, BaseRevisions, LoggedIn;
  }

  // ---- The run's sections ----

  lemma RunWriteMeans(s: State, ses: Session, prev: Record, m: Move, outcome: WriteOutcome, pc: RunPc, retain: bool, p: Past)
    requires Inv(s) && AllMeans(s, p) && MoveMeans(s, prev, m, p)
    requires pc.RunDone? || pc.ExpiringLogin? || ((pc.AwaitingPersistence? || pc.Dispatching?) && ses.attempt in p.credentials)
    ensures AllMeans(RunWrite(s, ses, prev, m, outcome, pc, retain), p)
  {
    hide Inv, MoveMeans, Write, AllMeans;
    WriteMeans(s, prev, m, outcome, p);
    var t := RunWrite(s, ses, prev, m, outcome, pc, retain);
    SlotMeans(Write(s, prev, m, outcome).0, t.slot, p);
  }

  lemma EndingMeans(s: State, ses: Session, p: Past)
    requires AllMeans(s, p)
    ensures AllMeans(EndRun(s, ses), p) && AllMeans(EndRetained(s, ses), p)
  {
    hide FilesMean, OnlyCreationOpen;
  }

  lemma HandlingMeans(s: State, ses: Session, seen: Record, helper: bool, outcome: WriteOutcome, p: Past)
    requires Inv(s) && AllMeans(s, p) && s.slot == Some(ses) && seen.attempt == ses.attempt && PhaseAgrees(ses.pc, seen.phase)
    requires ses.pc == LoginEnded(if helper then LoginHelperUnconfirmed else LoginRejected)
          || ses.pc == StorageEnded(if helper then StorageHelperUnconfirmed else Unconfirmed)
    ensures AllMeans(HandleError(s, ses, seen, helper, outcome), p)
  {
    hide Inv, MoveMeans, FilesMean, OnlyCreationOpen, RunWrite, EndRun, EndRetained, Stamp;
    EndingMeans(s, ses, p);
    CancellingMeans(s, seen, p);
    var m := ErrorMove(s, seen, helper);
    if !TerminalPhase(seen.phase) && m.Some? {
      if m.value.MarkRecoveryRequired? { MarkingMeans(s, seen, m.value, p); }
      else if !seen.phase.Cancelling? { SettlingMeans(s, seen, m.value.terminal, p); }
      RunWriteMeans(s, ses, seen, m.value, outcome, RunDone, helper, p);
    }
  }

  lemma RunActMeans(s: State, ses: Session, seen: Record, outcome: WriteOutcome, p: Past)
    requires Inv(s) && AllMeans(s, p) && s.slot == Some(ses) && ses.section == ForRun(seen)
    requires s.clock >= ses.expiresAt ==> (ses.attempt, ByExpiry) in p.asked
    ensures AllMeans(ActForRun(s, ses, seen, outcome), p)
  {
    hide Inv, AllMeans, MoveMeans, RunWrite, EndRun, EndRetained, Stamp, HandleError, CoreInv, AdmissionOk, SameEffects, TerminalPhase;
    InvParts(s);
    assert seen.attempt == ses.attempt && PhaseAgrees(ses.pc, seen.phase);
    SessionAt(s, ses, p);
    EndingMeans(s, ses, p);
    CancellingMeans(s, seen, p);
    var m := CancellationMove(s, seen);
    match ses.pc
    case LoginEnded(LoginRejected) => HandlingMeans(s, ses, seen, false, outcome, p);
    case LoginEnded(LoginHelperUnconfirmed) => HandlingMeans(s, ses, seen, true, outcome, p);
    case LoginEnded(Credentials) =>
      if m.Some? { RunWriteMeans(s, ses, seen, m.value, outcome, RunDone, false, p); }
      if s.clock >= ses.expiresAt {
        MarkingMeans(s, seen, MarkCancelling(ByExpiry, Stamp(s, seen)), p);
        RunWriteMeans(s, ses, seen, MarkCancelling(ByExpiry, Stamp(s, seen)), outcome, ExpiringLogin, false, p);
      }
      MarkingMeans(s, seen, MarkCredentialsReady(Stamp(s, seen)), p);
      RunWriteMeans(s, ses, seen, MarkCredentialsReady(Stamp(s, seen)), outcome, AwaitingPersistence, false, p);
    case ExpiringLogin => if m.Some? { RunWriteMeans(s, ses, seen, m.value, outcome, RunDone, false, p); }
    case AwaitingPersistence =>
      MarkingMeans(s, seen, MarkPersistenceDispatching(Stamp(s, seen)), p);
      RunWriteMeans(s, ses, seen, MarkPersistenceDispatching(Stamp(s, seen)), outcome, Dispatching, false, p);
    case StorageEnded(Confirmed) =>
      var settle := SettleAs(s, seen, Completed, PersistenceConfirmed, Some(true));
      SettlingMeans(s, seen, settle.terminal, p);
      RunWriteMeans(s, ses, seen, settle, outcome, RunDone, false, p);
    case StorageEnded(result) => HandlingMeans(s, ses, seen, result.StorageHelperUnconfirmed?, outcome, p);
    case _ =>
  }

  lemma CancelActMeans(s: State, ses: Session, intent: CancelIntent, seen: Record, outcome: WriteOutcome, p: Past)
    requires Inv(s) && AllMeans(s, p) && s.slot == Some(ses) && ses.section == ForCancel(intent, seen)
    ensures AllMeans(ActForCancel(s, ses, intent, seen, outcome), p)
  {
    InvParts(s);
    assert seen.attempt == ses.attempt;
    hide Inv, MoveMeans, AllMeans, Stamp, Write, CoreInv, AdmissionOk;
    var m := CancelMove(s, intent, seen);
    var t := ActForCancel(s, ses, intent, seen, outcome);
    assert SessionMeans(ses, p) by { SessionAt(s, ses, p); }
    assert SessionMeans(t.slot.value, p);
    if m.Some? {
      CancelMoveMeans(s, intent, seen, p);
      WriteMeans(s, seen, m.value, outcome, p);
      SlotMeans(Write(s, seen, m.value, outcome).0, t.slot, p);
    } else {
      SlotMeans(s, t.slot, p);
    }
  }

  lemma SessionAt(s: State, ses: Session, p: Past)
    requires AllMeans(s, p) && s.slot == Some(ses)
    ensures SessionMeans(ses, p)
  {
    hide FilesMean, OnlyCreationOpen, SessionMeans;
  }

  lemma CancelMoveMeans(s: State, intent: CancelIntent, seen: Record, p: Past)
    requires AllMeans(s, p) && CancelMove(s, intent, seen).Some? && (seen.attempt, intent) in p.asked
    ensures MoveMeans(s, seen, CancelMove(s, intent, seen).value, p)
  {
    var m := CancelMove(s, intent, seen).value;
    if !(seen.attempt in s.files && s.files[seen.attempt] == seen) { NotStanding(s, seen, m, p); }
    else if m.MarkCancelling? { MarkingMeans(s, seen, m, p); }
    else {
      StandingMeans(s, seen, p);
      SettlingMeans(s, seen, m.terminal, p);
    }
    hide AllMeans, MoveMeans, Stamp;
  }

  lemma NotStanding(s: State, prev: Record, m: Move, p: Past)
    requires !(prev.attempt in s.files && s.files[prev.attempt] == prev)
    ensures MoveMeans(s, prev, m, p)
  {}

  // ---- The remaining steps ----

  lemma SessionStepsMean(s: State, e: Event, p: Past)
    requires AllMeans(s, p) && (e.LoginReturns? || e.StorageReturns? || e.BeginSet?)
    ensures AllMeans(Step(s, e), PastAfter(s, p, e))
  {
    MorePast(s, p, e);
    hide FilesMean, OnlyCreationOpen;
  }

  lemma EnteringMeans(s: State, e: Event, p: Past)
    requires AllMeans(s, p) && (e.RunEnter? || e.CancelEnter?)
    ensures AllMeans(Step(s, e), PastAfter(s, p, e))
  {
    MorePast(s, p, e);
    hide FilesMean, OnlyCreationOpen, OwnRecordReadable;
  }

  lemma ActingMeans(s: State, e: Event, p: Past)
    requires Inv(s) && AllMeans(s, p) && (e.RunAct? || e.CancelAct?)
    ensures AllMeans(Step(s, e), PastAfter(s, p, e))
  {
    MorePast(s, p, e);
    var q := PastAfter(s, p, e);
    if e.RunAct? && s.slot.Some? && s.slot.value.section.ForRun? { RunActMeans(s, s.slot.value, s.slot.value.section.seen, e.outcome, q); }
    if e.CancelAct? && s.slot.Some? && s.slot.value.section.ForCancel? {
      CancelActMeans(s, s.slot.value, s.slot.value.section.intent, s.slot.value.section.seen, e.outcome, q);
    }
    hide AllMeans, Inv, ActForRun, ActForCancel;
  }

  lemma UnstartedMeans(s: State, e: Event, p: Past)
    requires Inv(s) && AllMeans(s, p) && e.CancelUnstarted?
    ensures AllMeans(Step(s, e), PastAfter(s, p, e))
  {
    MorePast(s, p, e);
    var q := PastAfter(s, p, e);
    if s.serving && e.seen.attempt == e.attempt && e.seen.phase.Prepared? {
      var settle := SettleAs(s, e.seen, Cancelled, UserCancelled, None);
      SettlingMeans(s, e.seen, settle.terminal, q);
      WriteMeans(s, e.seen, settle, e.outcome, q);
    }
    hide AllMeans, MoveMeans, Inv, Write, Stamp;
  }

  lemma HealthMeans(s: State, failed: bool, p: Past)
    requires AllMeans(s, p)
    ensures AllMeans(s.(storeFailed := failed), p)
  {
    hide FilesMean, OnlyCreationOpen, SessionMeans;
  }

  lemma AcknowledgingMeans(s: State, e: Event, p: Past)
    requires Inv(s) && AllMeans(s, p) && e.AcknowledgeTerminal?
    ensures AllMeans(Step(s, e), PastAfter(s, p, e))
  {
    MorePast(s, p, e);
    var q := PastAfter(s, p, e);
    if s.serving {
      var call := AttemptAcknowledged(s.files, e.attempt, e.revision, e.digest, e.at, e.outcome);
      var t := AfterCall(s, call, e.outcome).0;
      hide Inv, AllMeans, Replaced;
      if call.0 == s.files {
        HealthMeans(s, t.storeFailed, q);
        assert t == s.(storeFailed := t.storeFailed);
      } else {
        var r := s.files[e.attempt];
        assert r.attempt == e.attempt by { InvIsWellFormed(s); }
        assert call == Replaced(s.files, r, Acknowledge(e.at), e.outcome);
        MarkingMeans(s, r, Acknowledge(e.at), q);
        WriteMeans(s, r, Acknowledge(e.at), e.outcome, q);
      }
    }
  }

  lemma FreshMeans(i: PrepareInput, p: Past)
    ensures var r := OAuthRecords.Prepare(i); RecordMeans(r, p) && r.phase.Prepared? && r.revision == 0 && r.attempt == i.attempt && r.terminal.None?
  {}

  lemma AdmittedMeans(files: Files, i: PrepareInput, outcome: WriteOutcome, logins: seq<Login>, steady: bool, p: Past)
    requires FilesMean(files, logins, steady, p)
    requires steady && i.attempt !in files && PrepareInputValid(i) ==> !LoggedIn(logins, i.attempt)
    ensures var after := Admitted(files, i, outcome).0;
            && FilesMean(after, logins, steady, p) && OnlyCreationOpen(after, files)
            && (after == files || (i.attempt !in files && after == files[i.attempt := OAuthRecords.Prepare(i)]))
  {
    FreshMeans(i, p);
    hide RecordMeans, LoggedIn, OAuthRecords.Prepare, PrepareInputValid, SamePrepareInput, IsBarrier;
  }

  lemma PreparingMeans(s: State, outcome: WriteOutcome, p: Past)
    requires Inv(s) && AllMeans(s, p) && s.admission.PrepareCalled?
    ensures AllMeans(PrepareForStart(s, outcome), p)
  {
    var i := s.admission.input;
    assert s.steady && i.attempt !in s.files && PrepareInputValid(i) ==> !LoggedIn(s.logins, i.attempt) by { PreparedIsUnknown(s); }
    WriteHealth(s);
    AdmittedMeans(s.files, i, outcome, s.logins, s.steady, p);
    hide Inv, Admitted, FilesMean, OnlyCreationOpen, SessionMeans;
  }

  lemma PreparedIsUnknown(s: State)
    requires Inv(s) && s.admission.PrepareCalled?
    ensures var i := s.admission.input; s.steady && i.attempt !in s.files && PrepareInputValid(i) ==> !LoggedIn(s.logins, i.attempt)
  {
    hide WorldOk, SlotOk, Distinct;
    FreshIsUnknown(s.admission.input, s.files, s.logins, s.sets, s.horizon, s.steady);
  }

  lemma StartingMeans(s: State, e: Event, p: Past)
    requires Inv(s) && AllMeans(s, p) && (e.StartPrepare? || e.StartMarkEffect?)
    ensures AllMeans(Step(s, e), p)
  {
    hide Inv, AllMeans, PrepareForStart, Write, MoveMeans;
    if e.StartPrepare? && s.admission.PrepareCalled? { PreparingMeans(s, e.outcome, p); }
    if e.StartMarkEffect? && s.admission.MarkCalled? {
      var m := MarkLoginDispatching(s.admission.at);
      MarkingMeans(s, s.admission.record, m, p);
      WriteMeans(s, s.admission.record, m, e.outcome, p);
      var t := Write(s, s.admission.record, m, e.outcome).0;
      OtherMeans(t, Step(s, e), p);
    }
  }

  /** Nothing the claims speak of changes. */
  lemma OtherMeans(s: State, t: State, p: Past)
    requires AllMeans(s, p) && t.files == s.files && t.logins == s.logins && (t.steady ==> s.steady)
    requires (t.fallback == s.fallback || t.fallback.None?) && (t.slot == s.slot || t.slot.None?)
    ensures AllMeans(t, p)
  {
    hide RecordMeans, NeverLoggedIn, OnlyCreationOpen, SessionMeans;
  }

  lemma LaunchingMeans(s: State, inputOpen: bool, p: Past)
    requires Inv(s) && AllMeans(s, p)
    ensures AllMeans(Step(s, StartLaunch(inputOpen)), p)
  {
    if s.admission.MarkedUnresumed? {
      var r := s.admission.record;
      var login := Login(r.attempt, s.admission.generation);
      assert r.attempt in s.files && s.files[r.attempt] == r && r.phase.LoginDispatching? && WellFormed(s.files) by { InvIsWellFormed(s); }
      LoginMeans(s.files, s.logins, login, s.steady, p);
      if s.fallback.Some? { LoginInFallback(s); LoginMeans(s.fallback.value, s.logins, login, s.steady, p); }
    }
    hide Inv, FilesMean, OnlyCreationOpen, AdmissionHolds;
  }

  lemma LoginInFallback(s: State)
    requires Inv(s) && s.admission.MarkedUnresumed? && s.fallback.Some?
    ensures var a := s.admission.record.attempt;
            a in s.fallback.value && s.fallback.value[a].phase.LoginDispatching? && WellFormed(s.fallback.value)
  {
    hide Distinct, SlotOk, Coherent;
  }

  lemma LoginMeans(files: Files, logins: seq<Login>, login: Login, steady: bool, p: Past)
    requires FilesMean(files, logins, steady, p) && WellFormed(files)
    requires login.attempt in files && files[login.attempt].phase.LoginDispatching?
    ensures FilesMean(files, logins + [login], steady, p)
  {
    LoginExtends(logins, login);
    assert files[login.attempt].terminal.None?;
    hide RecordMeans, LoggedIn, Coherent;
  }

  lemma RestartingMeans(s: State, e: Event, p: Past)
    requires AllMeans(s, p) && (e.Crash? || e.PowerLoss? || e.Recover? || e.Open?)
    ensures AllMeans(Step(s, e), p)
  {
    hide AllMeans, Classified;
    if e == PowerLoss(true) && s.fallback.Some? { UndoneMeans(s, p); } else { OtherMeans(s, Step(s, e), p); }
  }

  lemma UndoneMeans(s: State, p: Past)
    requires AllMeans(s, p) && s.fallback.Some?
    ensures AllMeans(Restarted(s, s.fallback.value, None), p)
  {
    hide FilesMean, OnlyCreationOpen, SessionMeans;
  }

  lemma CompactingMeans(s: State, e: Event, p: Past)
    requires Inv(s) && AllMeans(s, p) && e.CompactOne?
    ensures AllMeans(Step(s, e), p)
  {
    WriteHealth(s);
    FewerMean(s.files, e.attempt, s.logins, s.steady, p);
    hide Inv, FilesMean, OnlyCreationOpen, SessionMeans, Classified, Eligible;
  }

  lemma FewerMean(files: Files, a: Attempt, logins: seq<Login>, steady: bool, p: Past)
    requires FilesMean(files, logins, steady, p)
    ensures FilesMean(files - {a}, logins, steady, p) && OnlyCreationOpen(files - {a}, files)
  {
    hide RecordMeans, NeverLoggedIn;
  }

  lemma ClassifyingMeans(s: State, e: Event, p: Past)
    requires Inv(s) && AllMeans(s, p) && e.Classify?
    ensures AllMeans(Step(s, e), p)
  {
    if e.attempt in s.files {
      MarkingMeans(s, s.files[e.attempt], Restart(s.bootAt), p);
      WriteMeans(s, s.files[e.attempt], Restart(s.bootAt), e.outcome, p);
    }
    hide Inv, AllMeans, MoveMeans, Write, ClassifyRestart;
  }

  lemma StepMeans(s: State, e: Event, p: Past)
    requires Inv(s) && AllMeans(s, p)
    ensures AllMeans(Step(s, e), PastAfter(s, p, e))
  {
    hide Inv, AllMeans;
    match e
    case LoginReturns(_) => SessionStepsMean(s, e, p);
    case StorageReturns(_) => SessionStepsMean(s, e, p);
    case BeginSet => SessionStepsMean(s, e, p);
    case RunEnter(_) => EnteringMeans(s, e, p);
    case CancelEnter(_, _) => EnteringMeans(s, e, p);
    case RunAct(_) => ActingMeans(s, e, p);
    case CancelAct(_) => ActingMeans(s, e, p);
    case CancelUnstarted(_, _, _) => UnstartedMeans(s, e, p);
    case AcknowledgeTerminal(_, _, _, _, _) => AcknowledgingMeans(s, e, p);
    case StartPrepare(_) => StartingMeans(s, e, p);
    case StartMarkEffect(_) => StartingMeans(s, e, p);
    case StartLaunch(inputOpen) => LaunchingMeans(s, inputOpen, p);
    case Classify(_, _) => ClassifyingMeans(s, e, p);
    case Crash => RestartingMeans(s, e, p);
    case PowerLoss(_) => RestartingMeans(s, e, p);
    case Recover(_) => RestartingMeans(s, e, p);
    case Open => RestartingMeans(s, e, p);
    case CompactOne(_, _) => CompactingMeans(s, e, p);
    case _ => PassingMeans(s, e, p);
  }

  lemma PassingMeans(s: State, e: Event, p: Past)
    requires AllMeans(s, p) && (e.Tick? || e.StartBegin? || e.StartLookup? || e.StartMark? || e.StatusRead? || e.Close?)
    ensures AllMeans(Step(s, e), p)
  {
    hide AllMeans, AfterHorizon, AdmissionHolds;
    OtherMeans(s, Step(s, e), p);
  }

  lemma {:induction false} RunMeans(s: State, p: Past, events: seq<Event>)
    requires Inv(s) && AllMeans(s, p)
    ensures Inv(Run(s, events)) && AllMeans(Run(s, events), PastOf(s, p, events))
    decreases |events|
  {
    hide Inv, AllMeans, Step, PastAfter;
    if events != [] {
      StepKeepsInv(s, events[0]);
      StepMeans(s, events[0], p);
      RunMeans(Step(s, events[0]), PastAfter(s, p, events[0]), events[1..]);
    }
  }

  // ---- Results ----

  lemma InitMeans(clock: Time)
    ensures AllMeans(Init(clock), NOTHING)
  {}

  /** In every run, every outcome on record was caused: completed only if storage
      confirmed credentials the provider had returned, failed in storage only if storage
      said so, failed at login only if the provider did, discarded only with credentials
      in hand, cancelled, expired or shut down only if that was asked for; acknowledged
      only by a caller; and interrupted before the login only if none was made, as long
      as every admission follows the horizon. */
  lemma OutcomeIsCaused(clock: Time, events: seq<Event>, a: Attempt)
    ensures var s, p := Run(Init(clock), events), PastOf(Init(clock), NOTHING, events);
            a in s.files ==>
              && RecordMeans(s.files[a], p) && s.files[a].attempt == a
              && (s.steady ==> NeverLoggedIn(s.files[a], s.logins))
  {
    InitInv(clock);
    InitMeans(clock);
    RunMeans(Init(clock), NOTHING, events);
    InvIsWellFormed(Run(Init(clock), events));
    hide Inv, Run, PastOf, RecordMeans, NeverLoggedIn, SessionMeans, Coherent;
  }

  lemma WriteStays(s: State, prev: Record, m: Move, outcome: WriteOutcome)
    ensures Write(s, prev, m, outcome).0.files.Keys == s.files.Keys
  {
    hide Coherent, Allowed, Candidate;
  }

  lemma RunWriteStays(s: State, ses: Session, prev: Record, m: Move, outcome: WriteOutcome, pc: RunPc, retain: bool)
    ensures RunWrite(s, ses, prev, m, outcome, pc, retain).files.Keys == s.files.Keys
  {
    WriteStays(s, prev, m, outcome);
    hide Write;
  }

  lemma HandlingStays(s: State, ses: Session, seen: Record, helper: bool, outcome: WriteOutcome)
    ensures HandleError(s, ses, seen, helper, outcome).files.Keys == s.files.Keys
  {
    hide RunWrite, ErrorMove;
    var m := ErrorMove(s, seen, helper);
    if m.Some? { RunWriteStays(s, ses, seen, m.value, outcome, RunDone, helper); }
  }

  lemma EndingStays(s: State, ses: Session)
    ensures EndRun(s, ses).files == s.files && EndRetained(s, ses).files == s.files
  {}

  lemma LoginActStays(s: State, ses: Session, seen: Record, outcome: WriteOutcome)
    requires ses.pc.LoginEnded? || ses.pc.ExpiringLogin?
    ensures ActForRun(s, ses, seen, outcome).files.Keys == s.files.Keys
  {
    hide RunWrite, HandleError, CancellationMove, EndRun, EndRetained, SameEffects, Stamp, SettleAs, TerminalPhase;
    EndingStays(s, ses);
    HandlingStays(s, ses, seen, false, outcome);
    HandlingStays(s, ses, seen, true, outcome);
    var m := CancellationMove(s, seen);
    if m.Some? { RunWriteStays(s, ses, seen, m.value, outcome, RunDone, false); }
    RunWriteStays(s, ses, seen, MarkCancelling(ByExpiry, Stamp(s, seen)), outcome, ExpiringLogin, false);
    RunWriteStays(s, ses, seen, MarkCredentialsReady(Stamp(s, seen)), outcome, AwaitingPersistence, false);
  }

  lemma StorageActStays(s: State, ses: Session, seen: Record, outcome: WriteOutcome)
    requires !ses.pc.LoginEnded? && !ses.pc.ExpiringLogin?
    ensures ActForRun(s, ses, seen, outcome).files.Keys == s.files.Keys
  {
    hide RunWrite, HandleError, CancellationMove, EndRun, EndRetained, SameEffects, Stamp, SettleAs, TerminalPhase;
    EndingStays(s, ses);
    HandlingStays(s, ses, seen, false, outcome);
    HandlingStays(s, ses, seen, true, outcome);
    RunWriteStays(s, ses, seen, MarkPersistenceDispatching(Stamp(s, seen)), outcome, Dispatching, false);
    RunWriteStays(s, ses, seen, SettleAs(s, seen, Completed, PersistenceConfirmed, Some(true)), outcome, RunDone, false);
  }

  lemma ActStays(s: State, ses: Session, seen: Record, outcome: WriteOutcome)
    ensures ActForRun(s, ses, seen, outcome).files.Keys == s.files.Keys
  {
    hide ActForRun;
    if ses.pc.LoginEnded? || ses.pc.ExpiringLogin? { LoginActStays(s, ses, seen, outcome); } else { StorageActStays(s, ses, seen, outcome); }
  }

  lemma PrepareStays(s: State, outcome: WriteOutcome)
    requires s.admission.PrepareCalled?
    ensures s.files.Keys <= PrepareForStart(s, outcome).files.Keys
  {
    hide SamePrepareInput, IsBarrier, OAuthRecords.Prepare, PrepareInputValid;
  }

  lemma AcknowledgementStays(s: State, e: Event)
    requires e.AcknowledgeTerminal? && s.serving
    ensures Step(s, e).files.Keys == s.files.Keys
  {
    hide Coherent, Allowed, Candidate;
  }

  /** The steps that write records or create them. */
  lemma WritingStays(s: State, e: Event)
    requires e.RunAct? || e.CancelAct? || e.CancelUnstarted? || e.Classify? || e.StartMarkEffect? || e.StartPrepare? || e.AcknowledgeTerminal?
    ensures s.files.Keys <= Step(s, e).files.Keys
  {
    if e.RunAct? && s.slot.Some? && s.slot.value.section.ForRun? { ActStays(s, s.slot.value, s.slot.value.section.seen, e.outcome); }
    if e.StartPrepare? && s.admission.PrepareCalled? { PrepareStays(s, e.outcome); }
    if e.AcknowledgeTerminal? && s.serving { AcknowledgementStays(s, e); }
    if e.CancelUnstarted? { WriteStays(s, e.seen, SettleAs(s, e.seen, Cancelled, UserCancelled, None), e.outcome); }
    if e.StartMarkEffect? && s.admission.MarkCalled? { WriteStays(s, s.admission.record, MarkLoginDispatching(s.admission.at), e.outcome); }
    if e.Classify? && e.attempt in s.files { WriteStays(s, s.files[e.attempt], Restart(s.bootAt), e.outcome); }
    if e.CancelAct? && s.slot.Some? && s.slot.value.section.ForCancel? {
      var m := CancelMove(s, s.slot.value.section.intent, s.slot.value.section.seen);
      if m.Some? { WriteStays(s, s.slot.value.section.seen, m.value, e.outcome); }
    }
    hide Write, SettleAs, CancelMove, ClassifyRestart, ActForRun, PrepareForStart, AttemptAcknowledged, AfterCall;
  }

  /** Only compaction and a power loss take files away. */
  lemma RecordsStay(s: State, e: Event, a: Attempt)
    requires a in s.files && a !in Step(s, e).files
    ensures (e.CompactOne? && e.attempt == a && Eligible(s.files[a], s.bootAt))
         || (e == PowerLoss(true) && s.fallback.Some? && a !in s.fallback.value)
  {
    if e.RunAct? || e.CancelAct? || e.CancelUnstarted? || e.Classify? || e.StartMarkEffect? || e.StartPrepare? || e.AcknowledgeTerminal? {
      WritingStays(s, e);
      hide Step;
    } else {
      hide Eligible, Classified, AdmissionHolds, OwnRecordReadable, AfterHorizon;
    }
  }

  /** In every run, a record vanishes only by compaction, when a caller had acknowledged
      its outcome and that outcome is older than the retention period, or by a power
      loss that undoes its creation, before anything was done for it. */
  lemma VanishedWasAcknowledged(clock: Time, events: seq<Event>, e: Event, a: Attempt)
    ensures var s, p := Run(Init(clock), events), PastOf(Init(clock), NOTHING, events);
            a in s.files && a !in Step(s, e).files ==>
              || (e.CompactOne? && e.attempt == a && a in p.acknowledged && RetainedLongEnough(s.files[a], s.bootAt))
              || (e == PowerLoss(true) && s.files[a].phase.Prepared? && s.files[a].revision == 0)
  {
    InitInv(clock);
    InitMeans(clock);
    RunMeans(Init(clock), NOTHING, events);
    OutcomeIsCaused(clock, events, a);
    var s := Run(Init(clock), events);
    hide Run, PastOf, Step;
    if a in s.files && a !in Step(s, e).files {
      RecordsStay(s, e, a);
      InvIsWellFormed(s);
      if e.CompactOne? { EligibleIsRetained(s.files[a], s.bootAt); }
      hide Inv, Coherent, FilesMean, SessionMeans;
    }
  }
}
