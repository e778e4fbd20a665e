/** What every run of the broker keeps, over all interleavings, write failures,
    crashes, power losses and restarts. */
module OAuthBrokerSafety {
  import opened Outcomes
  import opened OAuthRecords
  import opened OAuthAttemptStores
  import opened OAuthBrokers

  predicate LoggedIn(logins: seq<Login>, a: Attempt) {
    exists k :: 0 <= k < |logins| && logins[k].attempt == a
  }

  /** The attempt is old enough to have been compacted. */
  predicate Outlived(a: Attempt, horizon: Option<Time>) {
    horizon.Some? && a.requestedAt + RETENTION_MS <= horizon.value
  }

  /** One possible content of the journal agrees with the effects made so far. */
  ghost predicate WorldOk(files: Files, logins: seq<Login>, sets: seq<Attempt>, horizon: Option<Time>, steady: bool) {
    && WellFormed(files) && AtMostOneBarrier(files)
    && (forall a :: LoggedIn(logins, a) ==> a in files || Outlived(a, horizon))
    && (steady ==> forall a :: a in sets && a in files ==> PastDispatch(files[a]))
  }

  predicate BeforeSet(pc: RunPc) {
    pc.LoggingIn? || pc.LoginEnded? || pc.ExpiringLogin? || pc.AwaitingPersistence? || pc.Dispatching?
  }

  /** The phases an attempt's record can be in while its run stands at `pc`. */
  predicate PhaseAgrees(pc: RunPc, p: Phase) {
    && (pc.LoggingIn? || pc.LoginEnded? ==> p.LoginDispatching? || p.Cancelling?)
    && (pc.AwaitingPersistence? ==> p.CredentialsReady? || TerminalPhase(p))
    && (pc.Dispatching? || pc.Storing? || pc.StorageEnded? ==> p.PersistenceDispatching?)
  }

  predicate SlotAgrees(files: Files, ses: Session) {
    ses.attempt in files && PhaseAgrees(ses.pc, files[ses.attempt].phase)
  }

  predicate SlotOk(s: State) {
    s.slot.Some? ==>
      var ses := s.slot.value;
      && s.serving && LoggedIn(s.logins, ses.attempt)
      && SlotAgrees(s.files, ses) && (s.fallback.Some? ==> SlotAgrees(s.fallback.value, ses))
      && (s.steady && BeforeSet(ses.pc) ==> ses.attempt !in s.sets)
      && (!ses.section.Free? ==> ses.section.seen.attempt == ses.attempt && PhaseAgrees(ses.pc, ses.section.seen.phase))
  }

  predicate AdmissionAgrees(files: Files, a: Admission) {
    match a
    case PreparedUnresumed(r, _) => r.attempt in files
    case MarkCalled(r, _, _) => r.attempt in files
    case MarkedUnresumed(r, _) => r.attempt in files && files[r.attempt] == r && r.phase.LoginDispatching?
    case _ => true
  }

  predicate AdmissionOk(s: State) {
    && (!s.admission.Idle? ==> s.serving)
    && (!s.admission.Idle? && !s.admission.Begun? ==> s.slot.None?)
    && AdmissionAgrees(s.files, s.admission) && (s.fallback.Some? ==> AdmissionAgrees(s.fallback.value, s.admission))
    && (s.steady ==> AdmissionIsNew(s))
  }

  /** What the start in progress is admitted for was never logged in, and cannot have been compacted. */
  predicate AdmissionIsNew(s: State) {
    match s.admission
    case Begun(_, _, nowMs, _) => AfterHorizon(nowMs, s.horizon)
    case PrepareCalled(i, _) => AfterHorizon(i.observedAt, s.horizon)
    case PreparedUnresumed(r, _) => !LoggedIn(s.logins, r.attempt)
    case MarkCalled(r, _, _) => !LoggedIn(s.logins, r.attempt)
    case MarkedUnresumed(r, _) => !LoggedIn(s.logins, r.attempt)
    case Idle => true
  }

  predicate Distinct(logins: seq<Login>, sets: seq<Attempt>) {
    && (forall i, j :: 0 <= i < j < |logins| ==> logins[i].attempt != logins[j].attempt)
    && (forall i, j :: 0 <= i < j < |sets| ==> sets[i] != sets[j])
  }

  predicate SetsLoggedIn(logins: seq<Login>, sets: seq<Attempt>) {
    forall a :: a in sets ==> LoggedIn(logins, a)
  }

  ghost predicate Inv(s: State) {
    && WorldOk(s.files, s.logins, s.sets, s.horizon, s.steady)
    && (s.fallback.Some? ==> WorldOk(s.fallback.value, s.logins, s.sets, s.horizon, s.steady))
    && (s.fallback.Some? ==> s.storeFailed)
    && (s.steady ==> Distinct(s.logins, s.sets)) && SetsLoggedIn(s.logins, s.sets) && SlotOk(s) && AdmissionOk(s)
  }

  // ---- Journal calls ----

  /** `after` is `before`, or `before` with the record of `a` moved to `next`. */
  ghost predicate Moved(before: Files, after: Files, a: Attempt, m: Move) {
    after == before ||
    (a in before && Advance(before[a], m).Some? && after == before[a := Advance(before[a], m).value])
  }

  /** The phases this move of a running session can lead to. */
  predicate LeadsTo(m: Move, p: Phase) {
    && (m.MarkCredentialsReady? ==> p.CredentialsReady?)
    && (m.MarkPersistenceDispatching? ==> p.PersistenceDispatching?)
    && (m.MarkCancelling? ==> p.Cancelling?)
    && (m.Settle? ==> TerminalPhase(p))
  }

  lemma WriteMoves(s: State, prev: Record, m: Move, outcome: WriteOutcome)
    requires WellFormed(s.files) && (s.fallback.Some? ==> s.storeFailed)
    ensures var (s', written) := Write(s, prev, m, outcome);
            && Moved(s.files, s'.files, prev.attempt, m)
            && (s'.files != s.files ==> s.files[prev.attempt] == prev)
            && s' == s.(files := s'.files, fallback := s'.fallback, storeFailed := s'.storeFailed)
            && (s'.fallback == s.fallback || s'.fallback == Some(s.files))
            && (s'.fallback.Some? ==> s'.storeFailed)
            && (s.storeFailed ==> s'.storeFailed)
            && (written.Some? ==> !s'.storeFailed && prev.attempt in s'.files && written.value == s'.files[prev.attempt] &&
                                  written.value == Candidate(prev, m) && Coherent(prev) && Allowed(prev, m))
            && (written.Some? ==> LeadsTo(m, written.value.phase))
            && (s'.files != s.files ==> LeadsTo(m, s'.files[prev.attempt].phase))
            && (forall a :: a in s.files && a != prev.attempt ==> s'.files[a] == s.files[a])
  {
    if Coherent(prev) { GuardsSuffice(prev, m); }
  }

  lemma MoveKeepsWorld(before: Files, after: Files, a: Attempt, m: Move, logins: seq<Login>, sets: seq<Attempt>,
    horizon: Option<Time>, steady: bool)
    requires WorldOk(before, logins, sets, horizon, steady) && Moved(before, after, a, m)
    ensures WorldOk(after, logins, sets, horizon, steady) && before.Keys == after.Keys
  {
    if after != before {
      var p, n := before[a], Advance(before[a], m).value;
      assert Coherent(n) && n.attempt == a && (IsBarrier(n) ==> IsBarrier(p));
      if PastDispatch(p) { DispatchIsIrrevocable(p, m); }
      assert PastDispatch(p) ==> PastDispatch(n);
      hide Coherent, IsBarrier, PastDispatch, Advance, LoggedIn;
    }
  }

  /** The part of the invariant that does not speak of the slot or the admission. */
  ghost predicate CoreInv(s: State) {
    && WorldOk(s.files, s.logins, s.sets, s.horizon, s.steady)
    && (s.fallback.Some? ==> WorldOk(s.fallback.value, s.logins, s.sets, s.horizon, s.steady))
    && (s.fallback.Some? ==> s.storeFailed)
    && (s.steady ==> Distinct(s.logins, s.sets)) && SetsLoggedIn(s.logins, s.sets)
  }

  lemma WriteKeepsCore(s: State, prev: Record, m: Move, outcome: WriteOutcome)
    requires CoreInv(s)
    ensures var (s', written) := Write(s, prev, m, outcome);
            CoreInv(s') && s'.files.Keys == s.files.Keys &&
            (s'.fallback.Some? ==> s'.fallback.value.Keys == s.files.Keys || s'.fallback == s.fallback)
  {
    WriteMoves(s, prev, m, outcome);
    var s' := Write(s, prev, m, outcome).0;
    MoveKeepsWorld(s.files, s'.files, prev.attempt, m, s.logins, s.sets, s.horizon, s.steady);
    hide WorldOk, Distinct, Moved, Write;
  }

  lemma EndRunKeepsInv(s: State, ses: Session)
    requires CoreInv(s) && AdmissionOk(s) && s.slot.Some? && s.serving && LoggedIn(s.logins, ses.attempt)
    requires ses.attempt in s.files && (s.fallback.Some? ==> ses.attempt in s.fallback.value)
    ensures Inv(EndRun(s, ses)) && Inv(EndRetained(s, ses))
  {
    hide WorldOk, Distinct, LoggedIn;
  }

  lemma RunEndsInInv(s: State, ses: Session)
    requires Inv(s) && s.slot.Some? && ses.attempt == s.slot.value.attempt
    ensures Inv(EndRun(s, ses)) && Inv(EndRetained(s, ses))
  {
    EndRunKeepsInv(s, ses);
  }

  lemma SessionWriteKeepsRest(s: State, prev: Record, m: Move, outcome: WriteOutcome)
    requires Inv(s) && s.slot.Some? && prev.attempt == s.slot.value.attempt
    ensures var (s', written) := Write(s, prev, m, outcome);
            && CoreInv(s') && AdmissionOk(s') && s' == s.(files := s'.files, fallback := s'.fallback, storeFailed := s'.storeFailed)
            && prev.attempt in s'.files && (s'.fallback.Some? ==> prev.attempt in s'.fallback.value)
            && (written.Some? ==> s'.fallback.None? && written.value == s'.files[prev.attempt] &&
                                  written.value.attempt == prev.attempt)
            && (written.Some? ==> LeadsTo(m, s'.files[prev.attempt].phase))
            && (s'.files != s.files ==> s.files[prev.attempt] == prev && LeadsTo(m, s'.files[prev.attempt].phase))
            && (s'.fallback == s.fallback || s'.fallback == Some(s.files))
  {
    WriteMoves(s, prev, m, outcome);
    WriteKeepsCore(s, prev, m, outcome);
    hide WorldOk, Distinct, LoggedIn, Write, Moved, Coherent, Candidate, Allowed, Advance;
  }

  lemma InvParts(s: State)
    requires Inv(s)
    ensures CoreInv(s) && AdmissionOk(s) && SlotOk(s)
    ensures s.slot.Some? && !s.slot.value.section.Free? ==> s.slot.value.section.seen.attempt == s.slot.value.attempt
  {
    hide WorldOk, Distinct, AdmissionOk;
  }

  lemma SlotChangeKeepsInv(s: State, ses: Session)
    requires CoreInv(s) && AdmissionOk(s) && s.slot.Some? && SlotOk(s.(slot := Some(ses)))
    ensures Inv(s.(slot := Some(ses)))
  {
    hide WorldOk, Distinct, LoggedIn, SlotAgrees;
  }

  /** The run goes on at `pc` after a write that leads there. */
  lemma RunGoesOn(t: State, ses: Session, m: Move, pc: RunPc, section: Section)
    requires CoreInv(t) && AdmissionOk(t) && t.slot.Some? && t.serving && t.fallback.None? && LoggedIn(t.logins, ses.attempt)
    requires ses.attempt in t.files && LeadsTo(m, t.files[ses.attempt].phase)
    requires pc.ExpiringLogin? || (pc.Dispatching? && m.MarkPersistenceDispatching?) || (pc.AwaitingPersistence? && m.MarkCredentialsReady?)
    requires t.steady ==> ses.attempt !in t.sets
    requires section.Free? || (section.seen.attempt == ses.attempt && pc.ExpiringLogin?)
    ensures Inv(t.(slot := Some(ses.(pc := pc, section := section))))
  {
    hide CoreInv, AdmissionOk, LoggedIn;
    SlotChangeKeepsInv(t, ses.(pc := pc, section := section));
  }

  lemma RunWriteKeepsInv(
    s: State, ses: Session, prev: Record, m: Move, outcome: WriteOutcome, pc: RunPc, retain: bool)
    requires Inv(s) && s.slot.Some? && ses.attempt == s.slot.value.attempt == prev.attempt
    requires pc.RunDone? || pc.ExpiringLogin? || pc.AwaitingPersistence? || pc.Dispatching?
    requires BeforeSet(pc) ==> BeforeSet(s.slot.value.pc)
    requires (pc.Dispatching? ==> m.MarkPersistenceDispatching?) && (pc.AwaitingPersistence? ==> m.MarkCredentialsReady?)
    ensures Inv(RunWrite(s, ses, prev, m, outcome, pc, retain))
  {
    hide CoreInv, WorldOk, Distinct, LoggedIn, Write, AdmissionOk, SameEffects, LeadsTo, SlotAgrees;
    SessionWriteKeepsRest(s, prev, m, outcome);
    var (s', written) := Write(s, prev, m, outcome);
    if written.None? {
      EndRunKeepsInv(s', ses);
    } else {
      var ses' := ses.(observed := written.value, retained := ses.retained || retain);
      if pc.RunDone? {
        EndRunKeepsInv(s', ses');
      } else {
        var section := if pc.ExpiringLogin? then ForRun(written.value) else Free;
        RunGoesOn(s', ses', m, pc, section);
      }
    }
  }

  lemma HandleErrorKeepsInv(s: State, ses: Session, seen: Record, helper: bool, outcome: WriteOutcome)
    requires Inv(s) && s.slot == Some(ses) && seen.attempt == ses.attempt
    ensures Inv(HandleError(s, ses, seen, helper, outcome))
  {
    hide Inv, Stamp, SettleAs, ErrorMove, CancellationMove;
    RunEndsInInv(s, ses);
    var m := ErrorMove(s, seen, helper);
    if m.Some? { RunWriteKeepsInv(s, ses, seen, m.value, outcome, RunDone, helper); }
  }

  lemma ActForRunKeepsInv(s: State, ses: Session, seen: Record, outcome: WriteOutcome)
    requires Inv(s) && s.slot == Some(ses) && seen.attempt == ses.attempt
    ensures Inv(ActForRun(s, ses, seen, outcome))
  {
    hide Inv, Stamp, SettleAs, ErrorMove, CancellationMove, HandleError, RunWrite, EndRun, EndRetained;
    RunEndsInInv(s, ses);
    match ses.pc
    case LoginEnded(LoginRejected) => HandleErrorKeepsInv(s, ses, seen, false, outcome);
    case LoginEnded(LoginHelperUnconfirmed) => HandleErrorKeepsInv(s, ses, seen, true, outcome);
    case LoginEnded(Credentials) =>
      var m := CancellationMove(s, seen);
      if m.Some? { RunWriteKeepsInv(s, ses, seen, m.value, outcome, RunDone, false); }
      RunWriteKeepsInv(s, ses, seen, MarkCancelling(ByExpiry, Stamp(s, seen)), outcome, ExpiringLogin, false);
      RunWriteKeepsInv(s, ses, seen, MarkCredentialsReady(Stamp(s, seen)), outcome, AwaitingPersistence, false);
    case ExpiringLogin =>
      var m := CancellationMove(s, seen);
      if m.Some? { RunWriteKeepsInv(s, ses, seen, m.value, outcome, RunDone, false); }
    case AwaitingPersistence =>
      RunWriteKeepsInv(s, ses, seen, MarkPersistenceDispatching(Stamp(s, seen)), outcome, Dispatching, false);
    case StorageEnded(Confirmed) =>
      RunWriteKeepsInv(s, ses, seen, SettleAs(s, seen, Completed, PersistenceConfirmed, Some(true)), outcome, RunDone, false);
    case StorageEnded(Unconfirmed) => HandleErrorKeepsInv(s, ses, seen, false, outcome);
    case StorageEnded(StorageHelperUnconfirmed) => HandleErrorKeepsInv(s, ses, seen, true, outcome);
    case _ =>
  }

  /** A cancellation's write leaves a record on which the running session can continue. */
  lemma CancelWriteAgrees(s: State, ses: Session, intent: CancelIntent, seen: Record, outcome: WriteOutcome)
    requires Inv(s) && s.slot == Some(ses) && seen.attempt == ses.attempt && CancelMove(s, intent, seen).Some?
    ensures var s' := Write(s, seen, CancelMove(s, intent, seen).value, outcome).0;
            SlotAgrees(s'.files, ses) && (s'.fallback.Some? ==> SlotAgrees(s'.fallback.value, ses))
  {
    hide CoreInv, WorldOk, Distinct, LoggedIn, Write, Stamp, AdmissionOk;
    SessionWriteKeepsRest(s, seen, CancelMove(s, intent, seen).value, outcome);
  }

  /** Bookkeeping on the session: its section, what it observed, whether it is retained. */
  lemma BookkeepingKeepsInv(s: State, ses: Session, next: Session)
    requires CoreInv(s) && AdmissionOk(s) && s.slot.Some? && SlotOk(s.(slot := Some(ses)))
    requires next == ses.(section := next.section, observed := next.observed, retained := next.retained)
    requires next.section.Free? || (next.section.seen.attempt == ses.attempt && PhaseAgrees(ses.pc, next.section.seen.phase))
    ensures Inv(s.(slot := Some(next)))
  {
    hide CoreInv, AdmissionOk, LoggedIn;
    assert SlotOk(s.(slot := Some(next)));
    SlotChangeKeepsInv(s, next);
  }

  lemma ActForCancelKeepsInv(s: State, ses: Session, intent: CancelIntent, seen: Record, outcome: WriteOutcome)
    requires Inv(s) && s.slot == Some(ses) && seen.attempt == ses.attempt
    ensures Inv(ActForCancel(s, ses, intent, seen, outcome))
  {
    hide Inv, CoreInv, Write, CancelMove, AdmissionOk, SlotAgrees, LoggedIn;
    var m := CancelMove(s, intent, seen);
    InvParts(s);
    assert s.(slot := Some(ses)) == s;
    if m.None? {
      BookkeepingKeepsInv(s, ses, ses.(section := Free,
        retained := ses.retained || seen.phase.Prepared? || seen.phase.RecoveryRequired?));
    } else {
      CancelWriteAgrees(s, ses, intent, seen, outcome);
      SessionWriteKeepsRest(s, seen, m.value, outcome);
      var (s', written) := Write(s, seen, m.value, outcome);
      BookkeepingKeepsInv(s', ses, ses.(section := Free, observed := if written.Some? then written.value else ses.observed,
                                        retained := ses.retained || (written.None? && intent.ByExpiry?)));
    }
  }

  lemma TerminalStays(p: Record, m: Move)
    requires Advance(p, m).Some? && TerminalPhase(p.phase)
    ensures Advance(p, m).value.phase == p.phase
  {
  }

  /** A running session is undisturbed by a write to a prepared or terminal record. */
  lemma ForeignWriteAgrees(files: Files, after: Files, prev: Record, m: Move, ses: Session)
    requires SlotAgrees(files, ses) && Moved(files, after, prev.attempt, m)
    requires after != files ==> files[prev.attempt] == prev && (prev.phase.Prepared? || TerminalPhase(prev.phase))
    ensures SlotAgrees(after, ses)
  {
    if after != files && TerminalPhase(prev.phase) { TerminalStays(prev, m); }
    hide Advance;
  }

  lemma ForeignWriteKeepsSession(s: State, prev: Record, m: Move, outcome: WriteOutcome)
    requires Inv(s) && (prev.phase.Prepared? || TerminalPhase(prev.phase) || !s.serving)
    ensures SlotOk(Write(s, prev, m, outcome).0)
  {
    hide WorldOk, Distinct, LoggedIn, Write, AdmissionOk, SlotAgrees, Moved, LeadsTo, PhaseAgrees, Coherent, Allowed, Candidate, Advance;
    InvIsWellFormed(s);
    WriteMoves(s, prev, m, outcome);
    if s.slot.Some? { ForeignWriteAgrees(s.files, Write(s, prev, m, outcome).0.files, prev, m, s.slot.value); }
  }

  /** A write to a record that is still prepared, or already terminal, disturbs neither a running
      session nor a start in progress. */
  lemma ForeignWriteKeepsInv(s: State, prev: Record, m: Move, outcome: WriteOutcome)
    requires Inv(s) && (prev.phase.Prepared? || TerminalPhase(prev.phase) || !s.serving)
    ensures Inv(Write(s, prev, m, outcome).0)
  {
    hide Distinct, LoggedIn, Write, Advance, PastDispatch, AtMostOneBarrier, AfterHorizon;
    WriteMoves(s, prev, m, outcome);
    WriteKeepsCore(s, prev, m, outcome);
    ForeignWriteKeepsSession(s, prev, m, outcome);
    hide WorldOk, Moved, Coherent, SlotOk, LeadsTo, Replaced, LegalTransition, Candidate, Allowed;
  }

  lemma FailedCallKeepsInv(s: State)
    requires Inv(s)
    ensures Inv(s.(storeFailed := true))
  {
    hide WorldOk, Distinct, LoggedIn, AdmissionAgrees, SlotAgrees;
  }

  /** An acknowledgement that changes a file is a write over its terminal record. */
  lemma AcknowledgementIs(files: Files, attempt: Attempt, revision: nat, digest: Terminal, at: Time, outcome: WriteOutcome)
    ensures var call := AttemptAcknowledged(files, attempt, revision, digest, at, outcome);
            call.0 != files ==>
              attempt in files && call == Replaced(files, files[attempt], Acknowledge(at), outcome) && files[attempt].terminal.Some?
  {
    hide Replaced;
  }

  lemma AcknowledgeKeepsInv(s: State, attempt: Attempt, revision: nat, digest: Terminal, at: Time, outcome: WriteOutcome)
    requires Inv(s)
    ensures Inv(Step(s, AcknowledgeTerminal(attempt, revision, digest, at, outcome)))
  {
    hide Inv, AttemptAcknowledged, Replaced, SameEffects;
    FailedCallKeepsInv(s);
    AcknowledgementIs(s.files, attempt, revision, digest, at, outcome);
    var call := AttemptAcknowledged(s.files, attempt, revision, digest, at, outcome);
    if call.0 != s.files {
      var r := s.files[attempt];
      TerminalOnFile(s, attempt);
      ForeignWriteKeepsInv(s, r, Acknowledge(at), outcome);
    } else {
      assert AfterCall(s, call, outcome).0 == s || AfterCall(s, call, outcome).0 == s.(storeFailed := true);
    }
  }

  lemma TerminalOnFile(s: State, a: Attempt)
    requires Inv(s) && a in s.files && s.files[a].terminal.Some?
    ensures TerminalPhase(s.files[a].phase) && s.files[a].attempt == a
  {
    InvIsWellFormed(s);
    hide Inv;
  }

  // ---- Starts ----

  lemma PrepareKeepsWorld(files: Files, i: PrepareInput, outcome: WriteOutcome, logins: seq<Login>, sets: seq<Attempt>,
    horizon: Option<Time>, steady: bool)
    requires WorldOk(files, logins, sets, horizon, steady) && SetsLoggedIn(logins, sets)
    requires steady ==> AfterHorizon(i.observedAt, horizon)
    ensures var (after, r) := Admitted(files, i, outcome);
            && WorldOk(after, logins, sets, horizon, steady)
            && (forall a :: a in files ==> a in after && after[a] == files[a])
            && (r.Ok? && r.value.1 ==> i.attempt in after && (steady ==> !LoggedIn(logins, i.attempt)) && r.value.0.attempt == i.attempt)
            && (after != files && r.Ok? ==> outcome.Committed?)
  {
    hide LoggedIn, Coherent, PastDispatch, Outlived;
    var after := Admitted(files, i, outcome).0;
    if after != files || (outcome.Committed? && Admitted(files, i, outcome).1.Ok?) {
      FreshIsUnknown(i, files, logins, sets, horizon, steady);
    }
  }

  /** An attempt that is fresh and absent has never been logged in. */
  lemma FreshIsUnknown(i: PrepareInput, files: Files, logins: seq<Login>, sets: seq<Attempt>,
    horizon: Option<Time>, steady: bool)
    requires WorldOk(files, logins, sets, horizon, steady) && SetsLoggedIn(logins, sets)
    requires steady ==> AfterHorizon(i.observedAt, horizon)
    ensures steady && i.attempt !in files && PrepareInputValid(i) ==> !LoggedIn(logins, i.attempt) && i.attempt !in sets
    ensures PrepareInputValid(i) ==> Coherent(OAuthRecords.Prepare(i))
  {
    hide LoggedIn, PastDispatch, WellFormed;
  }

  lemma PrepareFacts(s: State, outcome: WriteOutcome)
    requires s.admission.PrepareCalled? && (s.fallback.Some? ==> s.storeFailed)
    ensures var t := PrepareForStart(s, outcome);
            var (after, r) := Admitted(s.files, s.admission.input, outcome);
            && t == s.(files := t.files, fallback := t.fallback, storeFailed := t.storeFailed, admission := t.admission)
            && (t.files == s.files || t.files == after) && (t.fallback == s.fallback || t.fallback == Some(s.files))
            && (t.fallback.Some? ==> t.storeFailed)
            && (t.admission.Idle? || (r.Ok? && r.value.1 && !s.storeFailed && t.files == after &&
                                      t.admission == PreparedUnresumed(r.value.0, s.admission.generation)))
            && (!t.admission.Idle? ==> t.fallback == s.fallback)
  {
    hide SamePrepareInput, IsBarrier, OAuthRecords.Prepare, PrepareInputValid;
  }

  lemma PrepareKeepsInv(s: State, outcome: WriteOutcome)
    requires Inv(s) && s.admission.PrepareCalled?
    ensures Inv(PrepareForStart(s, outcome))
  {
    hide Admitted, PrepareForStart, LoggedIn, SetsLoggedIn, Distinct, SlotAgrees;
    PrepareFacts(s, outcome);
    PrepareKeepsWorld(s.files, s.admission.input, outcome, s.logins, s.sets, s.horizon, s.steady);
    hide WorldOk;
  }

  lemma MarkEffectKeepsInv(s: State, outcome: WriteOutcome)
    requires Inv(s) && s.admission.MarkCalled?
    ensures Inv(Step(s, StartMarkEffect(outcome)))
  {
    hide WorldOk, Distinct, LoggedIn, Write, Moved, Coherent, Candidate, Allowed, Advance;
    var m := MarkLoginDispatching(s.admission.at);
    assert WellFormed(s.files) by { InvIsWellFormed(s); }
    WriteMoves(s, s.admission.record, m, outcome);
    WriteKeepsCore(s, s.admission.record, m, outcome);
    LoginMarkDispatches(s.admission.record, s.admission.at);
    hide WellFormed;
  }

  lemma InvIsWellFormed(s: State)
    requires Inv(s)
    ensures WellFormed(s.files)
  {
    hide Distinct, SlotOk, AdmissionOk, WellFormed;
  }

  lemma LoginMarkDispatches(r: Record, at: Time)
    ensures Candidate(r, MarkLoginDispatching(at)).phase.LoginDispatching?
    ensures Candidate(r, MarkLoginDispatching(at)).attempt == r.attempt
  {}

  lemma LoginExtends(logins: seq<Login>, login: Login)
    ensures forall a :: LoggedIn(logins + [login], a) <==> LoggedIn(logins, a) || a == login.attempt
    ensures forall k :: 0 <= k < |logins| ==> LoggedIn(logins, logins[k].attempt)
  {
    forall a ensures LoggedIn(logins + [login], a) <==> LoggedIn(logins, a) || a == login.attempt {
      if LoggedIn(logins, a) {
        var k :| 0 <= k < |logins| && logins[k].attempt == a;
        assert (logins + [login])[k].attempt == a;
      }
      assert (logins + [login])[|logins|] == login;
    }
  }

  lemma LoginKeepsWorld(files: Files, logins: seq<Login>, login: Login, sets: seq<Attempt>,
    horizon: Option<Time>, steady: bool)
    requires WorldOk(files, logins, sets, horizon, steady) && login.attempt in files
    ensures WorldOk(files, logins + [login], sets, horizon, steady)
  {
    LoginExtends(logins, login);
    hide LoggedIn, PastDispatch;
  }

  lemma LoginKeepsDistinct(logins: seq<Login>, login: Login, sets: seq<Attempt>)
    requires SetsLoggedIn(logins, sets)
    ensures SetsLoggedIn(logins + [login], sets) && LoggedIn(logins + [login], login.attempt)
    ensures Distinct(logins, sets) && !LoggedIn(logins, login.attempt) ==>
              Distinct(logins + [login], sets) && login.attempt !in sets
  {
    LoginExtends(logins, login);
    hide LoggedIn;
  }

  lemma LaunchedKeepsInv(s: State)
    requires Inv(s) && s.admission.MarkedUnresumed?
    ensures Inv(Launched(s, s.admission.record, s.admission.generation))
  {
    var login := Login(s.admission.record.attempt, s.admission.generation);
    LoginKeepsWorld(s.files, s.logins, login, s.sets, s.horizon, s.steady);
    if s.fallback.Some? { LoginKeepsWorld(s.fallback.value, s.logins, login, s.sets, s.horizon, s.steady); }
    LoginKeepsDistinct(s.logins, login, s.sets);
    hide WorldOk, Distinct, LoggedIn, SetsLoggedIn;
  }

  lemma LaunchKeepsInv(s: State, inputOpen: bool)
    requires Inv(s)
    ensures Inv(Step(s, StartLaunch(inputOpen)))
  {
    if s.admission.MarkedUnresumed? { LaunchedKeepsInv(s); }
    hide WorldOk, Distinct, LoggedIn, SetsLoggedIn, Launched, SlotAgrees;
  }

  lemma BeginKeepsInv(s: State, e: Event)
    requires Inv(s) && e.StartBegin?
    ensures Inv(Step(s, e))
  {
    hide Distinct, SetsLoggedIn, LoggedIn, SlotAgrees, WellFormed, AtMostOneBarrier, PastDispatch, AfterHorizon;
  }

  lemma StartStepsKeepInv(s: State, e: Event)
    requires Inv(s) && (e.StartLookup? || e.StartMark? || e.StatusRead? || e.Tick? || e.Close?)
    ensures Inv(Step(s, e))
  {
    hide WorldOk, Distinct, LoggedIn, SetsLoggedIn, SlotAgrees;
  }

  // ---- The running session ----

  lemma SessionStepsKeepInv(s: State, e: Event)
    requires Inv(s) && (e.LoginReturns? || e.StorageReturns?)
    ensures Inv(Step(s, e))
  {
    hide WorldOk, Distinct, LoggedIn, AdmissionAgrees;
  }

  lemma EnterKeepsInv(s: State, ses: Session, section: Section, readable: bool)
    requires Inv(s) && s.slot == Some(ses)
    requires section.Free? || (ses.attempt in s.files && section.seen == s.files[ses.attempt])
    ensures ses.attempt in s.files
    ensures Inv(EndRetained(s.(storeFailed := s.storeFailed || !readable), ses))
    ensures !section.Free? ==> Inv(s.(slot := Some(ses.(section := section, observed := section.seen))))
    ensures forall retained :: Inv(s.(storeFailed := s.storeFailed || !readable, slot := Some(ses.(retained := retained))))
  {
    SlotInFiles(s);
    hide Inv, CoreInv, AdmissionOk, SlotOk;
    var t := s.(storeFailed := s.storeFailed || !readable);
    FailedCallKeepsInv(s);
    assert t == s || t == s.(storeFailed := true);
    RunEndsInInv(t, ses);
    InvParts(s);
    InvParts(t);
    assert s.(slot := Some(ses)) == s && t.(slot := Some(ses)) == t;
    if !section.Free? { BookkeepingKeepsInv(s, ses, ses.(section := section, observed := section.seen)); }
    forall retained ensures Inv(t.(slot := Some(ses.(retained := retained)))) {
      BookkeepingKeepsInv(t, ses, ses.(retained := retained));
    }
  }

  lemma SlotInFiles(s: State)
    requires Inv(s) && s.slot.Some?
    ensures s.slot.value.attempt in s.files && s.files[s.slot.value.attempt].attempt == s.slot.value.attempt
    ensures s.slot.value.section.Free? || s.slot.value.section.seen.attempt == s.slot.value.attempt
    ensures PhaseAgrees(s.slot.value.pc, s.files[s.slot.value.attempt].phase)
  {
    hide Distinct, LoggedIn, AdmissionOk, AtMostOneBarrier, Coherent;
  }

  lemma BeginSetKeepsInv(s: State)
    requires Inv(s)
    ensures Inv(Step(s, BeginSet))
  {
    hide LoggedIn, Coherent, IsBarrier;
  }

  // ---- Restart ----

  lemma CrashKeepsInv(s: State, e: Event)
    requires Inv(s) && (e.Crash? || e.PowerLoss? || e.Recover?)
    ensures Inv(Step(s, e))
  {
    hide LoggedIn, Coherent, PastDispatch, IsBarrier;
  }

  lemma CompactKeepsWorld(files: Files, a: Attempt, reading: Time, logins: seq<Login>, sets: seq<Attempt>,
    horizon: Option<Time>, steady: bool)
    requires WorldOk(files, logins, sets, horizon, steady) && a in files && Eligible(files[a], reading)
    ensures WorldOk(files, logins, sets, Later(horizon, reading), steady)
    ensures WorldOk(files - {a}, logins, sets, Later(horizon, reading), steady)
  {
    assert Coherent(files[a]) && Outlived(a, Later(horizon, reading));
    assert forall b :: Outlived(b, horizon) ==> Outlived(b, Later(horizon, reading));
    hide LoggedIn, Coherent, PastDispatch, IsBarrier, Outlived;
  }

  lemma CompactKeepsInv(s: State, attempt: Attempt, outcome: WriteOutcome)
    requires Inv(s)
    ensures Inv(Step(s, CompactOne(attempt, outcome)))
  {
    hide LoggedIn, WorldOk, Distinct, SetsLoggedIn, SlotAgrees, Eligible;
    if !s.serving && attempt in s.files && Eligible(s.files[attempt], s.bootAt) {
      CompactKeepsWorld(s.files, attempt, s.bootAt, s.logins, s.sets, s.horizon, s.steady);
    }
  }

  lemma ClassifyKeepsInv(s: State, attempt: Attempt, outcome: WriteOutcome)
    requires Inv(s)
    ensures Inv(Step(s, Classify(attempt, outcome)))
  {
    if !s.serving && attempt in s.files { ForeignWriteKeepsInv(s, s.files[attempt], Restart(s.bootAt), outcome); }
    hide Inv;
  }

  lemma OpenKeepsInv(s: State)
    requires Inv(s)
    ensures Inv(Step(s, Open))
  {
    hide WorldOk, Distinct, LoggedIn, SlotAgrees;
  }

  lemma StepKeepsInv(s: State, e: Event)
    requires Inv(s)
    ensures Inv(Step(s, e))
  {
    hide Inv, SlotOk, CoreInv, AdmissionOk;
    InvParts(s);
    match e
    case StartBegin(_, _, _, _) => BeginKeepsInv(s, e);
    case StartPrepare(outcome) => if s.admission.PrepareCalled? { PrepareKeepsInv(s, outcome); }
    case StartMarkEffect(outcome) => if s.admission.MarkCalled? { MarkEffectKeepsInv(s, outcome); }
    case StartLaunch(inputOpen) => LaunchKeepsInv(s, inputOpen);
    case RunAct(outcome) =>
      if s.slot.Some? && s.slot.value.section.ForRun? {
        ActForRunKeepsInv(s, s.slot.value, s.slot.value.section.seen, outcome);
      }
    case CancelAct(outcome) =>
      if s.slot.Some? && s.slot.value.section.ForCancel? {
        ActForCancelKeepsInv(s, s.slot.value, s.slot.value.section.intent, s.slot.value.section.seen, outcome);
      }
    case BeginSet => BeginSetKeepsInv(s);
    case CancelUnstarted(attempt, seen, outcome) =>
      if s.serving && seen.phase.Prepared? {
        ForeignWriteKeepsInv(s, seen, SettleAs(s, seen, Cancelled, UserCancelled, None), outcome);
      }
    case AcknowledgeTerminal(attempt, revision, digest, at, outcome) =>
      AcknowledgeKeepsInv(s, attempt, revision, digest, at, outcome);
    case Crash => CrashKeepsInv(s, e);
    case PowerLoss(_) => CrashKeepsInv(s, e);
    case Recover(_) => CrashKeepsInv(s, e);
    case Classify(attempt, outcome) => ClassifyKeepsInv(s, attempt, outcome);
    case CompactOne(attempt, outcome) => CompactKeepsInv(s, attempt, outcome);
    case Open => OpenKeepsInv(s);
    case LoginReturns(_) => SessionStepsKeepInv(s, e);
    case RunEnter(readable) =>
      if s.slot.Some? {
        EnterKeepsInv(s, s.slot.value, Free, readable);
        EnterKeepsInv(s, s.slot.value, ForRun(s.files[s.slot.value.attempt]), readable);
      }
    case StorageReturns(_) => SessionStepsKeepInv(s, e);
    case CancelEnter(intent, readable) =>
      if s.slot.Some? {
        EnterKeepsInv(s, s.slot.value, Free, readable);
        EnterKeepsInv(s, s.slot.value, ForCancel(intent, s.files[s.slot.value.attempt]), readable);
      }
    case _ => StartStepsKeepInv(s, e);
  }

  lemma {:induction false} RunKeepsInv(s: State, events: seq<Event>)
    requires Inv(s)
    ensures Inv(Run(s, events))
    decreases |events|
  {
    hide Inv, Step;
    if events != [] {
      StepKeepsInv(s, events[0]);
      RunKeepsInv(Step(s, events[0]), events[1..]);
    }
  }

  // ---- Main results, over every run of the daemon ----

  lemma InitInv(clock: Time)
    ensures Inv(Init(clock))
  {}

  /** Cancel and commit: as long as every admission reads the clock after the
      horizon, each attempt's credentials are handed to storage at most once, and
      once they were, the attempt never stands as cancelled, expired, shut down or
      discarded, whatever is cancelled, closed, crashed or restarted, and
      whichever write a power loss undoes. */
  lemma CancelCommitSafety(clock: Time, events: seq<Event>, a: Attempt)
    ensures var s := Run(Init(clock), events); s.steady ==>
            && (forall i, j :: 0 <= i < j < |s.sets| ==> s.sets[i] != s.sets[j])
            && (a in s.sets && a in s.files ==> PastDispatch(s.files[a]))
            && (a in s.sets && s.fallback.Some? && a in s.fallback.value ==> PastDispatch(s.fallback.value[a]))
            && (a in s.sets && a in s.files && s.files[a].terminal.Some? ==>
                  s.files[a].terminal.value.resolution in
                    {PersistenceConfirmed, PersistenceFailed, ConfiguredObserved, NotConfiguredObserved})
  {
    InitInv(clock);
    RunKeepsInv(Init(clock), events);
    var s := Run(Init(clock), events);
    assert a in s.sets && a in s.files ==> Coherent(s.files[a]);
  }

  /** Storage is called only by the one step that starts from a durable intent:
      every content the journal could be found with says `persistence_dispatching`. */
  lemma SetFollowsDurableIntent(clock: Time, events: seq<Event>, e: Event)
    ensures var s := Run(Init(clock), events);
            Step(s, e).sets != s.sets ==>
              && s.slot.Some? && Step(s, e).sets == s.sets + [s.slot.value.attempt]
              && s.slot.value.attempt in s.files && s.files[s.slot.value.attempt].phase.PersistenceDispatching?
              && (s.fallback.Some? ==> s.slot.value.attempt in s.fallback.value &&
                                       s.fallback.value[s.slot.value.attempt].phase.PersistenceDispatching?)
  {
    InitInv(clock);
    RunKeepsInv(Init(clock), events);
    InvParts(Run(Init(clock), events));
    EffectsOfStep(Run(Init(clock), events), e);
    hide Inv, CoreInv, AdmissionOk, Run, Step;
  }

  /** One login ever: in every run at most one record is unresolved, and while a
      login is outstanding its record is that one; and as long as every admission
      reads the clock after the horizon, each attempt digest gets at most one
      provider.login, across all restarts and compactions. */
  lemma OneLoginEver(clock: Time, events: seq<Event>)
    ensures var s := Run(Init(clock), events);
            && (s.steady ==> forall i, j :: 0 <= i < j < |s.logins| ==> s.logins[i].attempt != s.logins[j].attempt)
            && AtMostOneBarrier(s.files)
            && (s.slot.Some? && s.slot.value.pc.LoggingIn? ==>
                  var a := s.slot.value.attempt;
                  && a in s.files && (s.files[a].phase.LoginDispatching? || s.files[a].phase.Cancelling?)
                  && (forall b :: b in s.files && b != a ==> !IsBarrier(s.files[b])))
  {
    InitInv(clock);
    RunKeepsInv(Init(clock), events);
  }

  /** The provider is called only by the one step that starts from a durable
      `login_dispatching` record, on an open broker. */
  lemma LoginFollowsDurableIntent(clock: Time, events: seq<Event>, e: Event)
    ensures var s := Run(Init(clock), events);
            Step(s, e).logins != s.logins ==>
              && s.admission.MarkedUnresumed? && !s.closed
              && Step(s, e).logins == s.logins + [Login(s.admission.record.attempt, s.admission.generation)]
              && var a := s.admission.record.attempt;
                 && a in s.files && s.files[a] == s.admission.record && s.files[a].phase.LoginDispatching?
                 && (s.fallback.Some? ==> a in s.fallback.value && s.fallback.value[a] == s.admission.record)
  {
    InitInv(clock);
    RunKeepsInv(Init(clock), events);
    InvParts(Run(Init(clock), events));
    EffectsOfStep(Run(Init(clock), events), e);
    hide Inv, CoreInv, SlotOk, Run, Step;
  }

  /** The steps at which everything volatile is lost. */
  predicate EndsProcess(e: Event) {
    e.Crash? || e.PowerLoss?
  }

  /** A status read is answered: there is no such attempt. */
  predicate AnsweredAbsent(s: State, a: Attempt) {
    s.serving && s.admission.Idle? && !s.closed && !s.storeFailed && a !in s.files
  }

  /** The generation fence: once a connection of generation `g` was told that an
      attempt is absent, no start from an older connection calls the provider for
      the rest of that process. */
  lemma FenceHolds(s: State, a: Attempt, g: int, events: seq<Event>)
    requires AnsweredAbsent(s, a)
    requires forall k :: 0 <= k < |events| ==> !EndsProcess(events[k])
    ensures var t := Run(Step(s, StatusRead(a, Some(g), true)), events);
            && s.logins <= t.logins
            && forall k :: |s.logins| <= k < |t.logins| ==>
                 t.logins[k].generation.None? || t.logins[k].generation.value >= g
  {
    FenceStays(Step(s, StatusRead(a, Some(g), true)), g, events);
  }

  lemma {:induction false} FenceStays(s: State, g: int, events: seq<Event>)
    requires s.fence.Some? && s.fence.value >= g
    requires forall k :: 0 <= k < |events| ==> !EndsProcess(events[k])
    ensures var t := Run(s, events);
            && s.logins <= t.logins && t.fence.Some? && t.fence.value >= g
            && forall k :: |s.logins| <= k < |t.logins| ==>
                 t.logins[k].generation.None? || t.logins[k].generation.value >= g
    decreases |events|
  {
    if events != [] {
      EffectsOfStep(s, events[0]);
      hide Step;
      FenceStays(Step(s, events[0]), g, events[1..]);
    }
  }

  /** Which steps call the provider or storage, or move the fence. */
  lemma EffectsOfStep(s: State, e: Event)
    ensures var t := Step(s, e);
            && (t.sets != s.sets ==>
                  s.slot.Some? && s.slot.value.pc.Dispatching? && t.sets == s.sets + [s.slot.value.attempt])
            && (t.logins != s.logins ==>
                  && s.admission.MarkedUnresumed? && !s.closed && e.StartLaunch?
                  && AdmissionHolds(s, s.admission.generation, e.inputOpen)
                  && t.logins == s.logins + [Login(s.admission.record.attempt, s.admission.generation)])
            && (!EndsProcess(e) && s.fence.Some? ==> t.fence.Some? && t.fence.value >= s.fence.value)
            && (!EndsProcess(e) && t.fence != s.fence ==>
                  e.StatusRead? && e.inputOpen && t.fence == e.generation && AnsweredAbsent(s, e.attempt))
  {
    hide Write, AfterCall, ActForRun, ActForCancel, EnterForRun, EnterForCancel, LookupForStart, PrepareForStart;
    hide Replaced, AttemptAcknowledged, Eligible, Classified, OwnRecordReadable, ClassifyRestart, Later, AfterHorizon;
    if e.StartLaunch? || e.BeginSet? || EndsProcess(e) {
      hide Stamp, SettleAs;
    } else {
      QuietStep(s, e);
      hide Step;
    }
  }

  /** No other step calls the provider or storage, and only a status read moves the fence. */
  lemma QuietStep(s: State, e: Event)
    requires !(e.StartLaunch? || e.BeginSet? || EndsProcess(e))
    ensures var t := Step(s, e);
            && t.sets == s.sets && t.logins == s.logins && (s.fence.Some? ==> t.fence.Some? && t.fence.value >= s.fence.value)
            && (t.fence != s.fence ==> e.StatusRead? && e.inputOpen && t.fence == e.generation && AnsweredAbsent(s, e.attempt))
  {
    hide Write, AfterCall, ActForRun, ActForCancel, EnterForRun, EnterForCancel, LookupForStart, PrepareForStart;
    hide Replaced, AttemptAcknowledged, Eligible, Classified, OwnRecordReadable, ClassifyRestart, Restarted, Later, AfterHorizon;
    hide Stamp, SettleAs, NeedsSection, Launched;
  }
}
