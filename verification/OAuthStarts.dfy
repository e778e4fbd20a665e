/** Starts and journal calls of the OAuth broker, step by step: what is admitted, what
    reaches the provider, what a failed journal still does, and how a restart opens. */
module OAuthStarts {
  import opened Outcomes
  import opened OAuthRecords
  import opened OAuthAttemptStores
  import opened OAuthBrokers
  import opened OAuthBrokerSafety
  import opened OAuthSections

  /** The caller's connection, if the start came over one, is open and no younger one was told of an absence. */
  predicate Timely(s: State, generation: Option<int>, inputOpen: bool) {
    generation.Some? ==> inputOpen && (s.fence.Some? ==> generation.value >= s.fence.value)
  }

  /** Nothing stands in the way of starting this attempt now. */
  ghost predicate Startable(s: State, a: Attempt, sessionId: string, ttl: nat) {
    && s.serving && !s.closed && !s.storeFailed && s.admission.Idle? && s.slot.None? && |s.files| < MAX_FILES
    && a !in s.files && (forall b :: b in s.files ==> !IsBarrier(s.files[b]) && b.operationId != a.operationId && s.files[b].sessionId != sessionId)
    && a.requestedAt - MAX_FUTURE_SKEW_MS <= s.clock <= a.requestedAt + MAX_AGE_MS && ttl > 0
  }

  function StartRun(a: Attempt, authorityId: string, sessionId: string, ttl: nat, generation: Option<int>): seq<Event> {
    [StartBegin(a, authorityId, generation, true)] + ([StartLookup(true, true, sessionId, ttl, true)] + ([StartPrepare(Committed)]
    + ([StartMark(true)] + ([StartMarkEffect(Committed)] + ([StartLaunch(true)] + [])))))
  }

  /** The records a start writes: lives `ttl` from its admission, or from its request if the clock is behind that. */
  function StartedRecord(a: Attempt, authorityId: string, sessionId: string, ttl: nat, clock: Time): Record {
    var origin := if clock < a.requestedAt then a.requestedAt else clock;
    Record(a, 1, sessionId, authorityId, LoginDispatching, a.requestedAt, origin, origin + ttl, None, None, None, None)
  }

  function PreparedRecord(a: Attempt, authorityId: string, sessionId: string, ttl: nat, clock: Time): Record {
    StartedRecord(a, authorityId, sessionId, ttl, clock).(revision := 0, phase := Prepared, updatedAt := a.requestedAt)
  }

  lemma StartAdmits(s: State, a: Attempt, authorityId: string, sessionId: string, ttl: nat, generation: Option<int>)
    requires Startable(s, a, sessionId, ttl) && Timely(s, generation, true)
    ensures var i := PrepareInput(a, sessionId, authorityId, s.clock, StartedRecord(a, authorityId, sessionId, ttl, s.clock).expiresAt);
            var b := s.(admission := Begun(a, authorityId, s.clock, generation), steady := s.steady && AfterHorizon(s.clock, s.horizon));
            && Step(s, StartBegin(a, authorityId, generation, true)) == b
            && Step(b, StartLookup(true, true, sessionId, ttl, true)) == b.(admission := PrepareCalled(i, generation))
            && PrepareInputValid(i) && OAuthRecords.Prepare(i) == PreparedRecord(a, authorityId, sessionId, ttl, s.clock)
  {
    hide AfterHorizon;
  }

  lemma StartPrepares(s: State, i: PrepareInput, generation: Option<int>)
    requires !s.storeFailed && s.admission == PrepareCalled(i, generation) && PrepareInputValid(i) && i.attempt !in s.files && |s.files| < MAX_FILES
    requires forall b :: b in s.files ==> !IsBarrier(s.files[b]) && b.operationId != i.attempt.operationId && s.files[b].sessionId != i.sessionId
    ensures Step(s, StartPrepare(Committed))
         == s.(files := s.files[i.attempt := OAuthRecords.Prepare(i)], admission := PreparedUnresumed(OAuthRecords.Prepare(i), generation))
  {
    hide OAuthRecords.Prepare, IsBarrier, SamePrepareInput;
    assert Admitted(s.files, i, Committed) == (s.files[i.attempt := OAuthRecords.Prepare(i)], Ok((OAuthRecords.Prepare(i), true)));
    hide Admitted;
  }

  lemma StartMarks(s: State, r: Record, generation: Option<int>)
    requires !s.closed && !s.storeFailed && s.admission == PreparedUnresumed(r, generation) && Timely(s, generation, true)
    requires r.attempt in s.files && s.files[r.attempt] == r && Coherent(r) && r.phase.Prepared?
    ensures var m := MarkLoginDispatching(if s.clock < r.updatedAt then r.updatedAt else s.clock);
            var called := s.(admission := MarkCalled(r, m.at, generation));
            && Step(s, StartMark(true)) == called
            && Step(called, StartMarkEffect(Committed))
               == s.(files := s.files[r.attempt := Candidate(r, m)], admission := MarkedUnresumed(Candidate(r, m), generation))
  {
    var m := MarkLoginDispatching(if s.clock < r.updatedAt then r.updatedAt else s.clock);
    CommittedWrite(s.(admission := MarkCalled(r, m.at, generation)), r, m);
    hide Write, Coherent, Candidate;
  }

  lemma StartLaunches(s: State, r: Record, generation: Option<int>)
    requires !s.closed && s.admission == MarkedUnresumed(r, generation) && Timely(s, generation, true)
    ensures Step(s, StartLaunch(true)) == Launched(s, r, generation)
  {}

  lemma StepThen(s: State, e: Event, t: State, rest: seq<Event>)
    requires Step(s, e) == t
    ensures Run(s, [e] + rest) == Run(t, rest)
  {
    hide Step;
    assert ([e] + rest)[1..] == rest;
  }

  /** An undisturbed start of a fresh attempt on a healthy journal without a barrier calls
      the provider once, for a record that says so and lives for the granted time. */
  lemma StartReachesProvider(s: State, a: Attempt, authorityId: string, sessionId: string, ttl: nat, generation: Option<int>)
    requires Startable(s, a, sessionId, ttl) && Timely(s, generation, true)
    ensures var r, t := StartedRecord(a, authorityId, sessionId, ttl, s.clock), Run(s, StartRun(a, authorityId, sessionId, ttl, generation));
            && t.files == s.files[a := r] && t.logins == s.logins + [Login(a, generation)] && t.sets == s.sets && t.admission.Idle?
            && t.slot == Some(Session(a, sessionId, r.expiresAt, LoggingIn, Free, false, r))
  {
    var prepared := PreparedRecord(a, authorityId, sessionId, ttl, s.clock);
    var r := StartedRecord(a, authorityId, sessionId, ttl, s.clock);
    var i := PrepareInput(a, sessionId, authorityId, s.clock, r.expiresAt);
    var m := MarkLoginDispatching(r.updatedAt);
    StartAdmits(s, a, authorityId, sessionId, ttl, generation);
    PreparedThenStarted(a, authorityId, sessionId, ttl, s.clock);
    hide Run, Step, Coherent, Candidate, Launched, IsBarrier, PrepareInputValid, OAuthRecords.Prepare, AfterHorizon, SameEffects, StartRun;
    var begun := s.(admission := Begun(a, authorityId, s.clock, generation), steady := s.steady && AfterHorizon(s.clock, s.horizon));
    var called := begun.(admission := PrepareCalled(i, generation));
    var made := begun.(files := s.files[a := prepared], admission := PreparedUnresumed(prepared, generation));
    var marking := made.(admission := MarkCalled(prepared, r.updatedAt, generation));
    var marked := made.(files := made.files[a := r], admission := MarkedUnresumed(r, generation));
    StartPrepares(called, i, generation);
    StartMarks(made, prepared, generation);
    StartLaunches(marked, r, generation);
    StartRunIs(s, begun, called, made, marking, marked, a, authorityId, sessionId, ttl, generation, Launched(marked, r, generation));
    assert made.files[a := r] == s.files[a := r];
    LaunchIs(marked, r, generation);
  }

  lemma PreparedThenStarted(a: Attempt, authorityId: string, sessionId: string, ttl: nat, clock: Time)
    requires ttl > 0
    ensures var prepared, r := PreparedRecord(a, authorityId, sessionId, ttl, clock), StartedRecord(a, authorityId, sessionId, ttl, clock);
            Coherent(prepared) && Candidate(prepared, MarkLoginDispatching(r.updatedAt)) == r
  {}

  lemma LaunchIs(s: State, r: Record, generation: Option<int>)
    ensures var t := Launched(s, r, generation);
            && t.files == s.files && t.logins == s.logins + [Login(r.attempt, generation)] && t.sets == s.sets && t.admission.Idle?
            && t.slot == Some(Session(r.attempt, r.sessionId, r.expiresAt, LoggingIn, Free, false, r))
  {}

  lemma StartRunIs(s: State, begun: State, called: State, made: State, marking: State, marked: State,
                   a: Attempt, authorityId: string, sessionId: string, ttl: nat, generation: Option<int>, t: State)
    requires Step(s, StartBegin(a, authorityId, generation, true)) == begun
    requires Step(begun, StartLookup(true, true, sessionId, ttl, true)) == called && Step(called, StartPrepare(Committed)) == made
    requires Step(made, StartMark(true)) == marking && Step(marking, StartMarkEffect(Committed)) == marked
    requires Step(marked, StartLaunch(true)) == t
    ensures Run(s, StartRun(a, authorityId, sessionId, ttl, generation)) == t
  {
    hide Step;
    StepThen(marked, StartLaunch(true), t, []);
    StepThen(marking, StartMarkEffect(Committed), marked, [StartLaunch(true)] + []);
    StepThen(made, StartMark(true), marking, [StartMarkEffect(Committed)] + ([StartLaunch(true)] + []));
    StepThen(called, StartPrepare(Committed), made, [StartMark(true)] + ([StartMarkEffect(Committed)] + ([StartLaunch(true)] + [])));
    StepThen(begun, StartLookup(true, true, sessionId, ttl, true), called,
             [StartPrepare(Committed)] + ([StartMark(true)] + ([StartMarkEffect(Committed)] + ([StartLaunch(true)] + []))));
    StepThen(s, StartBegin(a, authorityId, generation, true), begun,
             [StartLookup(true, true, sessionId, ttl, true)] + ([StartPrepare(Committed)] + ([StartMark(true)]
             + ([StartMarkEffect(Committed)] + ([StartLaunch(true)] + [])))));
  }

  // ---- What a start needs at each of its steps ----

  /** A start is begun exactly on an open, serving broker with no other one in progress, from
      a connection that is not fenced off; it goes on exactly while that still holds, and
      only with a readable journal without this attempt, no session, and its provider. */
  lemma StartGoesOnExactly(s: State, e: Event)
    ensures s.admission.Idle? ==>
              (Step(s, e).admission.Begun? <==> e.StartBegin? && s.serving && !s.closed && Timely(s, e.generation, e.inputOpen))
    ensures s.admission.Begun? && e.StartLookup? ==>
              (Step(s, e).admission.PrepareCalled? <==>
                && e.readable && e.providerFound && !s.storeFailed && !s.closed && Timely(s, s.admission.generation, e.inputOpen)
                && s.admission.attempt !in s.files && s.slot.None?)
    ensures s.admission.PreparedUnresumed? && e.StartMark? ==>
              (Step(s, e).admission.MarkCalled? <==> !s.closed && Timely(s, s.admission.generation, e.inputOpen))
    ensures s.admission.MarkedUnresumed? && e.StartLaunch? ==>
              (Step(s, e).logins != s.logins <==> !s.closed && Timely(s, s.admission.generation, e.inputOpen))
  {
    hide Write, AfterCall, ActForRun, ActForCancel, EnterForRun, EnterForCancel, Restarted, Classified, Eligible, Stamp, ClassifyRestart, AttemptAcknowledged;
    if s.admission.Idle? {
      if !e.StartBegin? { IdleStays(s, e); hide Step; }
    } else {
      hide AfterHorizon;
    }
  }

  lemma IdleStays(s: State, e: Event)
    requires s.admission.Idle? && !e.StartBegin?
    ensures Step(s, e).admission.Idle?
  {
    hide Replaced, Classified, Eligible, Stamp, ClassifyRestart, AttemptAcknowledged, SettleAs, OwnRecordReadable, ErrorMove, CancellationMove, CancelMove;
    if e.RunAct? || e.CancelAct? { ActsKeepAdmission(s, e); hide Step; }
  }

  lemma ActsKeepAdmission(s: State, e: Event)
    requires e.RunAct? || e.CancelAct?
    ensures SameModes(s, Step(s, e))
  {
    hide Write, Stamp, SettleAs, ErrorMove, CancellationMove, CancelMove, SameEffects, ActForRun;
    if e.RunAct? && s.slot.Some? && s.slot.value.section.ForRun? { ActKeepsModes(s, s.slot.value, s.slot.value.section.seen, e.outcome); }
    if e.CancelAct? && s.slot.Some? && s.slot.value.section.ForCancel? {
      var m := CancelMove(s, s.slot.value.section.intent, s.slot.value.section.seen);
      if m.Some? { WriteKeepsModes(s, s.slot.value.section.seen, m.value, e.outcome); }
    }
  }

  /** The run's sections change neither the start in progress nor what the broker serves,
      and write nothing over a failed journal. */
  predicate SameModes(s: State, t: State) {
    t.admission == s.admission && t.closed == s.closed && t.serving == s.serving
    && (s.storeFailed ==> t.files == s.files && t.storeFailed)
  }

  lemma WriteKeepsModes(s: State, prev: Record, m: Move, outcome: WriteOutcome)
    ensures SameModes(s, Write(s, prev, m, outcome).0)
  {
    hide Replaced;
  }

  lemma RunWriteKeepsModes(s: State, ses: Session, prev: Record, m: Move, outcome: WriteOutcome, pc: RunPc, retain: bool)
    ensures SameModes(s, RunWrite(s, ses, prev, m, outcome, pc, retain))
  {
    WriteKeepsModes(s, prev, m, outcome);
    hide Write, SameEffects;
  }

  lemma HandlingKeepsModes(s: State, ses: Session, seen: Record, helper: bool, outcome: WriteOutcome)
    ensures SameModes(s, HandleError(s, ses, seen, helper, outcome))
  {
    hide RunWrite, ErrorMove, SameEffects;
    var m := ErrorMove(s, seen, helper);
    if m.Some? { RunWriteKeepsModes(s, ses, seen, m.value, outcome, RunDone, helper); }
  }

  lemma EndingKeepsModes(s: State, ses: Session)
    ensures SameModes(s, EndRun(s, ses)) && SameModes(s, EndRetained(s, ses))
  {}

  lemma LoginActKeepsModes(s: State, ses: Session, seen: Record, outcome: WriteOutcome)
    requires ses.pc.LoginEnded? || ses.pc.ExpiringLogin?
    ensures SameModes(s, ActForRun(s, ses, seen, outcome))
  {
    hide RunWrite, HandleError, CancellationMove, EndRun, EndRetained, SameEffects, Stamp, SettleAs, TerminalPhase, SameModes;
    EndingKeepsModes(s, ses);
    HandlingKeepsModes(s, ses, seen, false, outcome);
    HandlingKeepsModes(s, ses, seen, true, outcome);
    var m := CancellationMove(s, seen);
    if m.Some? { RunWriteKeepsModes(s, ses, seen, m.value, outcome, RunDone, false); }
    RunWriteKeepsModes(s, ses, seen, MarkCancelling(ByExpiry, Stamp(s, seen)), outcome, ExpiringLogin, false);
    RunWriteKeepsModes(s, ses, seen, MarkCredentialsReady(Stamp(s, seen)), outcome, AwaitingPersistence, false);
  }

  lemma StorageActKeepsModes(s: State, ses: Session, seen: Record, outcome: WriteOutcome)
    requires !ses.pc.LoginEnded? && !ses.pc.ExpiringLogin?
    ensures SameModes(s, ActForRun(s, ses, seen, outcome))
  {
    assert SameModes(s, s);
    hide RunWrite, HandleError, CancellationMove, EndRun, EndRetained, SameEffects, Stamp, SettleAs, TerminalPhase, SameModes;
    EndingKeepsModes(s, ses);
    HandlingKeepsModes(s, ses, seen, false, outcome);
    HandlingKeepsModes(s, ses, seen, true, outcome);
    RunWriteKeepsModes(s, ses, seen, MarkPersistenceDispatching(Stamp(s, seen)), outcome, Dispatching, false);
    RunWriteKeepsModes(s, ses, seen, SettleAs(s, seen, Completed, PersistenceConfirmed, Some(true)), outcome, RunDone, false);
  }

  lemma ActKeepsModes(s: State, ses: Session, seen: Record, outcome: WriteOutcome)
    ensures SameModes(s, ActForRun(s, ses, seen, outcome))
  {
    hide ActForRun, SameModes;
    if ses.pc.LoginEnded? || ses.pc.ExpiringLogin? { LoginActKeepsModes(s, ses, seen, outcome); }
    else { StorageActKeepsModes(s, ses, seen, outcome); }
  }

  // ---- Admission by the journal ----

  /** A new attempt is created exactly when it is timely, no record shares its operation or
      session, none bars, and there is room; an attempt already on record is confirmed exactly
      when session, authority and expiry are the same; and nothing else is accepted. */
  lemma AdmittedExactly(files: Files, i: PrepareInput, outcome: WriteOutcome)
    ensures var (after, r) := Admitted(files, i, outcome);
            var inTime := && i.attempt.requestedAt < i.expiresAt && i.observedAt < i.expiresAt
                          && i.observedAt <= i.attempt.requestedAt + MAX_AGE_MS && i.attempt.requestedAt <= i.observedAt + MAX_FUTURE_SKEW_MS;
            var fits := && i.attempt !in files && |files| < MAX_FILES
                        && forall a :: a in files ==>
                             a.operationId != i.attempt.operationId && files[a].sessionId != i.sessionId && TerminalPhase(files[a].phase);
            && (after != files <==> inTime && fits && !outcome.NotWritten?)
            && (after != files ==> after == files[i.attempt := OAuthRecords.Prepare(i)])
            && (r.Ok? && r.value.1 <==> inTime && fits && outcome.Committed?)
            && (r.Ok? && r.value.1 ==> r.value.0 == OAuthRecords.Prepare(i))
            && (r.Ok? && !r.value.1 <==>
                  && outcome.Committed? && i.attempt.requestedAt < i.expiresAt && i.observedAt < i.expiresAt && i.attempt in files
                  && files[i.attempt].attempt == i.attempt && files[i.attempt].sessionId == i.sessionId
                  && files[i.attempt].authorityId == i.authorityId && files[i.attempt].expiresAt == i.expiresAt)
            && (r.Ok? && !r.value.1 ==> r.value.0 == files[i.attempt])
  {
    hide OAuthRecords.Prepare;
  }

  // ---- A journal that failed ----

  /** A write goes through exactly when its move is allowed on the record it replaces, or was
      made already, and is confirmed; the journal counts as failed from then on exactly when
      the move is not allowed, the record is gone, or the write is not confirmed. */
  lemma WritesExactly(s: State, prev: Record, m: Move, outcome: WriteOutcome)
    ensures var (t, written) := Write(s, prev, m, outcome);
            var allowed := Coherent(prev) && Allowed(prev, m);
            var current := allowed && prev.attempt in s.files && (s.files[prev.attempt] == prev || s.files[prev.attempt] == Candidate(prev, m));
            && (s.storeFailed ==> t == s && written.None?)
            && (!s.storeFailed ==>
                  && (written.Some? <==> current && outcome.Committed?)
                  && (t.storeFailed <==> !allowed || prev.attempt !in s.files || (current && !outcome.Committed?)))
  {
    hide Coherent, Allowed, Candidate;
  }

  /** Until the process ends, a failed journal is never written again. */
  lemma {:induction false} FailedJournalIsShut(s: State, events: seq<Event>)
    requires s.serving && s.storeFailed && forall k :: 0 <= k < |events| ==> !EndsProcess(events[k])
    ensures var t := Run(s, events); t.files == s.files && t.serving && t.storeFailed
    decreases |events|
  {
    hide Step;
    if events != [] {
      ShutStep(s, events[0]);
      FailedJournalIsShut(Step(s, events[0]), events[1..]);
    }
  }

  lemma ShutStep(s: State, e: Event)
    requires s.serving && s.storeFailed && !EndsProcess(e)
    ensures var t := Step(s, e); t.files == s.files && t.serving && t.storeFailed
  {
    hide Replaced, AttemptAcknowledged, Admitted, Classified, Eligible, ClassifyRestart, SameEffects, Stamp, SettleAs, ErrorMove, CancellationMove, CancelMove;
    hide AdmissionHolds, AfterHorizon, OwnRecordReadable;
    if e.RunAct? || e.CancelAct? { ActsKeepAdmission(s, e); hide Step; }
  }

  /** Once the broker is closed, no provider is called for the rest of that process. */
  lemma {:induction false} ClosedCallsNoProvider(s: State, events: seq<Event>)
    requires forall k :: 0 <= k < |events| ==> !EndsProcess(events[k])
    ensures var t := Run(Step(s, Close), events); t.closed && t.logins == s.logins
  {
    ClosedStays(Step(s, Close), events);
  }

  lemma {:induction false} ClosedStays(s: State, events: seq<Event>)
    requires s.closed && forall k :: 0 <= k < |events| ==> !EndsProcess(events[k])
    ensures var t := Run(s, events); t.closed && t.logins == s.logins
    decreases |events|
  {
    hide Step;
    if events != [] {
      EffectsOfStep(s, events[0]);
      StaysClosed(s, events[0]);
      ClosedStays(Step(s, events[0]), events[1..]);
    }
  }

  lemma StaysClosed(s: State, e: Event)
    requires s.closed && !EndsProcess(e)
    ensures Step(s, e).closed
  {
    hide Replaced, AttemptAcknowledged, Admitted, Classified, Eligible, ClassifyRestart, SameEffects, Stamp, SettleAs, ErrorMove, CancellationMove, CancelMove;
    hide AdmissionHolds, AfterHorizon, OwnRecordReadable;
    if e.RunAct? || e.CancelAct? { ActsKeepAdmission(s, e); hide Step; }
  }

  // ---- Opening ----

  /** A broker serves only once its journal was recovered without failure and every record
      is terminal or a barrier that says why; records are compacted only before that, and
      only once that holds. */
  lemma OpensClassified(s: State, e: Event)
    ensures !s.serving && Step(s, e).serving ==>
              && e.Open? && !s.storeFailed
              && forall a :: a in s.files ==> TerminalPhase(s.files[a].phase) || s.files[a].phase.RecoveryRequired?
    ensures e.CompactOne? && Step(s, e).files != s.files ==>
              && !s.serving && !s.storeFailed
              && forall a :: a in s.files ==> TerminalPhase(s.files[a].phase) || s.files[a].phase.RecoveryRequired?
  {
    hide Replaced, AttemptAcknowledged, Admitted, Eligible, ClassifyRestart, SameEffects, Stamp, SettleAs, ErrorMove, CancellationMove, CancelMove;
    hide AdmissionHolds, AfterHorizon, OwnRecordReadable, TerminalPhase;
    if e.RunAct? || e.CancelAct? { ActsKeepAdmission(s, e); hide Step; }
  }

  /** During recovery the classification of a record is written over it: only where no
      helper can be at work does it stop being a barrier. */
  lemma ClassifyWrites(s: State, a: Attempt)
    requires Inv(s) && !s.serving && !s.storeFailed && a in s.files
    ensures var t := Step(s, Classify(a, Committed));
            && a in t.files && t.files == s.files[a := t.files[a]]
            && (IsBarrier(t.files[a]) <==> HelperMayAct(s.files[a].phase))
            && (TerminalPhase(t.files[a].phase) || t.files[a].phase.RecoveryRequired?)
            && (TerminalPhase(s.files[a].phase) || s.files[a].phase.RecoveryRequired? ==> t.files[a] == s.files[a])
  {
    InvIsWellFormed(s);
    RestartIsLegalAndIdempotent(s.files[a], s.bootAt, s.bootAt);
    hide Inv;
    var r := s.files[a];
    assert s.files == s.files[a := r];
    if ClassifyRestart(r, s.bootAt) != r {
      GuardsSuffice(r, Restart(s.bootAt));
      CommittedWrite(s, r, Restart(s.bootAt));
    }
    hide Coherent, Write, Allowed, LegalTransition;
  }

  /** Cancelling an attempt that was prepared and never went further settles it. */
  lemma UnstartedIsCancelled(s: State, a: Attempt)
    requires Inv(s) && s.serving && !s.storeFailed && a in s.files && s.files[a].phase.Prepared?
    ensures var t := Step(s, CancelUnstarted(a, s.files[a], Committed));
            && a in t.files && t.files == s.files[a := t.files[a]]
            && Resolved(s.files[a], t.files[a], Cancelled, UserCancelled, s.clock)
  {
    InvIsWellFormed(s);
    hide Inv;
    var r := s.files[a];
    CommittedWrite(s, r, SettleAs(s, r, Cancelled, UserCancelled, None));
    hide Write, LegalTransition;
  }
}
