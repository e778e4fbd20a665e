/** How far the wall clock may be set back before an attempt can be started again.

    A record is compacted at the reading of a restart, and a start is admitted at
    a later reading. Both results about effects hold as long as every admission
    follows the horizon; here is why no weaker condition on the readings will do. */
module OAuthClocks {
  import opened Outcomes
  import opened OAuthRecords
  import opened OAuthAttemptStores
  import opened OAuthBrokers
  import opened OAuthBrokerSafety

  /** The step admits a start, at the clock reading of `s`. */
  predicate Admits(s: State, e: Event) {
    e.StartBegin? && Step(s, e).admission != s.admission
  }

  /** The step deletes a record, by the clock reading of the last recovery. */
  predicate Compacts(s: State, e: Event) {
    e.CompactOne? && Step(s, e).files != s.files
  }

  /** Restarts that compact read the clock no later than `latest`, and admissions
      after such a restart read it no earlier than `earliest`. */
  predicate Within(s: State, events: seq<Event>, latest: Time, earliest: Time)
    decreases |events|
  {
    events == [] ||
    (&& (Compacts(s, events[0]) ==> s.bootAt <= latest)
     && (Admits(s, events[0]) && s.horizon.Some? ==> s.clock >= earliest)
     && Within(Step(s, events[0]), events[1..], latest, earliest))
  }

  /** No attempt was logged in twice, and none had its credentials stored twice. */
  predicate EffectsOnce(s: State) {
    Distinct(s.logins, s.sets)
  }

  predicate Apart(latest: Time, earliest: Time) {
    earliest > latest - (RETENTION_MS - MAX_AGE_MS)
  }

  // ---- Far enough apart, every admission follows the horizon ----

  predicate HorizonBy(s: State, latest: Time) {
    s.steady && (s.horizon.Some? ==> s.horizon.value <= latest)
  }

  lemma StepStaysSteady(s: State, e: Event, latest: Time, earliest: Time)
    requires Apart(latest, earliest) && HorizonBy(s, latest)
    requires (Compacts(s, e) ==> s.bootAt <= latest) && (Admits(s, e) && s.horizon.Some? ==> s.clock >= earliest)
    ensures HorizonBy(Step(s, e), latest)
  {
    hide Write, AfterCall, ActForRun, ActForCancel, EnterForRun, EnterForCancel, LookupForStart, PrepareForStart;
    if e.StartBegin? || e.CompactOne? {
      hide Eligible, Classified;
    } else {
      ReadingsKept(s, e);
      hide Step;
    }
  }

  /** Only an admission and a compaction leave a trace of the clock. */
  lemma ReadingsKept(s: State, e: Event)
    requires !e.StartBegin? && !e.CompactOne?
    ensures Step(s, e).steady == s.steady && Step(s, e).horizon == s.horizon
  {
    hide Write, AfterCall, ActForRun, ActForCancel, EnterForRun, EnterForCancel, LookupForStart, PrepareForStart;
    hide AttemptAcknowledged, Classified, ClassifyRestart, Stamp, SettleAs, AdmissionHolds, NeedsSection, Launched, Restarted;
  }

  lemma {:induction false} RunStaysSteady(s: State, events: seq<Event>, latest: Time, earliest: Time)
    requires Apart(latest, earliest) && HorizonBy(s, latest) && Within(s, events, latest, earliest)
    ensures HorizonBy(Run(s, events), latest)
    decreases |events|
  {
    if events != [] {
      StepStaysSteady(s, events[0], latest, earliest);
      hide Step, Compacts, Admits;
      RunStaysSteady(Step(s, events[0]), events[1..], latest, earliest);
    }
  }

  // ---- Otherwise one attempt runs twice ----

  lemma {:induction false} RunConcat(s: State, first: seq<Event>, second: seq<Event>)
    ensures Run(s, first + second) == Run(Run(s, first), second)
    decreases |first|
  {
    hide Step;
    if first == [] {
      assert first + second == second;
    } else {
      assert (first + second)[1..] == first[1..] + second;
      RunConcat(Step(s, first[0]), first[1..], second);
    }
  }

  /** What one admitted attempt goes through until its credentials are stored. */
  datatype Round = Round(attempt: Attempt, authorityId: string, sessionId: string)

  function Admit(r: Round): seq<Event> {
    [StartBegin(r.attempt, r.authorityId, None, true), StartLookup(true, true, r.sessionId, 1, true), StartPrepare(Committed)]
  }

  const DISPATCH := [StartMark(true), StartMarkEffect(Committed), StartLaunch(true)]
  const CREDENTIALS := [LoginReturns(Credentials), RunEnter(true), RunAct(Committed)]
  const PERSIST := [RunEnter(true), RunAct(Committed), BeginSet]
  const CONFIRM := [StorageReturns(Confirmed), RunEnter(true), RunAct(Committed)]

  lemma RunThree(s: State, events: seq<Event>)
    requires |events| == 3
    ensures Run(s, events) == Step(Step(Step(s, events[0]), events[1]), events[2])
  {
    hide Step;
    assert Run(s, events) == Run(Step(s, events[0]), events[1..]);
    assert Run(Step(s, events[0]), events[1..]) == Run(Step(Step(s, events[0]), events[1]), events[1..][1..]);
    assert events[1..][1..] == [events[2]];
  }

  /** The record of a round admitted at `c`, in a phase it reaches at `c`. */
  function RecordOf(r: Round, c: Time, phase: Phase, revision: nat): Record {
    Record(r.attempt, revision, r.sessionId, r.authorityId, phase, r.attempt.requestedAt,
           if phase.Prepared? then r.attempt.requestedAt else c, c + 1, None, None, None, None)
  }

  function SessionOf(r: Round, c: Time, pc: RunPc, section: Section, observed: Record): Session {
    Session(r.attempt, r.sessionId, c + 1, pc, section, false, observed)
  }

  /** Nothing is going on, and no attempt is on record. */
  predicate Vacant(s: State) {
    && s.serving && !s.closed && !s.storeFailed && s.fallback.None? && s.files == map[]
    && s.fence.None? && s.admission.Idle? && s.slot.None?
  }

  predicate Admissible(s: State, r: Round) {
    Vacant(s) && r.attempt.requestedAt <= s.clock <= r.attempt.requestedAt + MAX_AGE_MS
  }

  function WithRecord(s: State, r: Record, slot: Option<Session>): State {
    s.(files := map[r.attempt := r], slot := slot)
  }

  lemma FirstIsAdmitted(r: Round, c: Time)
    requires r.attempt.requestedAt <= c <= r.attempt.requestedAt + MAX_AGE_MS
    ensures var p := RecordOf(r, c, Prepared, 0);
            && p.attempt == r.attempt
            && Admitted(map[], PrepareInput(r.attempt, r.sessionId, r.authorityId, c, c + 1), Committed) ==
               (map[r.attempt := p], Ok((p, true)))
  {}

  lemma AdmitRuns(s: State, r: Round)
    requires Admissible(s, r)
    ensures var p := RecordOf(r, s.clock, Prepared, 0);
            Run(s, Admit(r)) ==
              WithRecord(s, p, None).(admission := PreparedUnresumed(p, None), steady := s.steady && AfterHorizon(s.clock, s.horizon))
  {
    hide Write, ActForRun, ActForCancel, EnterForRun, EnterForCancel, Run, Launched, Restarted, Admitted, RecordOf;
    RunThree(s, Admit(r));
    var c := s.clock;
    var s1 := s.(admission := Begun(r.attempt, r.authorityId, c, None), steady := s.steady && AfterHorizon(c, s.horizon));
    assert Step(s, Admit(r)[0]) == s1;
    var i := PrepareInput(r.attempt, r.sessionId, r.authorityId, c, c + 1);
    var s2 := s1.(admission := PrepareCalled(i, None));
    assert Step(s1, Admit(r)[1]) == s2;
    FirstIsAdmitted(r, c);
  }

  /** A committed write of the only record there is. */
  lemma OnlyWrite(s: State, prev: Record, m: Move, next: Record)
    requires !s.storeFailed && s.fallback.None? && s.files == map[prev.attempt := prev]
    requires Coherent(prev) && Allowed(prev, m) && next == Candidate(prev, m)
    ensures Write(s, prev, m, Committed) == (s.(files := map[prev.attempt := next]), Some(next))
  {
    hide Coherent, Allowed, Candidate;
    assert map[prev.attempt := prev][prev.attempt := next] == map[prev.attempt := next];
  }

  lemma DispatchRuns(s: State, r: Round)
    requires Admissible(s, r)
    ensures var p, d := RecordOf(r, s.clock, Prepared, 0), RecordOf(r, s.clock, LoginDispatching, 1);
            Run(WithRecord(s, p, None).(admission := PreparedUnresumed(p, None)), DISPATCH) ==
              WithRecord(s, d, Some(SessionOf(r, s.clock, LoggingIn, Free, d))).(logins := s.logins + [Login(r.attempt, None)])
  {
    var p, d := RecordOf(r, s.clock, Prepared, 0), RecordOf(r, s.clock, LoginDispatching, 1);
    var s0 := WithRecord(s, p, None).(admission := PreparedUnresumed(p, None));
    hide ActForRun, ActForCancel, EnterForRun, EnterForCancel, LookupForStart, PrepareForStart, Restarted, Run;
    RunThree(s0, DISPATCH);
    var s1 := s0.(admission := MarkCalled(p, s.clock, None));
    assert Step(s0, DISPATCH[0]) == s1;
    OnlyWrite(s1, p, MarkLoginDispatching(s.clock), d);
    hide Write;
    assert Step(s1, DISPATCH[1]) == WithRecord(s, d, None).(admission := MarkedUnresumed(d, None));
  }

  function Running(s: State, r: Round, pc: RunPc, rec: Record): State {
    WithRecord(s, rec, Some(SessionOf(r, s.clock, pc, Free, rec)))
  }

  function Acting(s: State, r: Round, pc: RunPc, rec: Record): State {
    WithRecord(s, rec, Some(SessionOf(r, s.clock, pc, ForRun(rec), rec)))
  }

  /** The run takes its transition section and writes. */
  lemma SectionRuns(s: State, r: Round, pc: RunPc, rec: Record)
    requires Vacant(s) && NeedsSection(pc) && rec.attempt == r.attempt && rec.sessionId == r.sessionId
    ensures Step(Running(s, r, pc, rec), RunEnter(true)) == Acting(s, r, pc, rec)
    ensures Step(Acting(s, r, pc, rec), RunAct(Committed)) ==
            ActForRun(Acting(s, r, pc, rec), SessionOf(r, s.clock, pc, ForRun(rec), rec), rec, Committed)
  {
    hide ActForRun, NeedsSection;
  }

  lemma CredentialsAct(s: State, r: Round)
    requires Admissible(s, r)
    ensures var d, c := RecordOf(r, s.clock, LoginDispatching, 1), RecordOf(r, s.clock, CredentialsReady, 2);
            var pc := LoginEnded(Credentials);
            ActForRun(Acting(s, r, pc, d), SessionOf(r, s.clock, pc, ForRun(d), d), d, Committed) == Running(s, r, AwaitingPersistence, c)
  {
    var d, c := RecordOf(r, s.clock, LoginDispatching, 1), RecordOf(r, s.clock, CredentialsReady, 2);
    OnlyWrite(Acting(s, r, LoginEnded(Credentials), d), d, MarkCredentialsReady(s.clock), c);
    hide Write;
  }

  lemma PersistAct(s: State, r: Round)
    requires Admissible(s, r)
    ensures var c, d := RecordOf(r, s.clock, CredentialsReady, 2), RecordOf(r, s.clock, PersistenceDispatching, 3);
            var pc := AwaitingPersistence;
            ActForRun(Acting(s, r, pc, c), SessionOf(r, s.clock, pc, ForRun(c), c), c, Committed) == Running(s, r, Dispatching, d)
  {
    var c, d := RecordOf(r, s.clock, CredentialsReady, 2), RecordOf(r, s.clock, PersistenceDispatching, 3);
    OnlyWrite(Acting(s, r, AwaitingPersistence, c), c, MarkPersistenceDispatching(s.clock), d);
    hide Write;
  }

  function TerminalOf(r: Round, c: Time): Terminal {
    Terminal(r.attempt, Completed, PersistenceConfirmed, Some(true), c)
  }

  function CompletedRecord(r: Round, c: Time): Record {
    RecordOf(r, c, Completed, 4).(terminal := Some(TerminalOf(r, c)))
  }

  lemma ConfirmAct(s: State, r: Round)
    requires Admissible(s, r)
    ensures var d := RecordOf(r, s.clock, PersistenceDispatching, 3);
            var pc := StorageEnded(Confirmed);
            ActForRun(Acting(s, r, pc, d), SessionOf(r, s.clock, pc, ForRun(d), d), d, Committed) ==
              WithRecord(s, CompletedRecord(r, s.clock), None)
  {
    var d := RecordOf(r, s.clock, PersistenceDispatching, 3);
    OnlyWrite(Acting(s, r, StorageEnded(Confirmed), d), d, Settle(TerminalOf(r, s.clock)), CompletedRecord(r, s.clock));
    hide Write, Step, HandleError, CancellationMove, Allowed, Coherent, Candidate;
  }

  lemma SmallSteps(s: State, r: Round, d: Record, p: Record)
    ensures Step(Running(s, r, LoggingIn, d), LoginReturns(Credentials)) == Running(s, r, LoginEnded(Credentials), d)
    ensures Step(Running(s, r, Dispatching, p), BeginSet) == Running(s.(sets := s.sets + [r.attempt]), r, Storing, p)
    ensures Step(Running(s, r, Storing, p), StorageReturns(Confirmed)) == Running(s, r, StorageEnded(Confirmed), p)
  {}

  lemma CredentialsRun(s: State, r: Round, d: Record, c: Record)
    requires Admissible(s, r) && d == RecordOf(r, s.clock, LoginDispatching, 1) && c == RecordOf(r, s.clock, CredentialsReady, 2)
    ensures Run(Running(s, r, LoggingIn, d), CREDENTIALS) == Running(s, r, AwaitingPersistence, c)
  {
    CredentialsAct(s, r);
    SectionRuns(s, r, LoginEnded(Credentials), d);
    SmallSteps(s, r, d, d);
    hide Step, ActForRun, Running, Acting, RecordOf, SessionOf;
    RunThree(Running(s, r, LoggingIn, d), CREDENTIALS);
  }

  lemma PersistRun(s: State, r: Round, c: Record, d: Record)
    requires Admissible(s, r) && c == RecordOf(r, s.clock, CredentialsReady, 2)
    requires d == RecordOf(r, s.clock, PersistenceDispatching, 3)
    ensures Run(Running(s, r, AwaitingPersistence, c), PERSIST) == Running(s.(sets := s.sets + [r.attempt]), r, Storing, d)
  {
    PersistAct(s, r);
    SectionRuns(s, r, AwaitingPersistence, c);
    SmallSteps(s, r, c, d);
    hide Step, ActForRun, Running, Acting, RecordOf, SessionOf;
    RunThree(Running(s, r, AwaitingPersistence, c), PERSIST);
  }

  lemma ConfirmRun(s: State, r: Round, d: Record)
    requires Admissible(s, r) && d == RecordOf(r, s.clock, PersistenceDispatching, 3)
    ensures Run(Running(s, r, Storing, d), CONFIRM) == WithRecord(s, CompletedRecord(r, s.clock), None)
  {
    ConfirmAct(s, r);
    SectionRuns(s, r, StorageEnded(Confirmed), d);
    SmallSteps(s, r, d, d);
    hide Step, ActForRun, Running, Acting, RecordOf, SessionOf, WithRecord, CompletedRecord;
    RunThree(Running(s, r, Storing, d), CONFIRM);
  }

  /** The whole round: one login, one storage call, and a completed record. */
  function Events(r: Round): seq<Event> {
    Admit(r) + (DISPATCH + (CREDENTIALS + (PERSIST + CONFIRM)))
  }

  function After(s: State, r: Round): State {
    WithRecord(s, CompletedRecord(r, s.clock), None).(
      logins := s.logins + [Login(r.attempt, None)], sets := s.sets + [r.attempt],
      steady := s.steady && AfterHorizon(s.clock, s.horizon))
  }

  lemma RoundRuns(s: State, r: Round)
    requires Admissible(s, r)
    ensures Run(s, Events(r)) == After(s, r)
  {
    var p, d := RecordOf(r, s.clock, Prepared, 0), RecordOf(r, s.clock, LoginDispatching, 1);
    var c, w := RecordOf(r, s.clock, CredentialsReady, 2), RecordOf(r, s.clock, PersistenceDispatching, 3);
    var s1 := s.(steady := s.steady && AfterHorizon(s.clock, s.horizon));
    var s2 := s1.(logins := s.logins + [Login(r.attempt, None)]);
    AdmitRuns(s, r);
    DispatchRuns(s1, r);
    CredentialsRun(s2, r, d, c);
    PersistRun(s2, r, c, w);
    ConfirmRun(s2.(sets := s2.sets + [r.attempt]), r, w);
    RunConcat(s, Admit(r), DISPATCH + (CREDENTIALS + (PERSIST + CONFIRM)));
    var t := WithRecord(s1, p, None).(admission := PreparedUnresumed(p, None));
    RunConcat(t, DISPATCH, CREDENTIALS + (PERSIST + CONFIRM));
    assert WithRecord(s1, d, Some(SessionOf(r, s.clock, LoggingIn, Free, d))).(logins := s.logins + [Login(r.attempt, None)])
           == Running(s2, r, LoggingIn, d);
    hide Run, RecordOf;
    RunConcat(Running(s2, r, LoggingIn, d), CREDENTIALS, PERSIST + CONFIRM);
    RunConcat(Running(s2, r, AwaitingPersistence, c), PERSIST, CONFIRM);
  }

  /** The journal of a new daemon is opened. */
  const OPENING := [Recover(true), Open]

  /** The completed record is acknowledged, and the host restarts at `latest`. */
  function Retire(r: Round, c: Time, latest: Time): seq<Event> {
    [AcknowledgeTerminal(r.attempt, 4, TerminalOf(r, c), c, Committed), Tick(latest - c)] + [Crash, Recover(true)]
  }

  /** The restart compacts the record; then the clock is set back to `earliest`. */
  function Sweep(r: Round, latest: Time, earliest: Time): seq<Event> {
    [CompactOne(r.attempt, Committed), Open, Tick(earliest - latest)]
  }

  function AcknowledgedRecord(r: Round, c: Time): Record {
    CompletedRecord(r, c).(revision := 5, acknowledgedAt := Some(c))
  }

  function Swept(s: State, latest: Time): State {
    s.(clock := latest, bootAt := latest, serving := false, files := map[])
  }

  lemma RunTwo(s: State, events: seq<Event>)
    requires |events| == 2
    ensures Run(s, events) == Step(Step(s, events[0]), events[1])
  {
    hide Step;
    assert Run(s, events) == Run(Step(s, events[0]), events[1..]);
    assert events[1..] == [events[1]];
  }

  lemma OpeningRuns(clock: Time)
    ensures var s := Run(Init(clock), OPENING);
            Vacant(s) && s == Init(clock).(storeFailed := false, serving := true)
  {
    RunTwo(Init(clock), OPENING);
  }

  lemma AcknowledgementRuns(s: State, r: Round)
    requires Admissible(s, r)
    ensures var done, acked := CompletedRecord(r, s.clock), AcknowledgedRecord(r, s.clock);
            AttemptAcknowledged(map[r.attempt := done], r.attempt, 4, TerminalOf(r, s.clock), s.clock, Committed) ==
              (map[r.attempt := acked], Ok(acked))
  {
    var done, acked := CompletedRecord(r, s.clock), AcknowledgedRecord(r, s.clock);
    assert map[r.attempt := done][r.attempt := acked] == map[r.attempt := acked];
  }

  lemma AcknowledgeSteps(s: State, r: Round)
    requires Admissible(s, r)
    ensures Step(WithRecord(s, CompletedRecord(r, s.clock), None),
                 AcknowledgeTerminal(r.attempt, 4, TerminalOf(r, s.clock), s.clock, Committed))
            == WithRecord(s, AcknowledgedRecord(r, s.clock), None)
  {
    AcknowledgementRuns(s, r);
    AcknowledgementNames(r, s.clock);
    hide Write, ActForRun, ActForCancel, EnterForRun, EnterForCancel, LookupForStart, PrepareForStart, Launched;
    hide AttemptAcknowledged, CompletedRecord, AcknowledgedRecord, RecordOf, Run, Restarted;
  }

  lemma RestartSteps(s: State, acked: Record, latest: Time)
    requires Vacant(s)
    ensures var s1 := WithRecord(s, acked, None);
            && Step(s1, Tick(latest - s.clock)) == s1.(clock := latest)
            && Step(Step(s1.(clock := latest), Crash), Recover(true)) == WithRecord(Swept(s, latest), acked, None)
  {
    hide Write, ActForRun, ActForCancel, EnterForRun, EnterForCancel, LookupForStart, PrepareForStart, Launched, Run;
  }

  lemma RetireRuns(s: State, r: Round, latest: Time)
    requires Admissible(s, r) && s.clock <= latest
    ensures Run(WithRecord(s, CompletedRecord(r, s.clock), None), Retire(r, s.clock, latest)) ==
              WithRecord(Swept(s, latest), AcknowledgedRecord(r, s.clock), None)
  {
    AcknowledgeSteps(s, r);
    RestartSteps(s, AcknowledgedRecord(r, s.clock), latest);
    hide Step, Run, CompletedRecord, AcknowledgedRecord, WithRecord;
    var s0 := WithRecord(s, CompletedRecord(r, s.clock), None);
    var s1 := WithRecord(s, AcknowledgedRecord(r, s.clock), None);
    var ack := AcknowledgeTerminal(r.attempt, 4, TerminalOf(r, s.clock), s.clock, Committed);
    RunTwo(s0, [ack, Tick(latest - s.clock)]);
    RunTwo(s1.(clock := latest), [Crash, Recover(true)]);
    RunConcat(s0, [ack, Tick(latest - s.clock)], [Crash, Recover(true)]);
  }

  lemma AcknowledgementNames(r: Round, c: Time)
    ensures CompletedRecord(r, c).attempt == r.attempt && AcknowledgedRecord(r, c).attempt == r.attempt
  {}

  lemma SweepRuns(s: State, r: Round, latest: Time, earliest: Time)
    requires Admissible(s, r) && s.clock + RETENTION_MS <= latest
    ensures Run(WithRecord(Swept(s, latest), AcknowledgedRecord(r, s.clock), None), Sweep(r, latest, earliest)) ==
              s.(clock := earliest, bootAt := latest, horizon := Later(s.horizon, latest))
  {
    hide Write, AfterCall, ActForRun, ActForCancel, EnterForRun, EnterForCancel, LookupForStart, PrepareForStart, Run;
    hide Restarted, Launched, AttemptAcknowledged, ClassifyRestart, Coherent;
    var s0 := WithRecord(Swept(s, latest), AcknowledgedRecord(r, s.clock), None);
    RunThree(s0, Sweep(r, latest, earliest));
    assert s0.files - {r.attempt} == map[];
    assert Eligible(AcknowledgedRecord(r, s.clock), latest);
    assert Step(s0, Sweep(r, latest, earliest)[0]) == Swept(s, latest).(horizon := Later(s.horizon, latest));
  }

  // ---- That run stays within its readings ----

  predicate Quiet(events: seq<Event>) {
    forall e :: e in events ==> !e.StartBegin? && !e.CompactOne?
  }

  lemma {:induction false} QuietIsWithin(s: State, events: seq<Event>, latest: Time, earliest: Time)
    requires Quiet(events)
    ensures Within(s, events, latest, earliest)
    decreases |events|
  {
    hide Step;
    if events != [] {
      assert events[0] in events && forall e :: e in events[1..] ==> e in events;
      QuietIsWithin(Step(s, events[0]), events[1..], latest, earliest);
    }
  }

  lemma {:induction false} WithinConcat(s: State, first: seq<Event>, second: seq<Event>, latest: Time, earliest: Time)
    requires Within(s, first, latest, earliest) && Within(Run(s, first), second, latest, earliest)
    ensures Within(s, first + second, latest, earliest)
    decreases |first|
  {
    hide Step, Compacts, Admits;
    if first == [] {
      assert first + second == second;
    } else {
      assert (first + second)[1..] == first[1..] + second;
      WithinConcat(Step(s, first[0]), first[1..], second, latest, earliest);
    }
  }

  lemma RoundIsWithin(s: State, r: Round, latest: Time, earliest: Time)
    requires s.horizon.Some? ==> s.clock >= earliest
    ensures Within(s, Events(r), latest, earliest)
  {
    hide Step;
    var rest := Events(r)[1..];
    assert Quiet(rest);
    QuietIsWithin(Step(s, Events(r)[0]), rest, latest, earliest);
  }

  lemma SweepIsWithin(s: State, r: Round, latest: Time, earliest: Time)
    requires s.bootAt == latest
    ensures Within(s, Sweep(r, latest, earliest), latest, earliest)
  {
    hide Step;
    QuietIsWithin(Step(s, Sweep(r, latest, earliest)[0]), Sweep(r, latest, earliest)[1..], latest, earliest);
  }

  function TwiceAt(r: Round, again: Round, c: Time, latest: Time, earliest: Time): seq<Event> {
    OPENING + (Events(r) + (Retire(r, c, latest) + (Sweep(r, latest, earliest) + Events(again))))
  }

  /** One attempt, requested five minutes before `earliest`, logged in and stored in two sessions. */
  lemma TwiceRuns(r: Round, again: Round, latest: Time, earliest: Time)
    requires !Apart(latest, earliest) && r.attempt.requestedAt == earliest - MAX_AGE_MS
    requires again.attempt == r.attempt && again.sessionId != r.sessionId
    ensures var c := r.attempt.requestedAt;
            var s := Run(Init(c), TwiceAt(r, again, c, latest, earliest));
            && Within(Init(c), TwiceAt(r, again, c, latest, earliest), latest, earliest)
            && s.logins == [Login(r.attempt, None), Login(r.attempt, None)] && s.sets == [r.attempt, r.attempt]
  {
    var c := r.attempt.requestedAt;
    var s0 := Run(Init(c), OPENING);
    OpeningRuns(c);
    var s1 := s0.(logins := [Login(r.attempt, None)], sets := [r.attempt]);
    var done := WithRecord(s1, CompletedRecord(r, c), None);
    assert After(s0, r) == done;
    var acked := WithRecord(Swept(s1, latest), AcknowledgedRecord(r, c), None);
    var s2 := s1.(clock := earliest, bootAt := latest, horizon := Some(latest));
    RoundRuns(s0, r);
    RetireRuns(s1, r, latest);
    SweepRuns(s1, r, latest, earliest);
    RoundRuns(s2, again);
    hide Step, Run, Events, Retire, Sweep, Within;
    var fourth := Sweep(r, latest, earliest) + Events(again);
    var third := Retire(r, c, latest) + fourth;
    RunConcat(Init(c), OPENING, Events(r) + third);
    RunConcat(s0, Events(r), third);
    RunConcat(done, Retire(r, c, latest), fourth);
    RunConcat(acked, Sweep(r, latest, earliest), Events(again));
    TwiceIsWithin(r, again, s0, done, acked, s2, latest, earliest);
  }

  lemma TwiceIsWithin(r: Round, again: Round, s0: State, done: State, acked: State, s2: State, latest: Time, earliest: Time)
    requires var c := r.attempt.requestedAt;
             && s0 == Run(Init(c), OPENING) && done == Run(s0, Events(r)) && acked == Run(done, Retire(r, c, latest))
             && s2 == Run(acked, Sweep(r, latest, earliest))
             && s0.horizon.None? && acked.bootAt == latest && s2.clock == earliest
    ensures Within(Init(r.attempt.requestedAt), TwiceAt(r, again, r.attempt.requestedAt, latest, earliest), latest, earliest)
  {
    var c := r.attempt.requestedAt;
    QuietIsWithin(Init(c), OPENING, latest, earliest);
    RoundIsWithin(s0, r, latest, earliest);
    QuietIsWithin(done, Retire(r, c, latest), latest, earliest);
    SweepIsWithin(acked, r, latest, earliest);
    RoundIsWithin(s2, again, latest, earliest);
    hide Step, Run, Events, Retire, Sweep, Within;
    var fourth := Sweep(r, latest, earliest) + Events(again);
    var third := Retire(r, c, latest) + fourth;
    WithinConcat(acked, Sweep(r, latest, earliest), Events(again), latest, earliest);
    WithinConcat(done, Retire(r, c, latest), fourth, latest, earliest);
    WithinConcat(s0, Events(r), third, latest, earliest);
    WithinConcat(Init(c), OPENING, Events(r) + third, latest, earliest);
  }

  /** The exact condition on the wall clock: runs that compact no later than `latest`
      and afterwards admit no earlier than `earliest` log in and store each attempt
      at most once if and only if the readings are that far apart. */
  lemma ClockConditionIsExact(latest: Time, earliest: Time)
    ensures (forall clock, events :: Within(Init(clock), events, latest, earliest) ==> EffectsOnce(Run(Init(clock), events)))
            <==> earliest > latest - (RETENTION_MS - MAX_AGE_MS)
  {
    if Apart(latest, earliest) {
      forall clock, events | Within(Init(clock), events, latest, earliest) ensures EffectsOnce(Run(Init(clock), events)) {
        RunStaysSteady(Init(clock), events, latest, earliest);
        OneLoginEver(clock, events);
        CancelCommitSafety(clock, events, Attempt("", "", 0));
      }
    } else {
      var r := Round(Attempt("", "", earliest - MAX_AGE_MS), "", "");
      var again := r.(sessionId := "again");
      TwiceRuns(r, again, latest, earliest);
      var c := r.attempt.requestedAt;
      var s := Run(Init(c), TwiceAt(r, again, c, latest, earliest));
      assert s.logins[0].attempt == s.logins[1].attempt;
      assert !EffectsOnce(s);
    }
  }
}
