/** What the broker's sections do while the journal is healthy: each of the run's, and a
    cancellation's. */
module OAuthSections {
  import opened Outcomes
  import opened OAuthRecords
  import opened OAuthAttemptStores
  import opened OAuthBrokers
  import opened OAuthBrokerSafety

  /** The session may enter its section, and its record can be read. */
  predicate MayEnter(s: State) {
    && s.slot.Some? && s.slot.value.section.Free? && OwnRecordReadable(s, s.slot.value, true)
  }

  function Enacted(s: State): State {
    Run(s, [RunEnter(true), RunAct(Committed)])
  }

  lemma EnactedIs(s: State)
    requires MayEnter(s) && NeedsSection(s.slot.value.pc)
    ensures var ses := s.slot.value;
            var r := s.files[ses.attempt];
            var entered := ses.(section := ForRun(r), observed := r);
            Enacted(s) == ActForRun(s.(slot := Some(entered)), entered, r, Committed)
  {
    hide ActForRun;
    var t := Step(s, RunEnter(true));
    assert [RunEnter(true), RunAct(Committed)][1..] == [RunAct(Committed)];
    assert [RunAct(Committed)][1..] == [];
    assert Run(t, [RunAct(Committed)]) == Run(Step(t, RunAct(Committed)), []);
  }

  /** The record with this outcome, reached at this reading. */
  predicate Resolved(r: Record, n: Record, phase: Phase, resolution: Resolution, clock: Time) {
    && n.terminal.Some? && n.phase == phase && n.terminal.value.resolution == resolution
    && n.terminal.value.at == (if clock < r.updatedAt then r.updatedAt else clock) == n.updatedAt
    && n.attempt == r.attempt && n.revision == r.revision + 1
  }

  /** The one record of this attempt changed, and its session released the provider, or is done but retained. */
  predicate Released(s: State, t: State) {
    s.slot.Some? && (var a := s.slot.value.attempt;
    && a in s.files && a in t.files && t.files == s.files[a := t.files[a]]
    && (t.slot.None? <==> !s.slot.value.retained) && (t.slot.Some? ==> t.slot.value.pc.RunDone?))
  }

  predicate CancelOutcome(r: Record, n: Record, clock: Time) {
    && r.cancelIntent.Some?
    && (r.cancelIntent == Some(ByUser) ==> Resolved(r, n, Cancelled, UserCancelled, clock))
    && (r.cancelIntent == Some(ByExpiry) ==> Resolved(r, n, Failed, AttemptExpired, clock))
    && (r.cancelIntent == Some(ByShutdown) ==> Resolved(r, n, Failed, HostShutdown, clock))
  }

  lemma CommittedWrite(s: State, prev: Record, m: Move)
    requires !s.storeFailed && prev.attempt in s.files && s.files[prev.attempt] == prev && Coherent(prev) && Allowed(prev, m)
    ensures Write(s, prev, m, Committed) == (s.(files := s.files[prev.attempt := Candidate(prev, m)]), Some(Candidate(prev, m)))
  {}

  lemma CancellationIsAllowed(s: State, r: Record)
    requires Coherent(r) && r.phase.Cancelling?
    ensures var m := CancellationMove(s, r);
            m.Some? && Allowed(r, m.value) && CancelOutcome(r, Candidate(r, m.value), s.clock) && TerminalPhase(Candidate(r, m.value).phase)
  {}

  /** The run's own section, when its write goes through. */
  lemma CommittedRunWrite(s: State, ses: Session, prev: Record, m: Move, pc: RunPc, retain: bool)
    requires !s.storeFailed && prev.attempt in s.files && s.files[prev.attempt] == prev && Coherent(prev) && Allowed(prev, m)
    requires pc.RunDone? ==> TerminalPhase(Candidate(prev, m).phase) || retain
    ensures var t := RunWrite(s, ses, prev, m, Committed, pc, retain);
            && t.files == s.files[prev.attempt := Candidate(prev, m)]
            && (pc.RunDone? ==> (t.slot.None? <==> !ses.retained && !retain) && (t.slot.Some? ==> t.slot.value.pc.RunDone? && t.slot.value.retained))
            && (!pc.RunDone? ==> t.slot.Some? && t.slot.value.pc == pc && (pc.ExpiringLogin? <==> t.slot.value.section.ForRun?))
  {
    hide Write, Coherent, Allowed, Candidate, SameEffects;
    CommittedWrite(s, prev, m);
  }

  /** The session after it has read its own record. */
  function Entered(s: State, r: Record): State
    requires s.slot.Some?
  {
    s.(slot := Some(s.slot.value.(section := ForRun(r), observed := r)))
  }

  lemma CancellingConcludes(s: State, r: Record)
    requires MayEnter(s) && Coherent(r) && r.attempt == s.slot.value.attempt && s.files[r.attempt] == r && r.phase.Cancelling?
    requires s.slot.value.pc == LoginEnded(LoginRejected) || s.slot.value.pc == LoginEnded(Credentials)
    ensures var u := Entered(s, r);
            var t := ActForRun(u, u.slot.value, r, Committed);
            r.attempt in t.files && CancelOutcome(r, t.files[r.attempt], s.clock) && Released(s, t)
  {
    hide RunWrite, SameEffects, Coherent, Candidate, Allowed, CancelOutcome, CancellationMove, OwnRecordReadable;
    var u := Entered(s, r);
    CancellationIsAllowed(u, r);
    Readable(s);
    CommittedRunWrite(u, u.slot.value, r, CancellationMove(u, r).value, RunDone, false);
  }

  lemma Readable(s: State)
    requires MayEnter(s)
    ensures !s.storeFailed && s.slot.value.attempt in s.files
  {}

  lemma RejectionConcludes(s: State, r: Record)
    requires MayEnter(s) && Coherent(r) && r.attempt == s.slot.value.attempt && s.files[r.attempt] == r
    requires (s.slot.value.pc == LoginEnded(LoginRejected) && r.phase.LoginDispatching?)
          || (s.slot.value.pc == StorageEnded(Unconfirmed) && r.phase.PersistenceDispatching?)
    ensures var u := Entered(s, r);
            var t := ActForRun(u, u.slot.value, r, Committed);
            && r.attempt in t.files && Released(s, t)
            && Resolved(r, t.files[r.attempt], Failed, if r.phase.LoginDispatching? then ProviderLoginFailed else PersistenceFailed, s.clock)
  {
    var u := Entered(s, r);
    var m := SettleAs(u, r, Failed, if r.phase.LoginDispatching? then ProviderLoginFailed else PersistenceFailed, None);
    assert Allowed(r, m) && Resolved(r, Candidate(r, m), Failed, m.terminal.resolution, s.clock);
    hide RunWrite, SameEffects, Coherent, Candidate, Allowed, OwnRecordReadable, Resolved;
    Readable(s);
    CommittedRunWrite(u, u.slot.value, r, m, RunDone, false);
  }

  lemma CredentialsConclude(s: State, r: Record)
    requires MayEnter(s) && Coherent(r) && r.attempt == s.slot.value.attempt && s.files[r.attempt] == r
    requires s.slot.value.pc == LoginEnded(Credentials) && r.phase.LoginDispatching?
    ensures var u := Entered(s, r);
            var t := ActForRun(u, u.slot.value, r, Committed);
            && r.attempt in t.files && t.slot.Some?
            && if s.clock >= s.slot.value.expiresAt then
                 && t.files[r.attempt].phase.Cancelling? && t.files[r.attempt].cancelIntent == Some(ByExpiry)
                 && t.slot.value.pc.ExpiringLogin? && t.slot.value.section.ForRun?
               else t.files[r.attempt].phase.CredentialsReady? && t.slot.value.pc.AwaitingPersistence?
  {
    var u := Entered(s, r);
    hide RunWrite, SameEffects, Coherent, OwnRecordReadable;
    Readable(s);
    CommittedRunWrite(u, u.slot.value, r, MarkCancelling(ByExpiry, Stamp(u, r)), ExpiringLogin, false);
    CommittedRunWrite(u, u.slot.value, r, MarkCredentialsReady(Stamp(u, r)), AwaitingPersistence, false);
  }

  lemma ConfirmationConcludes(s: State, r: Record)
    requires MayEnter(s) && Coherent(r) && r.attempt == s.slot.value.attempt && s.files[r.attempt] == r
    requires s.slot.value.pc == StorageEnded(Confirmed) && r.phase.PersistenceDispatching?
    ensures var u := Entered(s, r);
            var t := ActForRun(u, u.slot.value, r, Committed);
            && r.attempt in t.files && Released(s, t)
            && Resolved(r, t.files[r.attempt], Completed, PersistenceConfirmed, s.clock)
            && t.files[r.attempt].terminal.value.configured == Some(true)
  {
    var u := Entered(s, r);
    var m := SettleAs(u, r, Completed, PersistenceConfirmed, Some(true));
    assert Allowed(r, m) && Resolved(r, Candidate(r, m), Completed, PersistenceConfirmed, s.clock) && Candidate(r, m).terminal == Some(m.terminal);
    hide RunWrite, SameEffects, Coherent, Candidate, Allowed, OwnRecordReadable, Resolved;
    Readable(s);
    CommittedRunWrite(u, u.slot.value, r, m, RunDone, false);
  }

  /** An unconfirmed helper leaves a record that bars, with the reason of where it stood. */
  lemma DoubtConcludes(s: State, r: Record)
    requires MayEnter(s) && Coherent(r) && r.attempt == s.slot.value.attempt && s.files[r.attempt] == r
    requires (s.slot.value.pc == LoginEnded(LoginHelperUnconfirmed) && (r.phase.LoginDispatching? || r.phase.Cancelling?))
          || (s.slot.value.pc == StorageEnded(StorageHelperUnconfirmed) && r.phase.PersistenceDispatching?)
    ensures var u := Entered(s, r);
            var t := ActForRun(u, u.slot.value, r, Committed);
            && r.attempt in t.files && t.files == s.files[r.attempt := t.files[r.attempt]] && InDoubtOver(r, t.files[r.attempt])
            && t.slot.Some? && t.slot.value.pc.RunDone? && t.slot.value.retained
  {
    var u := Entered(s, r);
    var m := ErrorMove(u, r, true);
    assert m.Some? && Allowed(r, m.value) && InDoubtOver(r, Candidate(r, m.value));
    hide RunWrite, SameEffects, Coherent, Candidate, Allowed, OwnRecordReadable, ErrorMove;
    Readable(s);
    CommittedRunWrite(u, u.slot.value, r, m.value, RunDone, true);
    hide InDoubtOver;
  }

  predicate InDoubtOver(r: Record, n: Record) {
    && n.phase.RecoveryRequired? && n.attempt == r.attempt && n.terminal.None?
    && n.recoveryReason == Some(match r.phase
                                case LoginDispatching => LoginLiveness
                                case Cancelling => CancellingLiveness
                                case _ => StorageLiveness)
  }

  lemma PersistingConcludes(s: State, r: Record)
    requires MayEnter(s) && Coherent(r) && r.attempt == s.slot.value.attempt && s.files[r.attempt] == r
    requires s.slot.value.pc.AwaitingPersistence? && (r.phase.CredentialsReady? || TerminalPhase(r.phase))
    ensures var u := Entered(s, r);
            var t := ActForRun(u, u.slot.value, r, Committed);
            && r.attempt in t.files
            && if r.phase.CredentialsReady? then
                 t.files[r.attempt].phase.PersistenceDispatching? && t.slot.Some? && t.slot.value.pc.Dispatching?
               else t.files == s.files && Released(s, t)
  {
    var u := Entered(s, r);
    hide RunWrite, SameEffects, Coherent, OwnRecordReadable;
    Readable(s);
    if r.phase.CredentialsReady? {
      CommittedRunWrite(u, u.slot.value, r, MarkPersistenceDispatching(Stamp(u, r)), Dispatching, false);
    } else {
      assert s.files == s.files[r.attempt := r];
    }
  }

  /** What the run's next section writes, in every run, when its record can be read and
      the write goes through. After the provider's call: its failure fails the attempt, a
      cancellation that came meanwhile takes effect, and credentials are kept unless the
      attempt expired. Then the intent to store them is written, if none cancelled. After
      the storage call: what storage said. A helper not known to be gone leaves a barrier
      and keeps the provider; every other end releases it unless something put it in doubt. */
  lemma SectionConcludes(clock: Time, events: seq<Event>)
    requires var s := Run(Init(clock), events); MayEnter(s) && NeedsSection(s.slot.value.pc)
    ensures var s := Run(Init(clock), events);
            var a, pc, t := s.slot.value.attempt, s.slot.value.pc, Enacted(s);
            && a in s.files && a in t.files
            && var r, n := s.files[a], t.files[a];
            && (pc == LoginEnded(LoginHelperUnconfirmed) || pc == StorageEnded(StorageHelperUnconfirmed) ==>
                  InDoubtOver(r, n) && t.slot.Some? && t.slot.value.pc.RunDone? && t.slot.value.retained)
            && (pc == LoginEnded(LoginRejected) ==>
                  && Released(s, t)
                  && if r.phase.Cancelling? then CancelOutcome(r, n, s.clock) else Resolved(r, n, Failed, ProviderLoginFailed, s.clock))
            && (pc == LoginEnded(Credentials) ==>
                  if r.phase.Cancelling? then CancelOutcome(r, n, s.clock) && Released(s, t)
                  else if s.clock >= s.slot.value.expiresAt then
                    n.phase.Cancelling? && n.cancelIntent == Some(ByExpiry) && t.slot.Some? && t.slot.value.pc.ExpiringLogin?
                  else n.phase.CredentialsReady? && t.slot.Some? && t.slot.value.pc.AwaitingPersistence?)
            && (pc.AwaitingPersistence? ==>
                  if r.phase.CredentialsReady? then n.phase.PersistenceDispatching? && t.slot.Some? && t.slot.value.pc.Dispatching?
                  else TerminalPhase(r.phase) && t.files == s.files && Released(s, t))
            && (pc == StorageEnded(Confirmed) ==> Resolved(r, n, Completed, PersistenceConfirmed, s.clock) && Released(s, t))
            && (pc == StorageEnded(Unconfirmed) ==> Resolved(r, n, Failed, PersistenceFailed, s.clock) && Released(s, t))
  {
    InitInv(clock);
    RunKeepsInv(Init(clock), events);
    var s := Run(Init(clock), events);
    hide Run, Inv;
    SlotInFiles(s);
    InvIsWellFormed(s);
    EnactedIs(s);
    var r := s.files[s.slot.value.attempt];
    hide ActForRun, Enacted, Coherent, Released, Resolved, CancelOutcome, InDoubtOver, OwnRecordReadable;
    match s.slot.value.pc
    case LoginEnded(LoginHelperUnconfirmed) => DoubtConcludes(s, r);
    case LoginEnded(LoginRejected) => if r.phase.Cancelling? { CancellingConcludes(s, r); } else { RejectionConcludes(s, r); }
    case LoginEnded(Credentials) => if r.phase.Cancelling? { CancellingConcludes(s, r); } else { CredentialsConclude(s, r); }
    case AwaitingPersistence => PersistingConcludes(s, r);
    case StorageEnded(Confirmed) => ConfirmationConcludes(s, r);
    case StorageEnded(Unconfirmed) => RejectionConcludes(s, r);
    case StorageEnded(StorageHelperUnconfirmed) => DoubtConcludes(s, r);
    case _ =>
  }

  /** What cancelling writes, in every run, when the record can be read and the write goes
      through: before the provider answered, the intent; with credentials in hand and
      not yet on their way, their disposal; and otherwise nothing. */
  lemma CancellingWrites(clock: Time, events: seq<Event>, intent: CancelIntent)
    requires MayEnter(Run(Init(clock), events)) && (intent.ByShutdown? ==> Run(Init(clock), events).closed)
    ensures var s := Run(Init(clock), events);
            var a, t := s.slot.value.attempt, Run(s, [CancelEnter(intent, true)] + ([CancelAct(Committed)] + []));
            && a in s.files && a in t.files && t.slot.Some? && t.slot.value.pc == s.slot.value.pc && t.slot.value.section.Free?
            && t.files == s.files[a := t.files[a]]
            && var r, n := s.files[a], t.files[a];
            && (r.phase.LoginDispatching? ==> n.phase.Cancelling? && n.cancelIntent == Some(intent) && n.revision == r.revision + 1)
            && (r.phase.CredentialsReady? ==> Resolved(r, n, Failed, CredentialsDiscarded, s.clock))
            && (!r.phase.LoginDispatching? && !r.phase.CredentialsReady? ==> n == r)
  {
    InitInv(clock);
    RunKeepsInv(Init(clock), events);
    var s := Run(Init(clock), events);
    SlotInFiles(s);
    InvIsWellFormed(s);
    hide Inv, Coherent, Resolved;
    CancellingRuns(s, intent);
    hide Run, ActForCancel, OwnRecordReadable;
    CancellingActs(s, intent, s.files[s.slot.value.attempt]);
  }

  lemma CancellingRuns(s: State, intent: CancelIntent)
    requires MayEnter(s) && (intent.ByShutdown? ==> s.closed)
    ensures var ses := s.slot.value;
            var r := s.files[ses.attempt];
            var entered := ses.(section := ForCancel(intent, r), observed := r);
            Run(s, [CancelEnter(intent, true)] + ([CancelAct(Committed)] + [])) == ActForCancel(s.(slot := Some(entered)), entered, intent, r, Committed)
  {
    hide ActForCancel, Step, SameEffects;
    var ses := s.slot.value;
    var r := s.files[ses.attempt];
    var entered := s.(slot := Some(ses.(section := ForCancel(intent, r), observed := r)));
    CancelSteps(s, intent);
    var rest := [CancelAct(Committed)] + [];
    assert ([CancelEnter(intent, true)] + rest)[1..] == rest;
    assert rest[1..] == [];
    assert Run(entered, rest) == Run(Step(entered, CancelAct(Committed)), []);
  }

  lemma CancelSteps(s: State, intent: CancelIntent)
    requires MayEnter(s) && (intent.ByShutdown? ==> s.closed)
    ensures var r := s.files[s.slot.value.attempt];
            var entered := s.slot.value.(section := ForCancel(intent, r), observed := r);
            && Step(s, CancelEnter(intent, true)) == s.(slot := Some(entered))
            && Step(s.(slot := Some(entered)), CancelAct(Committed)) == ActForCancel(s.(slot := Some(entered)), entered, intent, r, Committed)
  {
    hide ActForCancel, SameEffects;
  }

  lemma CancellingActs(s: State, intent: CancelIntent, r: Record)
    requires MayEnter(s) && Coherent(r) && r.attempt == s.slot.value.attempt && s.files[r.attempt] == r
    ensures var entered := s.slot.value.(section := ForCancel(intent, r), observed := r);
            var t := ActForCancel(s.(slot := Some(entered)), entered, intent, r, Committed);
            && t.slot.Some? && t.slot.value.pc == s.slot.value.pc && t.slot.value.section.Free?
            && r.attempt in t.files && t.files == s.files[r.attempt := t.files[r.attempt]]
            && var n := t.files[r.attempt];
            && (r.phase.LoginDispatching? ==> n.phase.Cancelling? && n.cancelIntent == Some(intent) && n.revision == r.revision + 1)
            && (r.phase.CredentialsReady? ==> Resolved(r, n, Failed, CredentialsDiscarded, s.clock))
            && (!r.phase.LoginDispatching? && !r.phase.CredentialsReady? ==> n == r)
  {
    var u := s.(slot := Some(s.slot.value.(section := ForCancel(intent, r), observed := r)));
    hide Write, SameEffects, OwnRecordReadable, Coherent, Candidate, Allowed, Resolved;
    Readable(s);
    CancelMoveIs(u, intent, r);
    if CancelMove(u, intent, r).Some? { CommittedWrite(u, r, CancelMove(u, intent, r).value); }
    assert s.files == s.files[r.attempt := r];
  }

  lemma CancelMoveIs(s: State, intent: CancelIntent, r: Record)
    requires Coherent(r)
    ensures var m := CancelMove(s, intent, r);
            && (m.Some? <==> r.phase.LoginDispatching? || r.phase.CredentialsReady?)
            && (m.Some? ==> Allowed(r, m.value))
            && (r.phase.LoginDispatching? ==>
                  var n := Candidate(r, m.value); n.phase.Cancelling? && n.cancelIntent == Some(intent) && n.revision == r.revision + 1)
            && (r.phase.CredentialsReady? ==> Resolved(r, Candidate(r, m.value), Failed, CredentialsDiscarded, s.clock))
  {}
}
