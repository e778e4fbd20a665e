/** The durable OAuth attempt record: its coherence rules, the moves the store
    can make on it, and the classification a restart applies.

    Digests are modelled by what they are digests of: an attempt is its own
    digest, a terminal body its own terminal digest (the hash is taken to be
    injective). Timestamps are integers in milliseconds. */
module OAuthRecords {
  import opened Outcomes

  type Time = int

  const RETENTION_MS: Time := 30 * 24 * 60 * 60 * 1_000
  const MAX_AGE_MS: Time := 5 * 60 * 1_000
  const MAX_FUTURE_SKEW_MS: Time := 30 * 1_000

  datatype Phase =
    | Prepared | LoginDispatching | CredentialsReady | PersistenceDispatching | Cancelling
    | RecoveryRequired | Completed | Cancelled | Failed | OutcomeUnknown

  datatype CancelIntent = ByUser | ByExpiry | ByShutdown

  datatype RecoveryReason = LoginLiveness | StorageLiveness | CancellingLiveness

  datatype Resolution =
    | PersistenceConfirmed | UserCancelled | InterruptedBeforeLogin | InterruptedDuringLogin
    | CredentialsDiscarded | ProviderLoginFailed | PersistenceFailed | AttemptExpired | HostShutdown
    | ConfiguredObserved | NotConfiguredObserved

  datatype Attempt = Attempt(hostId: string, operationId: string, requestedAt: Time)

  datatype Terminal = Terminal(
    attempt: Attempt, phase: Phase, resolution: Resolution, configured: Option<bool>, at: Time)

  datatype Record = Record(
    attempt: Attempt, revision: nat, sessionId: string, authorityId: string, phase: Phase,
    createdAt: Time, updatedAt: Time, expiresAt: Time,
    cancelIntent: Option<CancelIntent>, recoveryReason: Option<RecoveryReason>,
    terminal: Option<Terminal>, acknowledgedAt: Option<Time>)

  datatype PrepareInput = PrepareInput(
    attempt: Attempt, sessionId: string, authorityId: string, observedAt: Time, expiresAt: Time)

  predicate TerminalPhase(p: Phase) {
    p.Completed? || p.Cancelled? || p.Failed? || p.OutcomeUnknown?
  }

  predicate IsBarrier(r: Record) {
    !TerminalPhase(r.phase)
  }

  predicate IsTerminalRecord(r: Record) {
    TerminalPhase(r.phase) && r.terminal.Some?
  }

  /** The only phase, resolution and observation combinations a terminal body may carry. */
  predicate CoherentTerminal(t: Terminal) {
    match t.phase
    case Completed => t.resolution.PersistenceConfirmed? && t.configured == Some(true)
    case Cancelled => t.resolution.UserCancelled? && t.configured.None?
    case Failed =>
      t.configured.None? &&
      (t.resolution.InterruptedBeforeLogin? || t.resolution.InterruptedDuringLogin? ||
       t.resolution.CredentialsDiscarded? || t.resolution.ProviderLoginFailed? ||
       t.resolution.PersistenceFailed? || t.resolution.AttemptExpired? || t.resolution.HostShutdown?)
    case OutcomeUnknown =>
      (t.resolution.ConfiguredObserved? && t.configured == Some(true)) ||
      (t.resolution.NotConfiguredObserved? && t.configured == Some(false))
    case _ => false
  }

  /** The closed-form table of revisions at which a record can stand, before acknowledgement. */
  function BaseRevisions(r: Record): set<int> {
    if r.terminal.None? then
      match r.phase
      case Prepared => {0}
      case LoginDispatching => {1}
      case CredentialsReady => {2}
      case Cancelling => {2}
      case PersistenceDispatching => {3}
      case RecoveryRequired =>
        if r.recoveryReason == Some(LoginLiveness) then {2}
        else if r.recoveryReason == Some(CancellingLiveness) then {3} else {4}
      case _ => {}
    else
      match r.terminal.value.resolution
      case InterruptedBeforeLogin => {1}
      case ProviderLoginFailed => {2}
      case InterruptedDuringLogin => if r.recoveryReason == Some(LoginLiveness) then {3} else {2}
      case CredentialsDiscarded => {3}
      case PersistenceConfirmed => {4}
      case PersistenceFailed => {4}
      case ConfiguredObserved => {5}
      case NotConfiguredObserved => {5}
      case _ => if r.recoveryReason == Some(CancellingLiveness) then {4} else {1, 3}
  }

  predicate RevisionReachable(r: Record) {
    r.revision - (if r.acknowledgedAt.Some? then 1 else 0) in BaseRevisions(r)
  }

  predicate CancelProvenance(r: Record, intent: CancelIntent) {
    r.cancelIntent == Some(intent) &&
    (r.recoveryReason.None? || r.recoveryReason == Some(CancellingLiveness))
  }

  predicate TerminalProvenance(r: Record)
    requires r.terminal.Some?
  {
    match r.terminal.value.resolution
    case UserCancelled => CancelProvenance(r, ByUser)
    case AttemptExpired => CancelProvenance(r, ByExpiry)
    case HostShutdown => CancelProvenance(r, ByShutdown)
    case InterruptedDuringLogin =>
      r.cancelIntent.None? && (r.recoveryReason.None? || r.recoveryReason == Some(LoginLiveness))
    case ConfiguredObserved => r.cancelIntent.None? && r.recoveryReason == Some(StorageLiveness)
    case NotConfiguredObserved => r.cancelIntent.None? && r.recoveryReason == Some(StorageLiveness)
    case _ => r.cancelIntent.None? && r.recoveryReason.None?
  }

  predicate PhaseFieldsCoherent(r: Record) {
    match r.phase
    case Cancelling => r.cancelIntent.Some? && r.recoveryReason.None?
    case RecoveryRequired =>
      r.recoveryReason.Some? &&
      ((r.recoveryReason.value == CancellingLiveness) <==> r.cancelIntent.Some?)
    case _ => TerminalPhase(r.phase) || (r.cancelIntent.None? && r.recoveryReason.None?)
  }

  predicate TerminalTimesCoherent(r: Record)
    requires r.terminal.Some?
  {
    var t := r.terminal.value;
    && t.attempt == r.attempt && t.phase == r.phase
    && r.createdAt <= t.at <= r.updatedAt
    && (if r.acknowledgedAt.Some? then r.updatedAt == r.acknowledgedAt.value && t.at <= r.acknowledgedAt.value
        else r.updatedAt == t.at)
  }

  /** What parsing a stored record accepts. */
  predicate Coherent(r: Record) {
    && r.createdAt == r.attempt.requestedAt
    && r.createdAt <= r.updatedAt && r.createdAt < r.expiresAt
    && (TerminalPhase(r.phase) <==> r.terminal.Some?)
    && (r.acknowledgedAt.Some? ==> TerminalPhase(r.phase))
    && RevisionReachable(r)
    && PhaseFieldsCoherent(r)
    && (r.terminal.Some? ==>
          CoherentTerminal(r.terminal.value) && TerminalTimesCoherent(r) && TerminalProvenance(r))
  }

  /** The check every replacement of a durable record passes through. */
  predicate LegalTransition(p: Record, n: Record) {
    && p.attempt == n.attempt && p.sessionId == n.sessionId && p.authorityId == n.authorityId
    && p.createdAt == n.createdAt && p.expiresAt == n.expiresAt
    && n.revision == p.revision + 1 && p.updatedAt <= n.updatedAt
    && if IsTerminalRecord(p) then
         && n.phase == p.phase && n.terminal == p.terminal
         && n.cancelIntent == p.cancelIntent && n.recoveryReason == p.recoveryReason
         && p.acknowledgedAt.None? && n.acknowledgedAt.Some?
       else
         match p.phase
         case Prepared => n.phase.LoginDispatching? || IsTerminalRecord(n)
         case LoginDispatching =>
           n.phase.CredentialsReady? || n.phase.Cancelling? || n.phase.RecoveryRequired? || IsTerminalRecord(n)
         case CredentialsReady => n.phase.PersistenceDispatching? || IsTerminalRecord(n)
         case PersistenceDispatching => n.phase.RecoveryRequired? || IsTerminalRecord(n)
         case Cancelling => n.phase.RecoveryRequired? || IsTerminalRecord(n)
         case RecoveryRequired => IsTerminalRecord(n)
         case _ => false
  }

  // ---- The store's moves on one record ----

  datatype Move =
    | MarkLoginDispatching(at: Time)
    | MarkCredentialsReady(at: Time)
    | MarkPersistenceDispatching(at: Time)
    | MarkCancelling(intent: CancelIntent, at: Time)
    | MarkRecoveryRequired(reason: RecoveryReason, at: Time)
    | Settle(terminal: Terminal)
    | Acknowledge(at: Time)
    | Restart(at: Time)

  predicate MatchesCancellation(r: Record, t: Terminal) {
    || (r.cancelIntent == Some(ByUser) && t.resolution.UserCancelled?)
    || (r.cancelIntent == Some(ByExpiry) && t.resolution.AttemptExpired?)
    || (r.cancelIntent == Some(ByShutdown) && t.resolution.HostShutdown?)
  }

  predicate MatchesRecovery(r: Record, t: Terminal) {
    match r.recoveryReason
    case Some(LoginLiveness) => t.resolution.InterruptedDuringLogin?
    case Some(StorageLiveness) => t.resolution.ConfiguredObserved? || t.resolution.NotConfiguredObserved?
    case Some(CancellingLiveness) => MatchesCancellation(r, t)
    case None => false
  }

  predicate TerminalAllowed(r: Record, t: Terminal) {
    match r.phase
    case Prepared =>
      t.resolution.InterruptedBeforeLogin? || t.resolution.UserCancelled? ||
      t.resolution.AttemptExpired? || t.resolution.HostShutdown?
    case LoginDispatching => t.resolution.ProviderLoginFailed? || t.resolution.InterruptedDuringLogin?
    case CredentialsReady => t.resolution.CredentialsDiscarded?
    case PersistenceDispatching => t.resolution.PersistenceConfirmed? || t.resolution.PersistenceFailed?
    case Cancelling => MatchesCancellation(r, t)
    case RecoveryRequired => MatchesRecovery(r, t)
    case _ => false
  }

  function CancelIntentForTerminal(r: Record, t: Terminal): Option<CancelIntent> {
    if r.cancelIntent.Some? then r.cancelIntent
    else match t.resolution
         case UserCancelled => Some(ByUser)
         case AttemptExpired => Some(ByExpiry)
         case HostShutdown => Some(ByShutdown)
         case _ => None
  }

  function RestartTerminal(r: Record, at: Time, resolution: Resolution): Record {
    r.(revision := r.revision + 1, phase := Failed, updatedAt := at,
       terminal := Some(Terminal(r.attempt, Failed, resolution, None, at)))
  }

  function RecoveryRecord(r: Record, at: Time, reason: RecoveryReason): Record {
    r.(revision := r.revision + 1, phase := RecoveryRequired, updatedAt := at, recoveryReason := Some(reason))
  }

  /** How a restart classifies a record it finds on disk. */
  function ClassifyRestart(r: Record, recoveredAt: Time): Record {
    if IsTerminalRecord(r) || r.phase.RecoveryRequired? then r
    else
      var at := if recoveredAt < r.updatedAt then r.updatedAt else recoveredAt;
      match r.phase
      case Prepared => RestartTerminal(r, at, InterruptedBeforeLogin)
      case LoginDispatching => RecoveryRecord(r, at, LoginLiveness)
      case CredentialsReady => RestartTerminal(r, at, CredentialsDiscarded)
      case PersistenceDispatching => RecoveryRecord(r, at, StorageLiveness)
      case Cancelling => RecoveryRecord(r, at, CancellingLiveness)
      case _ => r
  }

  /** The guard a store operation applies before it builds the successor. */
  predicate Allowed(r: Record, m: Move) {
    match m
    case MarkLoginDispatching(at) => r.phase.Prepared? && r.updatedAt <= at
    case MarkCredentialsReady(at) => r.phase.LoginDispatching? && r.updatedAt <= at
    case MarkPersistenceDispatching(at) => r.phase.CredentialsReady? && r.updatedAt <= at
    case MarkCancelling(_, at) => r.phase.LoginDispatching? && r.updatedAt <= at
    case MarkRecoveryRequired(reason, at) =>
      r.updatedAt <= at &&
      ((r.phase.LoginDispatching? && reason.LoginLiveness?) ||
       (r.phase.PersistenceDispatching? && reason.StorageLiveness?) ||
       (r.phase.Cancelling? && reason.CancellingLiveness?))
    case Settle(t) =>
      CoherentTerminal(t) && t.attempt == r.attempt && r.updatedAt <= t.at && TerminalAllowed(r, t)
    case Acknowledge(at) =>
      r.terminal.Some? && r.acknowledgedAt.None? && r.updatedAt <= at && r.terminal.value.at <= at
    case Restart(at) => ClassifyRestart(r, at) != r
  }

  /** The successor an operation builds. */
  function Candidate(r: Record, m: Move): Record {
    var next := r.(revision := r.revision + 1);
    match m
    case MarkLoginDispatching(at) => next.(phase := LoginDispatching, updatedAt := at)
    case MarkCredentialsReady(at) => next.(phase := CredentialsReady, updatedAt := at)
    case MarkPersistenceDispatching(at) => next.(phase := PersistenceDispatching, updatedAt := at)
    case MarkCancelling(intent, at) => next.(phase := Cancelling, updatedAt := at, cancelIntent := Some(intent))
    case MarkRecoveryRequired(reason, at) =>
      next.(phase := RecoveryRequired, updatedAt := at, recoveryReason := Some(reason))
    case Settle(t) =>
      next.(phase := t.phase, updatedAt := t.at, cancelIntent := CancelIntentForTerminal(r, t), terminal := Some(t))
    case Acknowledge(at) => next.(updatedAt := at, acknowledgedAt := Some(at))
    case Restart(at) => ClassifyRestart(r, at)
  }

  /** One operation, with every check it makes; `None` is a refusal. */
  function Advance(r: Record, m: Move): Option<Record> {
    if Coherent(r) && Allowed(r, m) && Coherent(Candidate(r, m)) && LegalTransition(r, Candidate(r, m))
    then Some(Candidate(r, m)) else None
  }

  predicate PrepareInputValid(i: PrepareInput) {
    && i.attempt.requestedAt < i.expiresAt && i.observedAt < i.expiresAt
    && i.observedAt - i.attempt.requestedAt <= MAX_AGE_MS
    && i.attempt.requestedAt - i.observedAt <= MAX_FUTURE_SKEW_MS
  }

  function Prepare(i: PrepareInput): Record {
    Record(i.attempt, 0, i.sessionId, i.authorityId, Prepared, i.attempt.requestedAt, i.attempt.requestedAt,
           i.expiresAt, None, None, None, None)
  }

  function RunMoves(r: Option<Record>, moves: seq<Move>): Option<Record>
    decreases |moves|
  {
    if r.None? || moves == [] then r else RunMoves(Advance(r.value, moves[0]), moves[1..])
  }

  ghost predicate Reachable(r: Record) {
    exists i, moves :: PrepareInputValid(i) && RunMoves(Some(Prepare(i)), moves) == Some(r)
  }

  // ---- Results ----

  /** Once an operation's own guard passes, re-parsing the successor and the
      transition check never refuse it. */
  lemma GuardsSuffice(r: Record, m: Move)
    requires Coherent(r)
    ensures Advance(r, m).Some? <==> Allowed(r, m)
    ensures Allowed(r, m) ==> Candidate(r, m).revision == r.revision + 1
  {
  }

  /** Where a login or storage helper may still be at work. */
  predicate HelperMayAct(p: Phase) {
    p.LoginDispatching? || p.PersistenceDispatching? || p.Cancelling? || p.RecoveryRequired?
  }

  /** Restart classification is a legal move of the store whenever it changes a
      record, leaves every other record alone, is idempotent, and leaves a barrier
      exactly where a helper may still be at work. */
  lemma RestartIsLegalAndIdempotent(r: Record, at: Time, again: Time)
    requires Coherent(r)
    ensures IsBarrier(ClassifyRestart(r, at)) <==> HelperMayAct(r.phase)
    ensures ClassifyRestart(r, at) == r || Advance(r, Restart(at)) == Some(ClassifyRestart(r, at))
    ensures ClassifyRestart(r, at) == r <==> (TerminalPhase(r.phase) || r.phase.RecoveryRequired?)
    ensures ClassifyRestart(ClassifyRestart(r, at), again) == ClassifyRestart(r, at)
  {
    GuardsSuffice(r, Restart(at));
  }

  /** A restart lifts a barrier only where no helper can be at work, and says then what
      surely did not happen; everywhere else it keeps the barrier, with the reason that
      belongs to the helper in question. Nothing else about the record changes. */
  lemma RestartKeepsDoubt(r: Record, at: Time)
    requires Coherent(r)
    ensures var n := ClassifyRestart(r, at);
            && (IsBarrier(n) <==> HelperMayAct(r.phase))
            && (IsBarrier(n) ==> n.phase.RecoveryRequired? && n.cancelIntent == r.cancelIntent)
            && (n.recoveryReason == Some(LoginLiveness) && IsBarrier(n) <==>
                  r.phase.LoginDispatching? || (r.phase.RecoveryRequired? && r.recoveryReason == Some(LoginLiveness)))
            && (n.recoveryReason == Some(StorageLiveness) && IsBarrier(n) <==>
                  r.phase.PersistenceDispatching? || (r.phase.RecoveryRequired? && r.recoveryReason == Some(StorageLiveness)))
            && (r.phase.Prepared? ==> n.terminal.Some? && n.terminal.value.resolution == InterruptedBeforeLogin)
            && (r.phase.CredentialsReady? ==> n.terminal.Some? && n.terminal.value.resolution == CredentialsDiscarded)
            && (TerminalPhase(r.phase) ==> n == r)
            && n.attempt == r.attempt && n.sessionId == r.sessionId && n.createdAt == r.createdAt
            && r.updatedAt <= n.updatedAt && (n != r ==> at <= n.updatedAt && n.revision == r.revision + 1)
  {}

  lemma {:induction false} RunKeepsCoherent(r: Record, moves: seq<Move>)
    requires Coherent(r) && (r.phase.Prepared? ==> r.updatedAt == r.createdAt)
    ensures var e := RunMoves(Some(r), moves);
            e.Some? ==> Coherent(e.value) && (e.value.phase.Prepared? ==> e.value.updatedAt == e.value.createdAt)
    decreases |moves|
  {
    if moves != [] && Advance(r, moves[0]).Some? {
      RunKeepsCoherent(Advance(r, moves[0]).value, moves[1..]);
    }
  }

  /** A path of moves that leads from preparation to a given coherent record. */
  function PathTo(r: Record): seq<Move> {
    var c := r.createdAt;
    var login := MarkLoginDispatching(c);
    if r.terminal.None? then
      match r.phase
      case Prepared => []
      case LoginDispatching => [MarkLoginDispatching(r.updatedAt)]
      case CredentialsReady => [login, MarkCredentialsReady(r.updatedAt)]
      case PersistenceDispatching => [login, MarkCredentialsReady(c), MarkPersistenceDispatching(r.updatedAt)]
      case Cancelling => if r.cancelIntent.Some? then [login, MarkCancelling(r.cancelIntent.value, r.updatedAt)] else []
      case _ => PathToRecovery(r, r.updatedAt)
    else
      PathToTerminal(r) + (if r.acknowledgedAt.Some? then [Acknowledge(r.acknowledgedAt.value)] else [])
  }

  function PathToRecovery(r: Record, at: Time): seq<Move> {
    var c := r.createdAt;
    var login := MarkLoginDispatching(c);
    match r.recoveryReason
    case Some(LoginLiveness) => [login, MarkRecoveryRequired(LoginLiveness, at)]
    case Some(StorageLiveness) =>
      [login, MarkCredentialsReady(c), MarkPersistenceDispatching(c), MarkRecoveryRequired(StorageLiveness, at)]
    case Some(CancellingLiveness) =>
      if r.cancelIntent.None? then []
      else [login, MarkCancelling(r.cancelIntent.value, c), MarkRecoveryRequired(CancellingLiveness, at)]
    case None => []
  }

  function PathToTerminal(r: Record): seq<Move>
    requires r.terminal.Some?
  {
    var t := r.terminal.value;
    var c := r.createdAt;
    var login := MarkLoginDispatching(c);
    if r.recoveryReason.Some? then PathToRecovery(r, c) + [Settle(t)]
    else
      match t.resolution
      case InterruptedBeforeLogin => [Settle(t)]
      case ProviderLoginFailed => [login, Settle(t)]
      case InterruptedDuringLogin => [login, Settle(t)]
      case CredentialsDiscarded => [login, MarkCredentialsReady(c), Settle(t)]
      case PersistenceConfirmed => [login, MarkCredentialsReady(c), MarkPersistenceDispatching(c), Settle(t)]
      case PersistenceFailed => [login, MarkCredentialsReady(c), MarkPersistenceDispatching(c), Settle(t)]
      case _ =>
        if r.cancelIntent.None? then []
        else if r.revision - (if r.acknowledgedAt.Some? then 1 else 0) == 1 then [Settle(t)]
        else [login, MarkCancelling(r.cancelIntent.value, c), Settle(t)]
  }

  function OriginOf(r: Record): PrepareInput {
    PrepareInput(r.attempt, r.sessionId, r.authorityId, r.createdAt, r.expiresAt)
  }

  lemma RunCons(r: Record, m: Move, rest: seq<Move>)
    requires Coherent(r) && Allowed(r, m)
    ensures Coherent(Candidate(r, m))
    ensures RunMoves(Some(r), [m] + rest) == RunMoves(Some(Candidate(r, m)), rest)
  {
    GuardsSuffice(r, m);
    assert ([m] + rest)[1..] == rest;
  }

  lemma {:induction false} RunConcat(r: Option<Record>, a: seq<Move>, b: seq<Move>)
    ensures RunMoves(r, a + b) == RunMoves(RunMoves(r, a), b)
    decreases |a|
  {
    if a == [] {
      assert a + b == b;
    } else if r.Some? {
      assert (a + b)[1..] == a[1..] + b;
      RunConcat(Advance(r.value, a[0]), a[1..], b);
    }
  }

  /** Up to three moves followed step by step. */
  lemma RunThree(r: Record, a: Move, b: Move, c: Move)
    requires Coherent(r) && Allowed(r, a)
    ensures Coherent(Candidate(r, a)) && RunMoves(Some(r), [a]) == Some(Candidate(r, a))
    ensures Allowed(Candidate(r, a), b) ==>
              var r2 := Candidate(Candidate(r, a), b);
              && Coherent(r2) && RunMoves(Some(r), [a, b]) == Some(r2)
              && (Allowed(r2, c) ==>
                    Coherent(Candidate(r2, c)) && RunMoves(Some(r), [a, b, c]) == Some(Candidate(r2, c)))
  {
    var r1 := Candidate(r, a);
    RunCons(r, a, []);
    assert [a] + [] == [a];
    if Allowed(r1, b) {
      var r2 := Candidate(r1, b);
      RunCons(r1, b, []);
      assert [b] + [] == [b];
      RunCons(r, a, [b]);
      assert [a] + [b] == [a, b];
      if Allowed(r2, c) {
        RunCons(r2, c, []);
        assert [c] + [] == [c];
        RunCons(r1, b, [c]);
        assert [b] + [c] == [b, c];
        RunCons(r, a, [b, c]);
        assert [a] + [b, c] == [a, b, c];
      }
    }
  }

  lemma PathLeadsToRunning(r: Record)
    requires Coherent(r) && !TerminalPhase(r.phase) && (r.phase.Prepared? ==> r.updatedAt == r.createdAt)
    ensures RunMoves(Some(Prepare(OriginOf(r))), PathTo(r)) == Some(r)
  {
    var p := Prepare(OriginOf(r));
    var login := MarkLoginDispatching(r.createdAt);
    match r.phase
    case Prepared =>
    case LoginDispatching => RunThree(p, MarkLoginDispatching(r.updatedAt), login, login);
    case CredentialsReady => RunThree(p, login, MarkCredentialsReady(r.updatedAt), login);
    case PersistenceDispatching =>
      RunThree(p, login, MarkCredentialsReady(r.createdAt), MarkPersistenceDispatching(r.updatedAt));
    case Cancelling => RunThree(p, login, MarkCancelling(r.cancelIntent.value, r.updatedAt), login);
    case RecoveryRequired => PathLeadsToRecovery(r, r.updatedAt);
  }

  /** The recovery record that a record with a recovery reason came through. */
  function AtRecovery(r: Record, at: Time): Record {
    var base := Prepare(OriginOf(r)).(
      phase := RecoveryRequired, updatedAt := at, recoveryReason := r.recoveryReason);
    match r.recoveryReason
    case Some(StorageLiveness) => base.(revision := 4)
    case Some(CancellingLiveness) => base.(revision := 3, cancelIntent := r.cancelIntent)
    case _ => base.(revision := 2)
  }

  lemma PathLeadsToRecovery(r: Record, at: Time)
    requires r.createdAt == r.attempt.requestedAt && r.createdAt < r.expiresAt && r.createdAt <= at
    requires r.recoveryReason.Some?
    requires r.recoveryReason == Some(CancellingLiveness) ==> r.cancelIntent.Some?
    ensures Coherent(AtRecovery(r, at))
    ensures RunMoves(Some(Prepare(OriginOf(r))), PathToRecovery(r, at)) == Some(AtRecovery(r, at))
  {
    var p := Prepare(OriginOf(r));
    var c := r.createdAt;
    var login := MarkLoginDispatching(c);
    assert 0 in BaseRevisions(p);
    match r.recoveryReason.value
    case LoginLiveness => RunThree(p, login, MarkRecoveryRequired(LoginLiveness, at), login);
    case CancellingLiveness =>
      RunThree(p, login, MarkCancelling(r.cancelIntent.value, c), MarkRecoveryRequired(CancellingLiveness, at));
    case StorageLiveness =>
      var first := [login, MarkCredentialsReady(c), MarkPersistenceDispatching(c)];
      RunThree(p, login, MarkCredentialsReady(c), MarkPersistenceDispatching(c));
      var d := RunMoves(Some(p), first).value;
      RunThree(d, MarkRecoveryRequired(StorageLiveness, at), login, login);
      RunConcat(Some(p), first, [MarkRecoveryRequired(StorageLiveness, at)]);
      assert first + [MarkRecoveryRequired(StorageLiveness, at)] == PathToRecovery(r, at);
  }

  lemma PathLeadsToTerminal(r: Record)
    requires Coherent(r) && TerminalPhase(r.phase) && r.acknowledgedAt.None?
    ensures RunMoves(Some(Prepare(OriginOf(r))), PathToTerminal(r)) == Some(r)
  {
    var t := r.terminal.value;
    var p := Prepare(OriginOf(r));
    var c := r.createdAt;
    var login := MarkLoginDispatching(c);
    assert 0 in BaseRevisions(p);
    if r.recoveryReason.Some? {
      PathLeadsToRecovery(r, c);
      RunThree(AtRecovery(r, c), Settle(t), login, login);
      RunConcat(Some(p), PathToRecovery(r, c), [Settle(t)]);
    } else {
      var res := t.resolution;
      if res.CredentialsDiscarded? {
        RunThree(p, login, MarkCredentialsReady(c), Settle(t));
      } else if res.PersistenceConfirmed? || res.PersistenceFailed? {
        PathLeadsThroughStorage(r);
      } else if r.revision == 1 {
        RunThree(p, Settle(t), login, login);
      } else if r.cancelIntent.Some? {
        RunThree(p, login, MarkCancelling(r.cancelIntent.value, c), Settle(t));
      } else {
        RunThree(p, login, Settle(t), login);
      }
    }
  }

  lemma PathLeadsThroughStorage(r: Record)
    requires Coherent(r) && TerminalPhase(r.phase) && r.acknowledgedAt.None? && r.recoveryReason.None?
    requires r.terminal.value.resolution.PersistenceConfirmed? || r.terminal.value.resolution.PersistenceFailed?
    ensures RunMoves(Some(Prepare(OriginOf(r))), PathToTerminal(r)) == Some(r)
  {
    var p := Prepare(OriginOf(r));
    var c := r.createdAt;
    var login := MarkLoginDispatching(c);
    assert 0 in BaseRevisions(p);
    var first := [login, MarkCredentialsReady(c), MarkPersistenceDispatching(c)];
    RunThree(p, login, MarkCredentialsReady(c), MarkPersistenceDispatching(c));
    var d := RunMoves(Some(p), first).value;
    RunThree(d, Settle(r.terminal.value), login, login);
    RunConcat(Some(p), first, [Settle(r.terminal.value)]);
    assert first + [Settle(r.terminal.value)] == PathToTerminal(r);
  }

  lemma PathLeadsToRecord(r: Record)
    requires Coherent(r) && (r.phase.Prepared? ==> r.updatedAt == r.createdAt)
    ensures RunMoves(Some(Prepare(OriginOf(r))), PathTo(r)) == Some(r)
  {
    if r.terminal.None? {
      PathLeadsToRunning(r);
    } else if r.acknowledgedAt.None? {
      PathLeadsToTerminal(r);
      assert PathTo(r) == PathToTerminal(r);
    } else {
      var u := r.(revision := r.revision - 1, updatedAt := r.terminal.value.at, acknowledgedAt := None);
      assert BaseRevisions(u) == BaseRevisions(r) && u.revision in BaseRevisions(u);
      PathLeadsToTerminal(u);
      var ack := Acknowledge(r.acknowledgedAt.value);
      RunThree(u, ack, ack, ack);
      RunConcat(Some(Prepare(OriginOf(r))), PathToTerminal(u), [ack]);
      assert PathTo(r) == PathToTerminal(u) + [ack];
    }
  }

  /** A record is accepted from disk if and only if some history of the store
      produces it. The one timestamp the parser does not pin is that of a
      prepared record, which preparation stamps with its creation time. */
  lemma ReachableIffCoherent(r: Record)
    ensures Reachable(r) <==> Coherent(r) && (r.phase.Prepared? ==> r.updatedAt == r.createdAt)
  {
    if Reachable(r) {
      var i, moves :| PrepareInputValid(i) && RunMoves(Some(Prepare(i)), moves) == Some(r);
      assert 0 in BaseRevisions(Prepare(i));
      RunKeepsCoherent(Prepare(i), moves);
    }
    if Coherent(r) && (r.phase.Prepared? ==> r.updatedAt == r.createdAt) {
      PathLeadsToRecord(r);
      assert PrepareInputValid(OriginOf(r));
    }
  }

  /** The credentials may have reached storage: they were dispatched at or before this record. */
  predicate PastDispatch(r: Record) {
    || r.phase.PersistenceDispatching?
    || (r.phase.RecoveryRequired? && r.recoveryReason == Some(StorageLiveness))
    || (r.terminal.Some? &&
        (r.terminal.value.resolution.PersistenceConfirmed? || r.terminal.value.resolution.PersistenceFailed? ||
         r.terminal.value.resolution.ConfiguredObserved? || r.terminal.value.resolution.NotConfiguredObserved?))
  }

  /** Once credentials were dispatched, no later move settles the attempt as if they had not been,
      and the attempt never returns to a phase from which they could be dispatched again. */
  lemma DispatchIsIrrevocable(r: Record, m: Move)
    requires PastDispatch(r) && Advance(r, m).Some?
    ensures PastDispatch(Advance(r, m).value) && !Advance(r, m).value.phase.PersistenceDispatching?
  {
    assert Allowed(r, m);
  }
}
