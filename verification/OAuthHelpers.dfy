/** Helpers whose end is in doubt: a login or storage call that was outstanding when
    its process ended, or that came back without confirming that its helper is gone.
    Its attempt bars every other one, through every restart. */
module OAuthHelpers {
  import opened Outcomes
  import opened OAuthRecords
  import opened OAuthAttemptStores
  import opened OAuthBrokers
  import opened OAuthBrokerSafety

  datatype Helper = LoginHelper | StorageHelper

  /** The record stands where this helper may still be at work, and says so after a restart. */
  predicate InDoubt(h: Helper, r: Record) {
    match h
    case LoginHelper =>
      r.phase.LoginDispatching? || r.phase.Cancelling? ||
      (r.phase.RecoveryRequired? && (r.recoveryReason == Some(LoginLiveness) || r.recoveryReason == Some(CancellingLiveness)))
    case StorageHelper =>
      r.phase.PersistenceDispatching? || (r.phase.RecoveryRequired? && r.recoveryReason == Some(StorageLiveness))
  }

  /** The helper's call has been made and has not returned. */
  predicate Outstanding(s: State, h: Helper) {
    s.slot.Some? && match h case LoginHelper => s.slot.value.pc.LoggingIn? case StorageHelper => s.slot.value.pc.Storing?
  }

  /** The call's process ends, or the call returns without confirming that its helper is gone. */
  predicate LosesHelper(s: State, e: Event, h: Helper) {
    && Outstanding(s, h)
    && (EndsProcess(e) ||
        match h
        case LoginHelper => e == LoginReturns(LoginHelperUnconfirmed)
        case StorageHelper => e == StorageReturns(StorageHelperUnconfirmed))
  }

  predicate Lost(pc: RunPc, h: Helper) {
    pc.RunDone? ||
    match h
    case LoginHelper => pc == LoginEnded(LoginHelperUnconfirmed)
    case StorageHelper => pc == StorageEnded(StorageHelperUnconfirmed)
  }

  predicate FilesBarred(files: Files, a: Attempt, h: Helper) {
    a in files && InDoubt(h, files[a])
  }

  /** Nothing that runs can lift the barrier of `a`. */
  predicate Barred(s: State, a: Attempt, h: Helper) {
    && FilesBarred(s.files, a, h) && (s.fallback.Some? ==> FilesBarred(s.fallback.value, a, h))
    && (s.admission.Idle? || s.admission.Begun? || s.admission.PrepareCalled?)
    && (s.slot.Some? ==>
          && s.slot.value.attempt == a && Lost(s.slot.value.pc, h)
          && (!s.slot.value.section.Free? ==> s.slot.value.section.seen.attempt == a && InDoubt(h, s.slot.value.section.seen)))
  }

  predicate SameCalls(s: State, t: State) {
    s.logins == t.logins && s.sets == t.sets
  }

  /** The moves a run or a cancellation still makes on such a record, and a restart's. */
  predicate KeepsDoubt(h: Helper, m: Move) {
    match m
    case MarkCancelling(_, _) => h.LoginHelper?
    case MarkRecoveryRequired(_, _) => true
    case Restart(_) => true
    case _ => false
  }

  lemma MoveKeepsDoubt(r: Record, m: Move, h: Helper)
    requires InDoubt(h, r) && KeepsDoubt(h, m) && Advance(r, m).Some?
    ensures InDoubt(h, Advance(r, m).value)
  {}

  lemma WriteKeepsBarred(s: State, prev: Record, m: Move, outcome: WriteOutcome, a: Attempt, h: Helper)
    requires Inv(s) && Barred(s, a, h)
    requires prev.attempt != a || KeepsDoubt(h, m) || !InDoubt(h, prev)
    ensures var (t, written) := Write(s, prev, m, outcome);
            && Barred(t, a, h) && t == s.(files := t.files, fallback := t.fallback, storeFailed := t.storeFailed)
            && (written.Some? && prev.attempt == a ==> InDoubt(h, written.value))
  {
    hide Write, InDoubt, Candidate, Allowed, LegalTransition, Coherent, KeepsDoubt, Advance, SlotOk, AdmissionOk, WorldOk, Distinct;
    assert WellFormed(s.files) && (s.fallback.Some? ==> s.storeFailed) by { InvIsWellFormed(s); }
    WriteMoves(s, prev, m, outcome);
    var t := Write(s, prev, m, outcome).0;
    if t.files != s.files && prev.attempt == a { MoveKeepsDoubt(s.files[a], m, h); }
    hide Inv, WellFormed;
  }

  predicate Ended(s: State, t: State, a: Attempt) {
    && t == s.(slot := t.slot)
    && (t.slot.Some? ==> t.slot.value.attempt == a && t.slot.value.pc.RunDone? && t.slot.value.section.Free?)
  }

  lemma EndedKeepsBarred(s: State, t: State, a: Attempt, h: Helper)
    requires Barred(s, a, h) && Ended(s, t, a)
    ensures Barred(t, a, h) && SameCalls(s, t)
  {
    hide FilesBarred;
  }

  /** The error handler of a run whose helper is not confirmed gone. */
  lemma HandleEnds(s: State, ses: Session, seen: Record, outcome: WriteOutcome)
    ensures var t := HandleError(s, ses, seen, true, outcome);
            var m := ErrorMove(s, seen, true);
            if TerminalPhase(seen.phase) || m.None? then Ended(s, t, ses.attempt)
            else Ended(Write(s, seen, m.value, outcome).0, t, ses.attempt)
  {
    hide ErrorMove, Write, TerminalPhase, SameEffects;
  }

  lemma HandleKeepsBarred(s: State, ses: Session, seen: Record, outcome: WriteOutcome, a: Attempt, h: Helper)
    requires Inv(s) && Barred(s, a, h) && s.slot == Some(ses) && seen.attempt == a && InDoubt(h, seen)
    ensures var t := HandleError(s, ses, seen, true, outcome); Barred(t, a, h) && SameCalls(s, t)
  {
    var t := HandleError(s, ses, seen, true, outcome);
    var m := ErrorMove(s, seen, true);
    assert m.Some? ==> KeepsDoubt(h, m.value) by { hide Inv, Barred; }
    assert ses.attempt == a by { hide Inv, FilesBarred; }
    HandleEnds(s, ses, seen, outcome);
    hide Inv, Barred, Write, InDoubt, ErrorMove, HandleError, KeepsDoubt, Ended, TerminalPhase;
    if TerminalPhase(seen.phase) || m.None? {
      EndedKeepsBarred(s, t, a, h);
    } else {
      WriteKeepsBarred(s, seen, m.value, outcome, a, h);
      EndedKeepsBarred(Write(s, seen, m.value, outcome).0, t, a, h);
    }
  }

  lemma RunActKeepsBarred(s: State, outcome: WriteOutcome, a: Attempt, h: Helper)
    requires Inv(s) && Barred(s, a, h) && s.slot.Some? && s.slot.value.section.ForRun?
    ensures var t := ActForRun(s, s.slot.value, s.slot.value.section.seen, outcome); Barred(t, a, h) && SameCalls(s, t)
  {
    hide Inv, HandleError, FilesBarred, InDoubt, RunWrite, EndRun, EndRetained;
    HandleKeepsBarred(s, s.slot.value, s.slot.value.section.seen, outcome, a, h);
  }

  lemma CancelActKeepsBarred(s: State, outcome: WriteOutcome, a: Attempt, h: Helper)
    requires Inv(s) && Barred(s, a, h) && s.slot.Some? && s.slot.value.section.ForCancel?
    ensures var ses := s.slot.value;
            var t := ActForCancel(s, ses, ses.section.intent, ses.section.seen, outcome); Barred(t, a, h) && SameCalls(s, t)
  {
    hide Inv, Write, FilesBarred;
    var seen := s.slot.value.section.seen;
    var m := CancelMove(s, s.slot.value.section.intent, seen);
    if m.Some? { WriteKeepsBarred(s, seen, m.value, outcome, a, h); }
  }

  /** While one attempt bars, none is admitted. */
  lemma PrepareKeepsBarred(s: State, outcome: WriteOutcome, a: Attempt, h: Helper)
    requires Inv(s) && Barred(s, a, h) && s.admission.PrepareCalled?
    ensures var t := PrepareForStart(s, outcome); Barred(t, a, h) && SameCalls(s, t)
  {
    var i := s.admission.input;
    assert IsBarrier(s.files[a]);
    assert Admitted(s.files, i, outcome).0 == s.files;
    assert Admitted(s.files, i, outcome).1.Ok? ==> !Admitted(s.files, i, outcome).1.value.1;
    hide Admitted, Inv, InDoubt;
  }

  lemma AcknowledgeKeepsBarred(s: State, e: Event, a: Attempt, h: Helper)
    requires Inv(s) && Barred(s, a, h) && e.AcknowledgeTerminal?
    ensures var t := Step(s, e); Barred(t, a, h) && SameCalls(s, t)
  {
    assert WellFormed(s.files) by { InvIsWellFormed(s); }
    assert s.files[a].terminal.None?;
    var call := AttemptAcknowledged(s.files, e.attempt, e.revision, e.digest, e.at, e.outcome);
    assert call.0 == s.files || (e.attempt != a && call.0 == s.files[e.attempt := call.0[e.attempt]]) by {
      hide Inv;
    }
    hide Inv, AttemptAcknowledged, InDoubt, WellFormed;
  }

  lemma StartKeepsBarred(s: State, e: Event, a: Attempt, h: Helper)
    requires Inv(s) && Barred(s, a, h)
    requires e.Tick? || e.StartBegin? || e.StartLookup? || e.StartMark? || e.StartMarkEffect? || e.StartLaunch? || e.StatusRead? || e.Close?
    ensures Barred(Step(s, e), a, h) && SameCalls(s, Step(s, e))
  {
    hide Inv, FilesBarred, Write, Launched, AfterHorizon, AdmissionHolds;
  }

  lemma SessionKeepsBarred(s: State, e: Event, a: Attempt, h: Helper)
    requires Inv(s) && Barred(s, a, h) && (e.LoginReturns? || e.BeginSet? || e.StorageReturns?)
    ensures Barred(Step(s, e), a, h) && SameCalls(s, Step(s, e))
  {
    hide Inv, FilesBarred;
  }

  lemma EnterRunKeepsBarred(s: State, readable: bool, a: Attempt, h: Helper)
    requires Inv(s) && Barred(s, a, h) && s.slot.Some?
    ensures var t := EnterForRun(s, s.slot.value, readable); Barred(t, a, h) && SameCalls(s, t)
  {
    assert s.files[a].attempt == a by { InvIsWellFormed(s); }
    hide Inv, InDoubt;
  }

  lemma EnterCancelKeepsBarred(s: State, intent: CancelIntent, readable: bool, a: Attempt, h: Helper)
    requires Inv(s) && Barred(s, a, h) && s.slot.Some?
    ensures var t := EnterForCancel(s, s.slot.value, intent, readable); Barred(t, a, h) && SameCalls(s, t)
  {
    assert s.files[a].attempt == a by { InvIsWellFormed(s); }
    hide Inv, InDoubt;
  }

  lemma EnterKeepsBarred(s: State, e: Event, a: Attempt, h: Helper)
    requires Inv(s) && Barred(s, a, h) && (e.RunEnter? || e.CancelEnter?)
    ensures Barred(Step(s, e), a, h) && SameCalls(s, Step(s, e))
  {
    if s.slot.Some? && e.RunEnter? { EnterRunKeepsBarred(s, e.readable, a, h); }
    if s.slot.Some? && e.CancelEnter? { EnterCancelKeepsBarred(s, e.intent, e.readable, a, h); }
    hide Inv, Barred, EnterForRun, EnterForCancel;
  }

  lemma RestartKeepsBarred(s: State, e: Event, a: Attempt, h: Helper)
    requires Inv(s) && Barred(s, a, h) && (EndsProcess(e) || e.Recover? || e.Open?)
    ensures Barred(Step(s, e), a, h) && SameCalls(s, Step(s, e))
  {
    hide Inv, FilesBarred, Classified;
  }

  lemma ClassifyKeepsBarred(s: State, e: Event, a: Attempt, h: Helper)
    requires Inv(s) && Barred(s, a, h) && e.Classify?
    ensures Barred(Step(s, e), a, h) && SameCalls(s, Step(s, e))
  {
    InvIsWellFormed(s);
    if e.attempt in s.files { WriteKeepsBarred(s, s.files[e.attempt], Restart(s.bootAt), e.outcome, a, h); }
    hide Inv, Write, ClassifyRestart, Barred;
  }

  lemma CompactKeepsBarred(s: State, e: Event, a: Attempt, h: Helper)
    requires Inv(s) && Barred(s, a, h) && e.CompactOne?
    ensures Barred(Step(s, e), a, h) && SameCalls(s, Step(s, e))
  {
    assert s.files[a].terminal.None? by { InvIsWellFormed(s); }
    assert !Eligible(s.files[a], s.bootAt);
    hide Inv, InDoubt, Classified, Eligible, AfterHorizon, Later;
  }

  lemma UnstartedKeepsBarred(s: State, e: Event, a: Attempt, h: Helper)
    requires Inv(s) && Barred(s, a, h) && e.CancelUnstarted?
    ensures Barred(Step(s, e), a, h) && SameCalls(s, Step(s, e))
  {
    if e.seen.phase.Prepared? { WriteKeepsBarred(s, e.seen, SettleAs(s, e.seen, Cancelled, UserCancelled, None), e.outcome, a, h); }
    hide Inv, Write, Barred, SettleAs;
  }

  lemma StepKeepsBarred(s: State, e: Event, a: Attempt, h: Helper)
    requires Inv(s) && Barred(s, a, h)
    ensures Barred(Step(s, e), a, h) && SameCalls(s, Step(s, e))
  {
    hide Inv, Barred, SameCalls;
    match e
    case StartPrepare(outcome) => PrepareStepKeepsBarred(s, e, a, h);
    case RunAct(outcome) => ActKeepsBarred(s, e, a, h);
    case CancelAct(outcome) => ActKeepsBarred(s, e, a, h);
    case CancelUnstarted(_, _, _) => UnstartedKeepsBarred(s, e, a, h);
    case AcknowledgeTerminal(_, _, _, _, _) => AcknowledgeKeepsBarred(s, e, a, h);
    case Classify(_, _) => ClassifyKeepsBarred(s, e, a, h);
    case CompactOne(_, _) => CompactKeepsBarred(s, e, a, h);
    case Crash => RestartKeepsBarred(s, e, a, h);
    case PowerLoss(_) => RestartKeepsBarred(s, e, a, h);
    case Recover(_) => RestartKeepsBarred(s, e, a, h);
    case Open => RestartKeepsBarred(s, e, a, h);
    case LoginReturns(_) => SessionKeepsBarred(s, e, a, h);
    case BeginSet => SessionKeepsBarred(s, e, a, h);
    case StorageReturns(_) => SessionKeepsBarred(s, e, a, h);
    case RunEnter(_) => EnterKeepsBarred(s, e, a, h);
    case CancelEnter(_, _) => EnterKeepsBarred(s, e, a, h);
    case _ => StartKeepsBarred(s, e, a, h);
  }

  lemma PrepareStepKeepsBarred(s: State, e: Event, a: Attempt, h: Helper)
    requires Inv(s) && Barred(s, a, h) && e.StartPrepare?
    ensures Barred(Step(s, e), a, h) && SameCalls(s, Step(s, e))
  {
    if s.admission.PrepareCalled? { PrepareKeepsBarred(s, e.outcome, a, h); }
    hide Inv, Barred, PrepareForStart;
  }

  lemma ActKeepsBarred(s: State, e: Event, a: Attempt, h: Helper)
    requires Inv(s) && Barred(s, a, h) && (e.RunAct? || e.CancelAct?)
    ensures Barred(Step(s, e), a, h) && SameCalls(s, Step(s, e))
  {
    if s.slot.Some? && s.slot.value.section.ForRun? && e.RunAct? { RunActKeepsBarred(s, e.outcome, a, h); }
    if s.slot.Some? && s.slot.value.section.ForCancel? && e.CancelAct? { CancelActKeepsBarred(s, e.outcome, a, h); }
    hide Inv, Barred, ActForRun, ActForCancel;
  }

  lemma {:induction false} RunKeepsBarred(s: State, events: seq<Event>, a: Attempt, h: Helper)
    requires Inv(s) && Barred(s, a, h)
    ensures Inv(Run(s, events)) && Barred(Run(s, events), a, h) && SameCalls(s, Run(s, events))
    decreases |events|
  {
    hide Inv, Barred, Step;
    if events != [] {
      StepKeepsInv(s, events[0]);
      StepKeepsBarred(s, events[0], a, h);
      RunKeepsBarred(Step(s, events[0]), events[1..], a, h);
    }
  }

  lemma LossBars(s: State, e: Event, h: Helper)
    requires Inv(s) && LosesHelper(s, e, h)
    ensures Barred(Step(s, e), s.slot.value.attempt, h) && SameCalls(s, Step(s, e))
  {
    hide WorldOk, Distinct, LoggedIn, SetsLoggedIn, AdmissionIsNew;
  }

  /** A login or storage call whose helper may have outlived it bars every other attempt
      for good: whatever restarts, power losses, cancellations and starts follow, its
      record stays the one barrier, for the reason of that helper, and no login or
      storage call is ever made again. */
  lemma LostHelperBarsForGood(clock: Time, events: seq<Event>, e: Event, h: Helper, later: seq<Event>)
    ensures var s := Run(Init(clock), events);
            LosesHelper(s, e, h) ==>
              var a := s.slot.value.attempt;
              var t := Run(Step(s, e), later);
              && a in t.files && InDoubt(h, t.files[a])
              && (forall b :: b in t.files && IsBarrier(t.files[b]) ==> b == a)
              && t.logins == s.logins && t.sets == s.sets
  {
    InitInv(clock);
    RunKeepsInv(Init(clock), events);
    var s := Run(Init(clock), events);
    if LosesHelper(s, e, h) {
      var a := s.slot.value.attempt;
      LossBars(s, e, h);
      StepKeepsInv(s, e);
      RunKeepsBarred(Step(s, e), later, a, h);
      var t := Run(Step(s, e), later);
      assert AtMostOneBarrier(t.files) by { InvHasOneBarrier(t); }
      assert IsBarrier(t.files[a]) by { hide Inv; }
      hide Inv, InDoubt, IsBarrier, Run, Step;
    }
  }

  lemma InvHasOneBarrier(s: State)
    requires Inv(s)
    ensures AtMostOneBarrier(s.files)
  {
    hide SlotOk, AdmissionOk, Distinct, AtMostOneBarrier;
  }
}
