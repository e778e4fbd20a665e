/** The endpoint publication lease. Every method is one stretch of the lease's
    code between two await points, so any sequence of method calls is one
    interleaving of publications, assertions, shutdown and release. */
module OwnershipLeases {
  import opened Outcomes

  datatype Lifecycle = Active | Closing | Lost | Released

  /** Where the single admitted publication stands. */
  datatype Publication =
    | NoPublication
    | ConfirmingBefore                 // awaiting the first ownership check
    | InCallback                       // the callback has been invoked
    | ConfirmingAfter(result: CallbackResult)

  datatype CallbackResult = CallbackOk | CallbackFailed | CallbackAmbiguous

  datatype LeaseError = Poisoned | Closed | OwnershipLost | AmbiguousPublication | ReleasedError | Busy | ReleaseWhileActive | FromCallback

  datatype State = State(
    lifecycle: Lifecycle, lifecycleError: Option<LeaseError>, poisoned: bool, aborted: bool, fatalNotices: nat,
    publication: Publication, waiters: set<nat>)

  datatype Event =
    | RequestPermit
    | BeforeChecked(owned: bool)
    | CallbackSettled(result: CallbackResult)
    | AfterChecked(owned: bool)
    | AssertSettled(owned: bool)       // an `assertOwned` or `assertActive` call's ownership check answers
    | Poison
    | CloseAdmission
    | Drain(waiter: nat)
    | MarkReleased

  const FRESH := State(Active, None, false, false, 0, NoPublication, {})

  // ---- Specification of each step ----

  function Lose(s: State, error: LeaseError): State {
    if s.lifecycle.Released? || s.lifecycle.Lost? then s
    else s.(lifecycle := Lost, lifecycleError := Some(error), aborted := true, fatalNotices := s.fatalNotices + 1)
  }

  function PoisonedFrom(s: State): State {
    if s.lifecycle.Released? || s.poisoned then s else s.(poisoned := true, aborted := true)
  }

  function Finish(s: State): State {
    s.(publication := NoPublication, waiters := {})
  }

  predicate MayPublish(s: State) {
    !s.poisoned && s.lifecycle.Active?
  }

  function Step(s: State, e: Event): State {
    match e
    case RequestPermit =>
      if MayPublish(s) && s.publication.NoPublication? then s.(publication := ConfirmingBefore) else s
    case BeforeChecked(owned) =>
      if !s.publication.ConfirmingBefore? then s
      else if !owned then Finish(Lose(s, OwnershipLost))
      else if !MayPublish(s) then Finish(s)
      else s.(publication := InCallback)
    case CallbackSettled(result) =>
      if s.publication.InCallback? then s.(publication := ConfirmingAfter(result)) else s
    case AfterChecked(owned) =>
      if !s.publication.ConfirmingAfter? then s
      else if !owned then Finish(Lose(s, AmbiguousPublication))
      else if s.publication.result.CallbackAmbiguous? then Finish(PoisonedFrom(s))
      else Finish(s)
    case AssertSettled(owned) => if owned then s else Lose(s, OwnershipLost)
    case Poison => PoisonedFrom(s)
    case CloseAdmission =>
      if !s.lifecycle.Active? then s
      else s.(lifecycle := Closing, lifecycleError := Some(Closed), aborted := true)
    case Drain(waiter) => if s.publication.NoPublication? then s else s.(waiters := s.waiters + {waiter})
    case MarkReleased =>
      if !s.publication.NoPublication? then s
      else s.(lifecycle := Released, lifecycleError := Some(ReleasedError), aborted := true)
  }

  /** The publication settled at this step reports success to its caller. */
  predicate Succeeds(s: State, e: Event) {
    && e == AfterChecked(true) && s.publication == ConfirmingAfter(CallbackOk)
    && !s.lifecycle.Lost? && !s.lifecycle.Released? && !s.poisoned
  }

  predicate InvokesCallback(s: State, e: Event) {
    e == BeforeChecked(true) && s.publication.ConfirmingBefore? && MayPublish(s)
  }

  /** The publication settled at this step leaves its own outcome unknown. */
  predicate EndsAmbiguously(s: State, e: Event) {
    s.publication.ConfirmingAfter? &&
    (e == AfterChecked(false) || (e == AfterChecked(true) && s.publication.result.CallbackAmbiguous?))
  }

  function Run(s: State, events: seq<Event>): State
    decreases |events|
  {
    if events == [] then s else Run(Step(s, events[0]), events[1..])
  }

  function Rank(l: Lifecycle): nat {
    match l case Active => 0 case Closing => 1 case Lost => 2 case Released => 3
  }

  // ---- The lease ----

  class OwnershipLease {
    var lifecycle: Lifecycle
    var lifecycleError: Option<LeaseError>
    var publicationError: bool
    var signalAborted: bool
    var fatalLossNotified: bool
    var publicationActive: bool
    var drainWaiters: set<nat>
    /** Where the running publication awaits. */
    var progress: Publication
    ghost var notices: nat

    ghost predicate Valid()
      reads this
    {
      && (publicationActive <==> !progress.NoPublication?)
      && (fatalLossNotified <==> notices > 0)
      && notices <= 1 && (notices == 1 <==> lifecycle.Lost? || (lifecycle.Released? && fatalLossNotified))
    }

    ghost function View(): State
      reads this
    {
      State(lifecycle, lifecycleError, publicationError, signalAborted, notices, progress, drainWaiters)
    }

    constructor ()
      ensures Valid() && View() == FRESH
    {
      lifecycle, lifecycleError, publicationError := Active, None, false;
      signalAborted, fatalLossNotified, publicationActive, drainWaiters := false, false, false, {};
      progress, notices := NoPublication, 0;
    }

    method PoisonPublication()
      requires Valid()
      modifies this
      ensures Valid() && View() == Step(old(View()), Poison)
    {
      if lifecycle.Released? { return; }
      if !publicationError { publicationError, signalAborted := true, true; }
    }

    method MarkFatalLoss(error: LeaseError)
      requires Valid()
      modifies this
      ensures Valid() && View() == Lose(old(View()), error)
    {
      if !lifecycle.Released? && !lifecycle.Lost? {
        lifecycle, lifecycleError, signalAborted := Lost, Some(error), true;
        if !fatalLossNotified { fatalLossNotified, notices := true, notices + 1; }
      }
    }

    method FinishPublication()
      requires Valid()
      modifies this
      ensures Valid() && View() == Finish(old(View()))
    {
      publicationActive, drainWaiters, progress := false, {}, NoPublication;
    }

    function Rejection(): LeaseError
      reads this
    {
      if publicationError then Poisoned
      else if lifecycleError.Some? then lifecycleError.value else Closed
    }

    predicate Publishable()
      reads this
    {
      !publicationError && lifecycle.Active?
    }

    /** Reserves the single permit; the first ownership check is then in flight. */
    method WithPublicationPermit() returns (r: Result<(), LeaseError>)
      requires Valid()
      modifies this
      ensures Valid() && View() == Step(old(View()), RequestPermit)
      ensures r.Ok? <==> MayPublish(old(View())) && old(View()).publication.NoPublication?
    {
      if !Publishable() { return Err(Rejection()); }
      if publicationActive { return Err(Busy); }
      publicationActive, progress := true, ConfirmingBefore;
      r := Ok(());
    }

    /** The first check answers; with no further await, the callback is invoked or the permit is returned. */
    method ResumeBeforeCallback(owned: bool) returns (invoke: bool, error: Option<LeaseError>)
      requires Valid() && progress.ConfirmingBefore?
      modifies this
      ensures Valid() && View() == Step(old(View()), BeforeChecked(owned))
      ensures invoke <==> InvokesCallback(old(View()), BeforeChecked(owned))
      ensures invoke <==> error.None?
    {
      if !owned {
        MarkFatalLoss(OwnershipLost);
        FinishPublication();
        return false, Some(OwnershipLost);
      }
      if !Publishable() {
        error := Some(Rejection());
        FinishPublication();
        return false, error;
      }
      progress := InCallback;
      return true, None;
    }

    method CallbackReturned(result: CallbackResult)
      requires Valid() && progress.InCallback?
      modifies this
      ensures Valid() && View() == Step(old(View()), CallbackSettled(result))
    {
      progress := ConfirmingAfter(result);
    }

    /** The second check answers and the publication settles. */
    method ResumeAfterCallback(owned: bool) returns (r: Result<(), LeaseError>)
      requires Valid() && progress.ConfirmingAfter?
      modifies this
      ensures Valid() && View() == Step(old(View()), AfterChecked(owned))
      ensures r.Ok? <==> Succeeds(old(View()), AfterChecked(owned))
      ensures !owned ==> r == Err(AmbiguousPublication)
      ensures owned && !old(progress).result.CallbackOk? ==> r == Err(FromCallback)
    {
      var result := progress.result;
      if !owned {
        MarkFatalLoss(AmbiguousPublication);
        FinishPublication();
        return Err(AmbiguousPublication);
      }
      if !result.CallbackOk? {
        if result.CallbackAmbiguous? { PoisonPublication(); }
        FinishPublication();
        return Err(FromCallback);
      }
      if lifecycle.Lost? || lifecycle.Released? { r := Err(if lifecycleError.Some? then lifecycleError.value else Closed); }
      else if publicationError { r := Err(Poisoned); }
      else { r := Ok(()); }
      FinishPublication();
    }

    /** An `assertOwned` call resumes: the lifecycle alone decides. */
    method ResumeAssertOwned(owned: bool) returns (r: Result<(), LeaseError>)
      requires Valid()
      modifies this
      ensures Valid() && View() == Step(old(View()), AssertSettled(owned))
      ensures r.Ok? <==> owned && old(lifecycle).Active?
    {
      if !owned { MarkFatalLoss(OwnershipLost); return Err(OwnershipLost); }
      if !lifecycle.Active? { return Err(if lifecycleError.Some? then lifecycleError.value else Closed); }
      r := Ok(());
    }

    /** An `assertActive` call resumes: publication poison counts too. */
    method ResumeAssertActive(owned: bool) returns (r: Result<(), LeaseError>)
      requires Valid()
      modifies this
      ensures Valid() && View() == Step(old(View()), AssertSettled(owned))
      ensures r.Ok? <==> owned && MayPublish(old(View()))
    {
      if !owned { MarkFatalLoss(OwnershipLost); return Err(OwnershipLost); }
      if !Publishable() { return Err(Rejection()); }
      r := Ok(());
    }

    method CloseLeaseAdmission()
      requires Valid()
      modifies this
      ensures Valid() && View() == Step(old(View()), CloseAdmission)
    {
      if !lifecycle.Active? { return; }
      lifecycle, lifecycleError, signalAborted := Closing, Some(Closed), true;
    }

    /** Registers a waiter, or reports that there is nothing to wait for. */
    method DrainFor(waiter: nat) returns (waits: bool)
      requires Valid()
      modifies this
      ensures Valid() && View() == Step(old(View()), Drain(waiter))
      ensures waits <==> old(publicationActive)
    {
      if !publicationActive { return false; }
      drainWaiters := drainWaiters + {waiter};
      waits := true;
    }

    method Release() returns (r: Result<(), LeaseError>)
      requires Valid()
      modifies this
      ensures Valid() && View() == Step(old(View()), MarkReleased)
      ensures r.Ok? <==> !old(publicationActive)
    {
      if publicationActive { return Err(ReleaseWhileActive); }
      lifecycle, lifecycleError, signalAborted := Released, Some(ReleasedError), true;
      r := Ok(());
    }
  }

  // ---- Results, over every interleaving ----

  predicate Inv(s: State) {
    && (s.aborted <==> !s.lifecycle.Active? || s.poisoned)
    && (s.lifecycleError.Some? <==> !s.lifecycle.Active?)
    && (s.waiters != {} ==> !s.publication.NoPublication?)
    && (s.lifecycle.Released? ==> s.publication.NoPublication?)
    && s.fatalNotices <= 1 && (s.lifecycle.Lost? ==> s.fatalNotices == 1)
    && (s.lifecycle.Active? || s.lifecycle.Closing? ==> s.fatalNotices == 0)
  }

  /** In every interleaving: the signal is aborted exactly when the lease is
      inactive or poisoned, waiters exist only while a publication is active, a
      released lease has none, and loss is announced at most once. */
  lemma {:induction false} RunKeepsInv(s: State, events: seq<Event>)
    requires Inv(s)
    ensures Inv(Run(s, events))
    decreases |events|
  {
    if events != [] { RunKeepsInv(Step(s, events[0]), events[1..]); }
  }

  /** The lifecycle only moves forward, poison is never lifted, and an active
      publication keeps the lease from being released. */
  lemma {:induction false} LifecycleMovesForward(s: State, events: seq<Event>)
    ensures Rank(s.lifecycle) <= Rank(Run(s, events).lifecycle)
    ensures s.poisoned ==> Run(s, events).poisoned
    decreases |events|
  {
    if events != [] { LifecycleMovesForward(Step(s, events[0]), events[1..]); }
  }

  /** The three waypoints a publication passes, in order, before it can report success. */
  ghost predicate Confirmed(events: seq<Event>, i: nat, j: nat) {
    i < j < |events| && events[i] == BeforeChecked(true) && events[j] == CallbackSettled(CallbackOk)
  }

  /** From event `i` to the end of the run one publication is active throughout: none settles in between. */
  ghost predicate StaysActive(events: seq<Event>, i: nat) {
    forall k :: i <= k <= |events| ==> !Run(FRESH, events[..k]).publication.NoPublication?
  }

  /** Success means that, within the one publication that succeeds, ownership was
      confirmed before the callback ran, that the callback then succeeded, and that
      ownership is confirmed now. */
  lemma {:induction false} SuccessIsConfirmed(events: seq<Event>, e: Event)
    requires Succeeds(Run(FRESH, events), e)
    ensures exists i: nat, j: nat ::
              Confirmed(events, i, j) && InvokesCallback(Run(FRESH, events[..i]), events[i]) && StaysActive(events, i)
    ensures e == AfterChecked(true)
  {
    var j := LastChange(events);
    assert Run(FRESH, events[..j]).publication == InCallback && events[j] == CallbackSettled(CallbackOk);
    var i := LastChange(events[..j]);
    assert events[..j][..i] == events[..i];
    forall k | i <= k <= |events| ensures !Run(FRESH, events[..k]).publication.NoPublication? {
      if k <= j { assert events[..j][..k] == events[..k]; }
    }
    assert Confirmed(events, i, j);
  }

  /** The index of the step that last moved the publication. */
  lemma {:induction false} LastChange(events: seq<Event>) returns (k: nat)
    requires Run(FRESH, events).publication != NoPublication
    ensures k < |events| && Run(FRESH, events[..k]).publication != Run(FRESH, events).publication
    ensures Step(Run(FRESH, events[..k]), events[k]).publication == Run(FRESH, events).publication
    ensures forall m :: k < m <= |events| ==> Run(FRESH, events[..m]).publication == Run(FRESH, events).publication
    decreases |events|
  {
    assert events != [] && events[..|events|] == events;
    var n := |events| - 1;
    RunSplits(FRESH, events);
    if Run(FRESH, events[..n]).publication != Run(FRESH, events).publication {
      k := n;
    } else {
      k := LastChange(events[..n]);
      assert events[..n][..k] == events[..k];
      assert forall m :: 0 <= m <= n ==> events[..n][..m] == events[..m];
    }
  }

  lemma {:induction false} RunSplits(s: State, events: seq<Event>)
    ensures events != [] ==> Run(s, events) == Step(Run(s, events[..|events| - 1]), events[|events| - 1])
    decreases |events|
  {
    if |events| > 1 {
      RunSplits(Step(s, events[0]), events[1..]);
      assert events[1..][..|events| - 2] == events[..|events| - 1][1..];
    }
  }

  /** After a publication ended ambiguously, no callback is ever invoked again. */
  lemma AmbiguityIsFinal(s: State, e: Event, later: seq<Event>, next: Event)
    requires Inv(s) && EndsAmbiguously(s, e)
    ensures !InvokesCallback(Run(Step(s, e), later), next)
  {
    LifecycleMovesForward(Step(s, e), later);
  }

  /** An ownership check, of a publication or of an assertion, answers that the endpoint is not owned. */
  predicate FindsLoss(s: State, e: Event) {
    || (e == BeforeChecked(false) && s.publication.ConfirmingBefore?)
    || (e == AfterChecked(false) && s.publication.ConfirmingAfter?)
    || e == AssertSettled(false)
  }

  predicate GrantsPermit(s: State, e: Event) {
    e.RequestPermit? && s.publication.NoPublication? && !Step(s, e).publication.NoPublication?
  }

  /** After any check that found the ownership lost, no permit is granted and no
      callback invoked, not even for a publication that was already admitted. */
  lemma LossIsFinal(s: State, e: Event, later: seq<Event>, next: Event)
    requires FindsLoss(s, e)
    ensures var t := Run(Step(s, e), later); !GrantsPermit(t, next) && !InvokesCallback(t, next)
  {
    LifecycleMovesForward(Step(s, e), later);
  }

  /** Event `k` found the loss that the lease is in. */
  ghost predicate LostAt(events: seq<Event>, k: nat) {
    k < |events| && FindsLoss(Run(FRESH, events[..k]), events[k])
    && Rank(Run(FRESH, events[..k]).lifecycle) < 2
  }

  lemma ErrorMoves(s: State, e: Event)
    ensures var t := Step(s, e);
            || (t.lifecycle == s.lifecycle && t.lifecycleError == s.lifecycleError)
            || (t.lifecycle.Lost? && FindsLoss(s, e) && Rank(s.lifecycle) < 2
                && t.lifecycleError == Some(if e.AfterChecked? then AmbiguousPublication else OwnershipLost))
            || (t.lifecycle.Closing? && t.lifecycleError == Some(Closed))
            || (t.lifecycle.Released? && t.lifecycleError == Some(ReleasedError))
  {}

  /** A lost lease names its first loss to every later caller: an ambiguous publication if and
      only if the check after a callback found it; a lease that is not lost names no loss. */
  lemma {:induction false} LossIsNamed(events: seq<Event>)
    ensures var s := Run(FRESH, events);
            && (s.lifecycle.Lost? ==>
                  exists k: nat :: LostAt(events, k) &&
                    s.lifecycleError == Some(if events[k].AfterChecked? then AmbiguousPublication else OwnershipLost))
            && (s.lifecycle.Active? <==> s.lifecycleError.None?)
            && (s.lifecycle.Closing? ==> s.lifecycleError == Some(Closed))
            && (s.lifecycle.Released? ==> s.lifecycleError == Some(ReleasedError))
    decreases |events|
  {
    if events != [] {
      var n := |events| - 1;
      LossIsNamed(events[..n]);
      RunSplits(FRESH, events);
      var before := Run(FRESH, events[..n]);
      ErrorMoves(before, events[n]);
      hide Step, FindsLoss;
      if before.lifecycle.Lost? {
        var k: nat :| LostAt(events[..n], k) &&
          before.lifecycleError == Some(if events[..n][k].AfterChecked? then AmbiguousPublication else OwnershipLost);
        assert events[..n][..k] == events[..k] && LostAt(events, k);
      } else if Run(FRESH, events).lifecycle.Lost? {
        assert LostAt(events, n);
      }
    }
  }

  /** What ends publishing for good: lost ownership, an ambiguous outcome, poison, shutdown or release. */
  predicate EndsPublishing(s: State, e: Event) {
    || FindsLoss(s, e) || EndsAmbiguously(s, e) || e.Poison? || e.CloseAdmission?
    || (e.MarkReleased? && s.publication.NoPublication?)
  }

  ghost predicate EndedBefore(events: seq<Event>) {
    exists k: nat :: k < |events| && EndsPublishing(Run(FRESH, events[..k]), events[k])
  }

  lemma EndedLater(events: seq<Event>, e: Event)
    ensures EndedBefore(events + [e]) <==> EndedBefore(events) || EndsPublishing(Run(FRESH, events), e)
  {
    hide Run, EndsPublishing;
    var all := events + [e];
    assert all[..|events|] == events && all[|events|] == e;
    if EndedBefore(all) {
      var k: nat :| k < |all| && EndsPublishing(Run(FRESH, all[..k]), all[k]);
      assert k < |events| ==> all[..k] == events[..k];
    }
    if EndedBefore(events) {
      var k: nat :| k < |events| && EndsPublishing(Run(FRESH, events[..k]), events[k]);
      assert all[..k] == events[..k] && all[k] == events[k];
    }
  }

  /** In every interleaving the lease may publish exactly as long as nothing ended that. */
  lemma {:induction false} PublishableExactly(events: seq<Event>)
    ensures MayPublish(Run(FRESH, events)) <==> !EndedBefore(events)
    decreases |events|
  {
    if events != [] {
      var n := |events| - 1;
      PublishableExactly(events[..n]);
      RunSplits(FRESH, events);
      EndedLater(events[..n], events[n]);
      assert events[..n] + [events[n]] == events;
    }
  }

  /** In every interleaving: a permit is granted exactly when nothing has ended publishing
      and no publication is active, and a callback is invoked exactly when the first
      check of the admitted one confirms ownership while nothing has. */
  lemma PermitsExactly(events: seq<Event>, owned: bool)
    ensures var s := Run(FRESH, events);
            && (GrantsPermit(s, RequestPermit) <==> !EndedBefore(events) && s.publication.NoPublication?)
            && (Step(s, BeforeChecked(owned)).publication.InCallback? && !s.publication.InCallback?
                <==> owned && s.publication.ConfirmingBefore? && !EndedBefore(events))
  {
    PublishableExactly(events);
  }

  /** What refuses success to a callback that went well: ownership lost, or poison. */
  predicate Spoils(s: State, e: Event) {
    FindsLoss(s, e) || EndsAmbiguously(s, e) || e.Poison? || (e.MarkReleased? && s.publication.NoPublication?)
  }

  ghost predicate SpoiltBefore(events: seq<Event>) {
    exists k: nat :: k < |events| && Spoils(Run(FRESH, events[..k]), events[k])
  }

  lemma SpoiltLater(events: seq<Event>, e: Event)
    ensures SpoiltBefore(events + [e]) <==> SpoiltBefore(events) || Spoils(Run(FRESH, events), e)
  {
    hide Run, Spoils;
    var all := events + [e];
    assert all[..|events|] == events && all[|events|] == e;
    if SpoiltBefore(all) {
      var k: nat :| k < |all| && Spoils(Run(FRESH, all[..k]), all[k]);
      assert k < |events| ==> all[..k] == events[..k];
    }
    if SpoiltBefore(events) {
      var k: nat :| k < |events| && Spoils(Run(FRESH, events[..k]), events[k]);
      assert all[..k] == events[..k] && all[k] == events[k];
    }
  }

  lemma {:induction false} SpoiltExactly(events: seq<Event>)
    ensures SpoiltBefore(events) <==>
              Run(FRESH, events).lifecycle.Lost? || Run(FRESH, events).lifecycle.Released? || Run(FRESH, events).poisoned
    decreases |events|
  {
    if events != [] {
      var n := |events| - 1;
      SpoiltExactly(events[..n]);
      RunSplits(FRESH, events);
      SpoiltLater(events[..n], events[n]);
      assert events[..n] + [events[n]] == events;
    }
  }

  /** In every interleaving a publication succeeds exactly when its callback did, the
      second check confirms ownership, and nothing before had lost ownership, left an
      outcome ambiguous or poisoned the lease; shutdown alone does not undo it. */
  lemma SucceedsExactly(events: seq<Event>, e: Event)
    ensures Succeeds(Run(FRESH, events), e) <==>
              e == AfterChecked(true) && Run(FRESH, events).publication == ConfirmingAfter(CallbackOk) && !SpoiltBefore(events)
  {
    SpoiltExactly(events);
  }

  /** Each answer moves the publication on, and either check's refusal or the second
      check's answer returns the permit and releases whoever waits for it. */
  lemma AnswersMoveOn(s: State, owned: bool, result: CallbackResult)
    ensures s.publication.InCallback? ==> Step(s, CallbackSettled(result)).publication == ConfirmingAfter(result)
    ensures s.publication.ConfirmingAfter? ==>
              var t := Step(s, AfterChecked(owned)); t.publication.NoPublication? && t.waiters == {}
    ensures s.publication.ConfirmingBefore? ==>
              var t := Step(s, BeforeChecked(owned)); (t.publication.NoPublication? && t.waiters == {}) || (owned && t.publication.InCallback?)
  {}

  /** The running publication's callback returned and the second ownership check settles it. */
  predicate Settles(s: State, e: Event) {
    s.publication.ConfirmingAfter? && e.AfterChecked?
  }

  ghost predicate SettlesAt(s: State, events: seq<Event>, k: nat) {
    k < |events| && Settles(Run(s, events[..k]), events[k])
  }

  /** Callbacks never overlap: between any two invocations the first publication
      settled, its ownership confirmed or refused a second time. */
  lemma {:induction false} CallbacksNeverOverlap(s: State, e: Event, between: seq<Event>, next: Event)
    requires InvokesCallback(s, e) && InvokesCallback(Run(Step(s, e), between), next)
    ensures exists k: nat :: SettlesAt(Step(s, e), between, k)
  {
    FindSettlement(Step(s, e), between);
  }

  lemma {:induction false} FindSettlement(s: State, events: seq<Event>)
    requires s.publication.InCallback? || s.publication.ConfirmingAfter?
    requires !(Run(s, events).publication.InCallback? || Run(s, events).publication.ConfirmingAfter?)
    ensures exists k: nat :: SettlesAt(s, events, k)
    decreases |events|
  {
    if Settles(s, events[0]) {
      assert SettlesAt(s, events, 0);
    } else {
      FindSettlement(Step(s, events[0]), events[1..]);
      var k: nat :| SettlesAt(Step(s, events[0]), events[1..], k);
      assert events[..k + 1][1..] == events[1..][..k];
      assert SettlesAt(s, events, k + 1);
    }
  }
}
