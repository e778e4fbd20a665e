/** When a start accepts what a power loss left, told from the events of the run:
    which writes ended unconfirmed, and what was synced since. */
module CandidateRestarts {
  import opened Outcomes
  import opened UnsyncedFiles
  import opened CandidateStores
  import opened CandidateVersions
  import opened CandidateCoordinators
  import opened CandidateSafety
  import opened CandidateResults

  // ---- What a step does to the operation files ----

  /** How the step's operation write ends, if it has one. */
  function OperationFault(e: Event): WriteFault {
    match e
    case Start(_, _, _, _, fault) => fault
    case CheckFails(_, _, fault) => fault
    case CheckPasses(_, _, fault) => fault
    case RetireUnlaunched(_, fault) => fault
    case FailUnlaunched(_, fault) => fault
    case PublishOuter(_, _, fault) => fault
    case ReadEvidence(_, _, fault) => fault
    case ReplaceStatus(fault) => fault
    case HandleCaught(_, fault) => fault
    case RejectCompletion(_, _, fault) => fault
    case Conclude(_, _, fault) => fault
    case _ => NoFault
  }

  /** An operation file is created or replaced. */
  ghost predicate Writes(s: State, e: Event)
    requires Carried(s)
  {
    !e.PowerLoss? && Step(s, e).store.ops != s.store.ops
  }

  /** Afterwards every operation file is durable: a write completed, a restart swept the
      directory, or power was lost and what is left is left. */
  ghost predicate Syncs(s: State, e: Event)
    requires Carried(s)
  {
    e.PowerLoss? || (e.Open? && !s.ready && e.sweptOps) || (Writes(s, e) && OperationFault(e).NoFault?)
  }

  /** What a write may end for good: that an operation bars others, that it has no invocation. */
  datatype Trait = Barring | Uninvoked

  predicate Has(t: Trait, v: Option<Operation>) {
    match t
    case Barring => v.Some? && IsBarrier(v.value)
    case Uninvoked => v.None? || v.value.invocation.None?
  }

  /** The step's write ends the trait of operation `k`, unconfirmed. */
  ghost predicate Ends(s: State, e: Event, t: Trait, k: Key)
    requires Carried(s)
  {
    && Writes(s, e) && OperationFault(e).Unconfirmed?
    && Has(t, VersionOf(s.store.ops, k)) && !Has(t, VersionOf(Step(s, e).store.ops, k))
  }

  /** The step creates operation `k`, unconfirmed. */
  ghost predicate Creates(s: State, e: Event, k: Key)
    requires Carried(s)
  {
    Writes(s, e) && OperationFault(e).Unconfirmed? && k !in s.store.ops && k in Step(s, e).store.ops
  }

  // ---- What a run did and has not synced since ----

  ghost function At(events: seq<Event>, i: nat): (s: State)
    requires i <= |events|
    ensures Carried(s)
  {
    Run(FRESH, events[..i])
  }

  ghost predicate UnsyncedSince(events: seq<Event>, i: nat) {
    forall c :: i < c < |events| ==> !Syncs(At(events, c), events[c])
  }

  ghost predicate EndsAt(events: seq<Event>, i: nat, t: Trait, k: Key)
    requires i < |events|
  {
    Ends(At(events, i), events[i], t, k)
  }

  /** An unconfirmed write ended the trait of operation `k`, and nothing synced it since. */
  ghost predicate EndedUnsynced(events: seq<Event>, t: Trait, k: Key) {
    exists i :: 0 <= i < |events| && EndsAt(events, i, t, k) && UnsyncedSince(events, i)
  }

  /** After such a write to a barrier another operation was created, unconfirmed as well. */
  ghost predicate CreatesOver(events: seq<Event>, b: nat)
    requires b < |events|
  {
    (exists k :: Creates(At(events, b), events[b], k)) && exists j :: EndedUnsynced(events[..b], Barring, j)
  }

  ghost predicate CreatedOverEnding(events: seq<Event>) {
    exists b :: 0 <= b < |events| && CreatesOver(events, b) && UnsyncedSince(events, b)
  }

  lemma AtBefore(events: seq<Event>, n: nat, i: nat)
    requires i <= n <= |events|
    ensures At(events[..n], i) == At(events, i)
  {
    assert events[..n][..i] == events[..i];
  }

  lemma AtNext(events: seq<Event>, n: nat)
    requires n < |events|
    ensures At(events, n + 1) == Step(At(events, n), events[n])
  {
    hide Step;
    assert events[..n + 1] == events[..n] + [events[n]];
    RunConcat(FRESH, events[..n], [events[n]]);
    RunStep(At(events, n), events[n], Step(At(events, n), events[n]), []);
    assert [events[n]] + [] == [events[n]];
  }

  lemma SinceBefore(events: seq<Event>, i: nat)
    requires i < |events| - 1
    ensures UnsyncedSince(events, i) <==>
              UnsyncedSince(events[..|events| - 1], i) && !Syncs(At(events, |events| - 1), events[|events| - 1])
  {
    hide Syncs, At;
    var n := |events| - 1;
    var before := events[..n];
    assert forall c :: 0 <= c < n ==> before[c] == events[c];
    forall c: nat | c < n ensures At(before, c) == At(events, c) { AtBefore(events, n, c); }
  }

  /** The last event either syncs, or adds at most itself to what is open. */
  lemma EndedLast(events: seq<Event>, t: Trait, k: Key)
    requires events != []
    ensures var n := |events| - 1;
            EndedUnsynced(events, t, k) <==>
              if Syncs(At(events, n), events[n]) then EndsAt(events, n, t, k)
              else EndedUnsynced(events[..n], t, k) || EndsAt(events, n, t, k)
  {
    hide Syncs, Ends, At;
    var n := |events| - 1;
    var before := events[..n];
    forall i: nat | i < n
      ensures EndsAt(before, i, t, k) <==> EndsAt(events, i, t, k)
      ensures UnsyncedSince(events, i) <==> UnsyncedSince(before, i) && !Syncs(At(events, n), events[n])
    {
      AtBefore(events, n, i);
      SinceBefore(events, i);
    }
    hide EndsAt;
    assert UnsyncedSince(events, n);
    hide UnsyncedSince;
  }

  lemma CreatedLast(events: seq<Event>)
    requires events != []
    ensures var n := |events| - 1;
            CreatedOverEnding(events) <==>
              if Syncs(At(events, n), events[n]) then CreatesOver(events, n)
              else CreatedOverEnding(events[..n]) || CreatesOver(events, n)
  {
    hide Syncs, Creates, At, EndedUnsynced;
    var n := |events| - 1;
    var before := events[..n];
    forall b: nat | b < n
      ensures CreatesOver(before, b) <==> CreatesOver(events, b)
      ensures UnsyncedSince(events, b) <==> UnsyncedSince(before, b) && !Syncs(At(events, n), events[n])
    {
      AtBefore(events, n, b);
      SinceBefore(events, b);
      assert before[..b] == events[..b];
    }
    hide CreatesOver;
    assert UnsyncedSince(events, n);
    hide UnsyncedSince;
  }

  // ---- The same, of the files ----

  /** The trait has ended, but a power loss may bring it back. */
  ghost predicate TraitOpen(s: Store, t: Trait, k: Key) {
    && k in s.ops && !Has(t, Some(s.ops[k]))
    && k in s.looseOps && exists v :: v in s.looseOps[k] && Has(t, v)
  }

  /** One operation file was written. */
  ghost predicate WrittenTo(s: Store, u: Store, k: Key, o: Operation, fault: WriteFault) {
    && u.ops == s.ops[k := o] && u.ops != s.ops && !fault.NotWritten?
    && u.looseOps == if fault.NoFault? then map[] else Overwritten(s.ops, s.looseOps, k)
  }

  ghost predicate SomethingWritten(s: Store, u: Store, fault: WriteFault) {
    exists k, o :: k in s.ops && WrittenTo(s, u, k, o, fault)
  }

  ghost predicate Untouched(s: Store, u: Store) {
    u.ops == s.ops && u.looseOps == s.looseOps
  }

  lemma PutIsWritten(s: Store, k: Key, o: Operation, fault: WriteFault)
    requires k in s.ops
    ensures var u := PutOperation(s, k, o, fault).store; Untouched(s, u) || WrittenTo(s, u, k, o, fault) || s.ops[k] == o
  {
    if s.ops[k := o] == s.ops { assert s.ops[k := o][k] == o; }
  }

  lemma MovedIsWritten(s: State, c: Operation, next: Option<Operation>, fault: WriteFault, after: Stage)
    requires c.request.key in s.store.ops
    ensures var u := Moved(s, c, next, fault, after).store; Untouched(s.store, u) || SomethingWritten(s.store, u, fault)
  {
    hide OperationOk, PutOperation;
    if next.Some? { PutIsWritten(s.store, c.request.key, next.value, fault); }
  }

  /** A serving daemon's step writes at most one operation file, and creates one only when none bars it. */
  ghost predicate Created(s: Store, u: Store, fault: WriteFault) {
    && (forall j :: j in s.ops ==> !IsBarrier(s.ops[j]))
    && exists k, o: Operation :: k !in s.ops && o.status.phase.Prepared? && o.invocation.None? && WrittenTo(s, u, k, o, fault)
  }

  lemma StartShape(s: State, e: Event)
    requires Carried(s) && e.Start?
    ensures var u := Step(s, e).store; Untouched(s.store, u) || Created(s.store, u, OperationFault(e))
  {
    hide IsBarrier, Overwritten;
    var record := NewOperation(e.request, e.workspace, e.runId, e.now);
    var u := Step(s, e).store;
    if !Untouched(s.store, u) { assert WrittenTo(s.store, u, e.request.key, record, e.fault); }
  }

  lemma CheckShape(s: State, e: Event)
    requires Carried(s) && (e.CheckFails? || e.CheckPasses?)
    ensures var u := Step(s, e).store; Untouched(s.store, u) || SomethingWritten(s.store, u, OperationFault(e))
  {
    hide Moved, SettledRecord, StartedRecord, SomethingWritten;
    if s.stage.Checking? {
      var c := s.stage.current;
      MovedIsWritten(s, c, FailedRecord(c, e.now, if e.CheckFails? && e.changed then CandidateChanged else NotInvoked), e.fault, Idle);
      if e.CheckPasses? {
        var next := StartedRecord(c, e.now, e.deadlineAt);
        MovedIsWritten(s, c, next, e.fault, if next.Some? then Launching(next.value) else Idle);
      }
    }
  }

  lemma LaunchShape(s: State, e: Event)
    requires Carried(s) && (e.RetireUnlaunched? || e.FailUnlaunched? || e.PublishOuter?)
    ensures var u := Step(s, e).store; Untouched(s.store, u) || SomethingWritten(s.store, u, OperationFault(e))
  {
    hide Moved, SettledRecord, SomethingWritten, RetiredRecord, OuterRecord;
    if e.RetireUnlaunched? && s.stage.Unlaunched? {
      var next := RetiredRecord(s.stage.current, SpawnFailed, e.now);
      MovedIsWritten(s, s.stage.current, next, e.fault, if next.Some? then FailingUnlaunched(next.value) else Idle);
    } else if e.FailUnlaunched? && s.stage.FailingUnlaunched? {
      MovedIsWritten(s, s.stage.current, FailedRecord(s.stage.current, e.now, LaunchFailed), e.fault, Idle);
    } else if e.PublishOuter? && s.stage.Launched? {
      MovedIsWritten(s, s.stage.current, OuterRecord(s.stage.current, e.pid, e.now), e.fault, Idle);
    }
  }

  lemma ConcludeShape(s: State, e: Event)
    requires Carried(s) && e.Conclude?
    ensures var u := Step(s, e).store; Untouched(s.store, u) || SomethingWritten(s.store, u, OperationFault(e))
  {
    hide Moved, SettledRecord, SomethingWritten, RetiredRecord;
    if s.stage.Concluding? {
      var c := s.stage.current;
      var retired := RetiredRecord(c, TreeRetired, e.now);
      MovedIsWritten(s, c, FailedRecord(c, e.now, NotInvoked), e.fault, Idle);
      MovedIsWritten(s, c, UncertainRecord(c, e.now, OutcomeUnknown), e.fault, Idle);
      MovedIsWritten(s, c, retired, e.fault, if retired.Some? then Concluding(retired.value) else Idle);
    }
  }

  lemma ReconcileShape(s: State, e: Event)
    requires Carried(s) && (e.HandleCaught? || e.RejectCompletion?)
    ensures var u := Step(s, e).store; Untouched(s.store, u) || SomethingWritten(s.store, u, OperationFault(e))
  {
    hide Moved, SettledRecord, SomethingWritten, RetiredRecord;
    if e.HandleCaught? && s.stage.Caught? {
      var next := UncertainRecord(s.stage.current, e.now, ReceiptInvalid);
      MovedIsWritten(s, s.stage.current, next, e.fault, if next.Some? then Concluding(next.value) else Idle);
    } else if e.RejectCompletion? && Step(s, e) != s {
      MovedIsWritten(s, s.store.ops[e.key], UncertainRecord(s.store.ops[e.key], e.now, OutcomeUnknown), e.fault, Idle);
    }
  }

  lemma SameShape(s: Store, w: Store, u: Store, fault: WriteFault)
    requires s.ops == w.ops && s.looseOps == w.looseOps
    ensures SomethingWritten(w, u, fault) ==> SomethingWritten(s, u, fault)
  {
    if SomethingWritten(w, u, fault) {
      var k, o :| k in w.ops && WrittenTo(w, u, k, o, fault);
      assert WrittenTo(s, u, k, o, fault);
    }
  }

  lemma EvidenceShape(s: State, e: Event)
    requires Carried(s) && (e.ReadEvidence? || e.ReplaceStatus?)
    requires s.stage.Publishing? ==> s.stage.next != s.stage.current
    ensures var u := Step(s, e).store; Untouched(s.store, u) || SomethingWritten(s.store, u, OperationFault(e))
  {
    hide Moved, AdoptedRecord, EvidencedRecord, OperationOk, PutOperation;
    if e.ReplaceStatus? && s.stage.Publishing? {
      PutIsWritten(s.store, s.stage.current.request.key, s.stage.next, e.fault);
    } else if e.ReadEvidence? && s.stage.ReadingEvidence? && s.stage.current.request.key in s.store.receipts {
      var c := s.stage.current;
      var next := AdoptedRecord(s.store.receipts[c.request.key], c);
      if next.Some? {
        var w := PublishWrite(s.store, next.value, s.store.receipts[c.request.key].envelope, e.publishFault);
        MovedIsWritten(s.(store := w.store), c, next, e.fault, Concluding(next.value));
        SameShape(s.store, w.store, Moved(s.(store := w.store), c, next, e.fault, Concluding(next.value)).store, e.fault);
        hide SomethingWritten;
      }
    }
  }

  lemma StepShape(s: State, e: Event)
    requires Carried(s) && !e.PowerLoss? && !e.Open?
    requires s.stage.Publishing? ==> s.stage.next != s.stage.current
    ensures var u := Step(s, e).store;
            || Untouched(s.store, u) || SomethingWritten(s.store, u, OperationFault(e))
            || (e.Start? && Created(s.store, u, OperationFault(e)))
  {
    if e.Start? { StartShape(s, e); }
    else if e.CheckFails? || e.CheckPasses? { CheckShape(s, e); }
    else if e.RetireUnlaunched? || e.FailUnlaunched? || e.PublishOuter? { LaunchShape(s, e); }
    else if e.HandleCaught? || e.RejectCompletion? { ReconcileShape(s, e); }
    else if e.Conclude? { ConcludeShape(s, e); }
    else if e.ReadEvidence? || e.ReplaceStatus? { EvidenceShape(s, e); }
    hide SomethingWritten, Moved, StepEvidence, StepReplace, StepConclude;
  }

  // ---- One step, in both views ----

  /** A write to an existing operation that ended unconfirmed: a trait that ended stays ended. */
  lemma UnconfirmedTrait(s: Store, u: Store, k: Key, o: Operation, t: Trait, q: Key)
    requires k in s.ops && WrittenTo(s, u, k, o, Unconfirmed) && FilesInv(u) && forall j :: j in s.looseOps ==> j in s.ops
    ensures TraitOpen(u, t, q) <==>
              TraitOpen(s, t, q) || (Has(t, VersionOf(s.ops, q)) && !Has(t, VersionOf(u.ops, q)))
  {
    hide BarriersApart, OneBarrier, HasBarrier, IsBarrier, OperationOk, ReceiptsOk;
    if q == k {
      assert Some(s.ops[k]) in u.looseOps[k];
      assert OpMay(u, k, Some(s.ops[k])) && VersionOk(u, k, s.ops[k]);
    }
  }

  lemma CreatedTrait(s: Store, u: Store, k: Key, o: Operation, t: Trait, q: Key)
    requires k !in s.ops && o.status.phase.Prepared? && o.invocation.None? && WrittenTo(s, u, k, o, Unconfirmed)
    requires forall j :: j in s.looseOps ==> j in s.ops
    ensures TraitOpen(u, t, q) <==> TraitOpen(s, t, q)
    ensures !(Has(t, VersionOf(s.ops, q)) && !Has(t, VersionOf(u.ops, q)))
  {}

  lemma TraitStep(s: State, e: Event, t: Trait, q: Key)
    requires Inv(s) && Carried(s)
    ensures !(Syncs(s, e) && Ends(s, e, t, q))
    ensures TraitOpen(Step(s, e).store, t, q) <==> !Syncs(s, e) && (TraitOpen(s.store, t, q) || Ends(s, e, t, q))
  {
    InvParts(s);
    StepKeepsInv(s, e);
    InvParts(Step(s, e));
    hide Inv, Live, WorldOk, KeptDurably, KeptVisibly;
    var u := Step(s, e).store;
    if e.PowerLoss? || e.Open? {
      QuietStep(s, e);
      hide Step, FilesInv, Has;
    } else {
      PublishingChanges(s);
      StepShape(s, e);
      LooseIsVisible(s.store);
      hide Step, FilesInv, Has, Created;
      if Created(s.store, u, OperationFault(e)) && e.Start? {
        CreatedFacts(s.store, u, OperationFault(e), t, q);
      } else if SomethingWritten(s.store, u, OperationFault(e)) {
        var k, o :| k in s.store.ops && WrittenTo(s.store, u, k, o, OperationFault(e));
        if OperationFault(e).Unconfirmed? { UnconfirmedTrait(s.store, u, k, o, t, q); }
      }
    }
  }

  /** The status about to be written cites the receipt; the present one does not. */
  lemma PublishingChanges(s: State)
    requires Inv(s)
    ensures s.stage.Publishing? ==> s.stage.next != s.stage.current
  {
    if s.stage.Publishing? { CoreAt(s, s.stage.current); }
    hide Core, OperationOk;
  }

  lemma LooseIsVisible(s: Store)
    requires FilesInv(s)
    ensures forall j :: j in s.looseOps ==> j in s.ops
  {}

  lemma CreatedFacts(s: Store, u: Store, fault: WriteFault, t: Trait, q: Key)
    requires Created(s, u, fault) && forall j :: j in s.looseOps ==> j in s.ops
    ensures u.ops != s.ops && !fault.NotWritten? && (fault.NoFault? ==> u.looseOps == map[])
    ensures fault.Unconfirmed? ==> (TraitOpen(u, t, q) <==> TraitOpen(s, t, q))
    ensures fault.Unconfirmed? ==> !(Has(t, VersionOf(s.ops, q)) && !Has(t, VersionOf(u.ops, q)))
  {
    hide Has, TraitOpen;
    var k, o: Operation :| k !in s.ops && o.status.phase.Prepared? && o.invocation.None? && WrittenTo(s, u, k, o, fault);
    if fault.Unconfirmed? { CreatedTrait(s, u, k, o, t, q); }
  }

  lemma QuietStep(s: State, e: Event)
    requires Carried(s) && (e.PowerLoss? || e.Open?)
    ensures var u := Step(s, e).store;
            && (Syncs(s, e) ==> u.looseOps == map[])
            && (!Syncs(s, e) ==> Untouched(s.store, u))
  {
    hide MayLeave, StartAccepts;
  }

  lemma UnconfirmedOver(s: Store, u: Store, k: Key, o: Operation)
    requires k in s.ops && WrittenTo(s, u, k, o, Unconfirmed)
    requires BarriersApart(s) && forall q :: CreationOpen(s, q) ==> HasBarrier(s, q)
    ensures CreatedOverLifting(u) <==> CreatedOverLifting(s)
  {
    hide IsBarrier;
    forall q ensures CreationOpen(u, q) <==> CreationOpen(s, q) {}
    forall j ensures LiftingOpen(s, j) ==> LiftingOpen(u, j) {
      if LiftingOpen(s, j) {
        var v :| Some(v) in s.looseOps[j] && IsBarrier(v);
        assert Some(v) in u.looseOps[j];
      }
    }
    forall j | LiftingOpen(u, j) ensures LiftingOpen(s, j) || (j == k && HasBarrier(s, k)) {
      var v :| Some(v) in u.looseOps[j] && IsBarrier(v);
      assert OpMay(s, j, Some(v));
    }
    hide LiftingOpen, CreationOpen, HasBarrier;
  }

  lemma CreatedOver(s: Store, u: Store, k: Key, o: Operation)
    requires k !in s.ops && WrittenTo(s, u, k, o, Unconfirmed)
    requires (forall j :: j in s.looseOps ==> j in s.ops) && forall j :: j in s.ops ==> !IsBarrier(s.ops[j])
    ensures CreatedOverLifting(u) <==> CreatedOverLifting(s) || exists j :: TraitOpen(s, Barring, j)
  {
    hide IsBarrier;
    assert u.looseOps[k] == {None};
    assert CreationOpen(u, k) && !LiftingOpen(u, k);
    forall j | j != k ensures (LiftingOpen(u, j) <==> LiftingOpen(s, j)) && (CreationOpen(u, j) <==> CreationOpen(s, j)) {
      assert j in u.looseOps <==> j in s.looseOps;
      assert j in s.looseOps ==> u.looseOps[j] == s.looseOps[j];
    }
    forall j ensures LiftingOpen(s, j) <==> TraitOpen(s, Barring, j) {
      if LiftingOpen(s, j) {
        var v :| Some(v) in s.looseOps[j] && IsBarrier(v);
        assert Has(Barring, Some(v));
      }
    }
    hide LiftingOpen, CreationOpen, TraitOpen;
  }

  lemma CreationStep(s: State, e: Event)
    requires Inv(s) && Carried(s)
    ensures !(Syncs(s, e) && exists k :: Creates(s, e, k))
    ensures CreatedOverLifting(Step(s, e).store) <==>
              !Syncs(s, e) &&
              (|| CreatedOverLifting(s.store)
               || ((exists k :: Creates(s, e, k)) && exists j :: TraitOpen(s.store, Barring, j)))
  {
    hide Inv, WorldOk, TraitOpen, FilesInv, Live;
    InvParts(s);
    PublishingChanges(s);
    var u := Step(s, e).store;
    var fault := OperationFault(e);
    NothingOpen(u);
    SameOver(s.store, u);
    if e.PowerLoss? || e.Open? {
      QuietStep(s, e);
      hide Step;
    } else {
      StepShape(s, e);
      IdleIsUntouched(s, e);
      LooseIsVisible(s.store);
      hide Step;
      if Created(s.store, u, fault) && e.Start? {
        var k, o: Operation :| k !in s.store.ops && o.status.phase.Prepared? && o.invocation.None? && WrittenTo(s.store, u, k, o, fault);
        if fault.Unconfirmed? {
          CreatedOver(s.store, u, k, o);
          assert Creates(s, e, k);
        }
      } else if SomethingWritten(s.store, u, fault) {
        var k, o :| k in s.store.ops && WrittenTo(s.store, u, k, o, fault);
        if fault.Unconfirmed? {
          BarriersAreApart(s);
          UnconfirmedOver(s.store, u, k, o);
        }
      }
    }
  }

  lemma NothingOpen(s: Store)
    ensures s.looseOps == map[] ==> !CreatedOverLifting(s)
  {}

  lemma SameOver(s: Store, u: Store)
    ensures Untouched(s, u) ==> (CreatedOverLifting(u) <==> CreatedOverLifting(s))
  {
    hide IsBarrier;
    if Untouched(s, u) {
      forall k ensures (LiftingOpen(s, k) <==> LiftingOpen(u, k)) && (CreationOpen(s, k) <==> CreationOpen(u, k)) {}
      hide LiftingOpen, CreationOpen;
    }
  }

  /** A daemon that does not serve writes nothing. */
  lemma IdleIsUntouched(s: State, e: Event)
    requires Inv(s) && !e.PowerLoss? && !e.Open?
    ensures !s.ready ==> Step(s, e).store == s.store
  {
    if !s.ready && !e.Crash? { IdleKeepsInv(s, e); }
    hide Inv;
  }

  lemma BarriersAreApart(s: State)
    requires Live(s)
    ensures BarriersApart(s.store) && forall q :: CreationOpen(s.store, q) ==> HasBarrier(s.store, q)
  {
    AcceptedIsApart(s.store);
    hide Accepted, OneBarrier, BarriersApart, VersionOk, WorldOk, StageInv, CreationOpen, HasBarrier;
  }

  // ---- Runs ----

  /** A trait that ended can come back exactly when an unconfirmed write ended it and nothing synced since. */
  lemma {:induction false} OpenExactly(events: seq<Event>, t: Trait, k: Key)
    ensures TraitOpen(Run(FRESH, events).store, t, k) <==> EndedUnsynced(events, t, k)
    decreases |events|
  {
    hide TraitOpen, EndedUnsynced, Inv, Step, Syncs, Ends;
    if events == [] {
      NothingYet(t, k);
    } else {
      var n := |events| - 1;
      assert events[..n + 1] == events;
      OpenExactly(events[..n], t, k);
      EndedLast(events, t, k);
      AtNext(events, n);
      Reached(events[..n]);
      TraitStep(At(events, n), events[n], t, k);
    }
  }

  lemma NothingYet(t: Trait, k: Key)
    ensures !TraitOpen(FRESH.store, t, k) && !EndedUnsynced([], t, k) && !CreatedOverEnding([]) && !CreatedOverLifting(FRESH.store)
  {}

  lemma {:induction false} CreatedExactly(events: seq<Event>)
    ensures CreatedOverLifting(Run(FRESH, events).store) <==> CreatedOverEnding(events)
    decreases |events|
  {
    hide TraitOpen, EndedUnsynced, Inv, Step, Syncs, Creates, CreatedOverLifting, CreatedOverEnding;
    if events == [] {
      NothingYet(Barring, "");
    } else {
      var n := |events| - 1;
      assert events[..n + 1] == events;
      CreatedExactly(events[..n]);
      CreatedLast(events);
      AtNext(events, n);
      Reached(events[..n]);
      CreationStep(At(events, n), events[n]);
      forall j ensures TraitOpen(At(events, n).store, Barring, j) <==> EndedUnsynced(events[..n], Barring, j) {
        OpenExactly(events[..n], Barring, j);
      }
    }
  }

  lemma AheadExactly(s: State, k: Key)
    requires Live(s)
    ensures EvidenceAhead(s.store, k) <==> k in s.store.receipts && TraitOpen(s.store, Uninvoked, k)
  {
    LiveIsAccepted(s);
    if k in s.store.receipts { assert ReceiptFits(s.store, k); }
    hide Live, ReceiptOk, IsBarrier;
  }

  lemma LaunchedIsInvoked(s: Store, launched: seq<Key>, alive: set<Key>, k: Key)
    requires WorldOk(s, launched, alive) && k in launched
    ensures !TraitOpen(s, Uninvoked, k)
  {
    hide NoRepeats;
    assert forall v :: k in s.looseOps && v in s.looseOps[k] ==> OpMay(s, k, v);
  }

  /** After a process death a start accepts the files. After a power loss it accepts
      whatever was left, if and only if, since the operations were last synced, no
      operation was created after a write that lifted the barrier of another one, both
      unconfirmed, and no published evidence belongs to an invocation written
      unconfirmed; the evidence of a launched operation never does. */
  lemma StartAcceptsExactly(events: seq<Event>)
    ensures var s := Run(FRESH, events);
            s.ready ==>
              && StartAccepts(s.store)
              && ((forall left :: Leaves(s.store, left) ==> StartAccepts(left))
                  <==> !CreatedOverEnding(events) && forall k :: k in s.store.receipts ==> !EndedUnsynced(events, Uninvoked, k))
              && (forall k :: k in s.launched ==> !EndedUnsynced(events, Uninvoked, k))
  {
    Reached(events);
    var s := Run(FRESH, events);
    CreatedExactly(events);
    hide Inv, Run, CreatedOverEnding, EndedUnsynced, CreatedOverLifting, EvidenceAhead, TraitOpen;
    if s.ready {
      assert StartAccepts(s.store) by { SizesOf(s.store); LiveIsAccepted(s); hide FilesInv, WorldOk, Accepted, Live; }
      hide FilesInv, StartAccepts, Leaves, Live;
      AcceptsExactly(s.store);
      forall k ensures EvidenceAhead(s.store, k) <==> k in s.store.receipts && EndedUnsynced(events, Uninvoked, k) {
        AheadExactly(s, k);
        OpenExactly(events, Uninvoked, k);
      }
      forall k | k in s.launched ensures !EndedUnsynced(events, Uninvoked, k) {
        LaunchedIsInvoked(s.store, s.launched, s.alive, k);
        OpenExactly(events, Uninvoked, k);
      }
      hide WorldOk;
    }
  }
}
