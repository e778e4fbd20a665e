/** What candidate evaluation promises, over every run of starts, polls, closes,
    process deaths, power losses and restarts. */
module CandidateResults {
  import opened Outcomes
  import opened UnsyncedFiles
  import opened CandidateStores
  import opened CandidateVersions
  import opened CandidateCoordinators
  import opened CandidateSafety

  lemma FreshIsInv()
    ensures Inv(FRESH)
  {}

  lemma Reached(events: seq<Event>)
    ensures var s := Run(FRESH, events); Inv(s) && FilesInv(s.store) && WorldOk(s.store, s.launched, s.alive) && (s.ready ==> Live(s))
  {
    FreshIsInv();
    RunKeepsInv(FRESH, events);
    InvParts(Run(FRESH, events));
    hide Inv, Run, FilesInv, WorldOk;
  }

  // ---- Launches ----

  lemma LaunchesAlone(s: State, e: Event)
    requires Inv(s) && Step(s, e).launched != s.launched
    ensures s.ready && s.stage.Launching? && Step(s, e).launched == s.launched + [s.stage.current.request.key]
  {
    hide FilesInv, WorldOk, Accepted, Moved, StepEvidence, StepReplace, StepConclude, StageInv, Leaves, StartAccepts;
  }

  /** Whatever happened before, a launch is the only one its operation ever gets; every
      power loss keeps the invocation it follows; and every earlier invocation has
      retirement evidence, even one that settled passed: no other process tree is running. */
  lemma LaunchIsExclusive(events: seq<Event>, e: Event)
    ensures var s := Run(FRESH, events);
            Step(s, e).launched != s.launched ==>
              && s.stage.Launching? && Step(s, e).launched == s.launched + [s.stage.current.request.key]
              && s.stage.current.request.key !in s.launched && s.alive == {}
              && Current(s, s.stage.current) && s.stage.current.invocation.Some?
              && (forall left :: MayLeave(s.store.ops, s.store.looseOps, left) ==> left == s.store.ops)
              && forall j :: j in s.store.ops && j != s.stage.current.request.key && s.store.ops[j].invocation.Some? ==>
                   s.store.ops[j].invocation.value.retirement.Some?
  {
    Reached(events);
    var s := Run(FRESH, events);
    hide Run, Inv, FilesInv, WorldOk, Step, Core;
    if Step(s, e).launched != s.launched {
      LaunchesAlone(s, e);
      LaunchIsAlone(s, s.stage.current);
      forall left | MayLeave(s.store.ops, s.store.looseOps, left) ensures left == s.store.ops { SameVersions(s.store.ops, left); }
      hide MayLeave;
    }
  }

  /** Each operation is launched at most once, and at most one process tree runs at a time. */
  lemma AtMostOneLaunch(events: seq<Event>)
    ensures var s := Run(FRESH, events);
            NoRepeats(s.launched) && forall j, k :: j in s.alive && k in s.alive ==> j == k
  {
    Reached(events);
    hide Inv, FilesInv, Run, OpMay, Live;
  }

  // ---- Evidence before status ----

  /** Whatever version of an operation a power loss may leave: if evidence backs its
      status, every power loss keeps that evidence, with the same status. */
  lemma EvidenceBeforeStatus(events: seq<Event>, k: Key, o: Operation)
    ensures var s := Run(FRESH, events).store;
            OpMay(s, k, Some(o)) && o.status.receipt.Some? ==>
              DurableReceipt(s, k) && s.receipts[k].status == o.status && s.receipts[k].envelope == o.status.receipt.value
  {
    Reached(events);
    var s := Run(FRESH, events).store;
    hide Inv, Run, WorldOk, Live;
    if OpMay(s, k, Some(o)) && o.status.receipt.Some? {
      assert VersionOk(s, k, o);
      assert Sealed(s.receipts[k]);
    }
  }

  lemma VisibleVersion(s: Store, k: Key)
    ensures OpMay(s, k, VersionOf(s.ops, k))
  {}

  /** Published evidence is immutable, and so is the status it backs: for good once
      they are durable, and until power is lost before that. */
  lemma EvidenceIsFinal(events: seq<Event>, later: seq<Event>, k: Key)
    ensures var s := Run(FRESH, events);
            var t := Run(s, later);
            && (k in s.store.receipts && (k !in s.store.looseReceipts || (s.ready && NoPowerLoss(later))) ==>
                  k in t.store.receipts && t.store.receipts[k] == s.store.receipts[k])
            && (k in s.store.ops && s.store.ops[k].status.receipt.Some? && (k !in s.store.looseOps || NoPowerLoss(later)) ==>
                  k in t.store.ops && t.store.ops[k].status == s.store.ops[k].status)
  {
    Reached(events);
    var s := Run(FRESH, events);
    RunKeepsInv(s, later);
    hide Inv, Run, FilesInv, WorldOk, Live, KeptDurably, KeptVisibly;
    if s.ready { LiveIsAccepted(s); ReceiptsHaveOperations(s.store); }
    if k in s.store.receipts { ReceiptIsFinal(s.store, Run(s, later).store, k); }
    if k in s.store.ops && s.store.ops[k].status.receipt.Some? { StatusIsFinal(s.store, Run(s, later).store, k); }
  }

  lemma ReceiptIsFinal(s: Store, t: Store, k: Key)
    requires KeptDurably(s, t) && k in s.receipts
    ensures k !in s.looseReceipts || (KeptVisibly(s, t) && k in s.ops) ==> k in t.receipts && t.receipts[k] == s.receipts[k]
  {
    hide Stands, NotBefore;
  }

  lemma StatusIsFinal(s: Store, t: Store, k: Key)
    requires KeptDurably(s, t) && k in s.ops && s.ops[k].status.receipt.Some?
    ensures k !in s.looseOps || KeptVisibly(s, t) ==> k in t.ops && t.ops[k].status == s.ops[k].status
  {
    if k !in s.looseOps {
      StandsAlone(s, k);
      VisibleVersion(t, k);
    }
    hide NotBefore, DurableReceipt;
  }

  lemma LiveIsAccepted(s: State)
    requires Live(s)
    ensures Accepted(s.store)
  {
    hide Accepted, FilesInv, WorldOk, StageInv;
  }

  /** A durable status is the only one its operation may be left with. */
  lemma StandsAlone(s: Store, k: Key)
    requires k in s.ops && k !in s.looseOps
    ensures Stands(s, k, s.ops[k].status) && NotBefore(s, k, s.ops[k].status.updatedAt)
  {}

  // ---- Restart ----

  /** A start that refuses durable files refuses them for ever. */
  lemma {:induction false} RefusedForGood(s: State, later: seq<Event>)
    requires !s.ready && s.stage.Idle? && s.store == Synced(s.store.ops, s.store.receipts) && !StartAccepts(s.store)
    ensures !Run(s, later).ready && Run(s, later).store == s.store
    decreases |later|
  {
    hide StartAccepts;
    if later != [] {
      RefusedStep(s, later[0]);
      hide Step;
      RefusedForGood(Step(s, later[0]), later[1..]);
    }
  }

  lemma RefusedStep(s: State, e: Event)
    requires !s.ready && s.stage.Idle? && s.store == Synced(s.store.ops, s.store.receipts) && !StartAccepts(s.store)
    ensures var t := Step(s, e); !t.ready && t.stage.Idle? && t.store == s.store
  {
    hide StartAccepts;
    if e.PowerLoss? && Leaves(s.store, e.left) {
      SameVersions(s.store.ops, e.left.ops);
      SameVersions(s.store.receipts, e.left.receipts);
    }
  }

  // One operation prepared and invoked; its launch fails and its retirement is left unsynced.
  function PreparedFirst(r: Request): Operation { NewOperation(r, "", 0, 0) }
  function InvokedFirst(r: Request): Operation { StartedRecord(PreparedFirst(r), 0, 9).value }
  function RetiredFirst(r: Request): Operation { RetiredRecord(InvokedFirst(r), SpawnFailed, 1).value }

  function OnlyOne(o: Operation, stage: Stage): State {
    State(Synced(map[o.request.key := o], map[]), true, stage, false, {}, [], {})
  }

  function Lifted(r: Request): State {
    OnlyOne(RetiredFirst(r), Idle).(
      store := Synced(map[r.key := RetiredFirst(r)], map[]).(looseOps := map[r.key := {Some(InvokedFirst(r))}]))
  }

  function Opened(): State { FRESH.(ready := true) }

  lemma OpeningSteps(r: Request)
    ensures Step(FRESH, Open(false, false)) == Opened()
    ensures Step(Opened(), Start(r, "", 0, 0, NoFault)) == OnlyOne(PreparedFirst(r), Checking(PreparedFirst(r)))
    ensures Step(OnlyOne(PreparedFirst(r), Checking(PreparedFirst(r))), CheckPasses(0, 9, NoFault))
         == OnlyOne(InvokedFirst(r), Launching(InvokedFirst(r)))
  {
    assert map[r.key := PreparedFirst(r)][r.key := InvokedFirst(r)] == map[r.key := InvokedFirst(r)];
  }

  lemma LiftingSteps(r: Request)
    ensures Step(OnlyOne(InvokedFirst(r), Launching(InvokedFirst(r))), Launch(false))
         == OnlyOne(InvokedFirst(r), Unlaunched(InvokedFirst(r)))
    ensures Step(OnlyOne(InvokedFirst(r), Unlaunched(InvokedFirst(r))), RetireUnlaunched(1, Unconfirmed)) == Lifted(r)
  {
    assert map[r.key := InvokedFirst(r)][r.key := RetiredFirst(r)] == map[r.key := RetiredFirst(r)];
  }

  function LiftingRun(r: Request): seq<Event> {
    [Open(false, false)] + ([Start(r, "", 0, 0, NoFault)] + ([CheckPasses(0, 9, NoFault)]
    + ([Launch(false)] + ([RetireUnlaunched(1, Unconfirmed)] + []))))
  }

  lemma RunStep(s: State, e: Event, t: State, rest: seq<Event>)
    requires Carried(s) && Step(s, e) == t
    ensures Run(s, [e] + rest) == Run(t, rest)
  {
    hide Step;
    assert ([e] + rest)[1..] == rest;
  }

  lemma LiftingRuns(r: Request)
    ensures Run(FRESH, LiftingRun(r)) == Lifted(r)
  {
    OpeningSteps(r);
    LiftingSteps(r);
    hide Step;
    var last := [RetireUnlaunched(1, Unconfirmed)] + [];
    RunStep(FRESH, Open(false, false), Opened(),
            [Start(r, "", 0, 0, NoFault)] + ([CheckPasses(0, 9, NoFault)] + ([Launch(false)] + last)));
    RunStep(Opened(), Start(r, "", 0, 0, NoFault), OnlyOne(PreparedFirst(r), Checking(PreparedFirst(r))),
            [CheckPasses(0, 9, NoFault)] + ([Launch(false)] + last));
    RunStep(OnlyOne(PreparedFirst(r), Checking(PreparedFirst(r))), CheckPasses(0, 9, NoFault),
            OnlyOne(InvokedFirst(r), Launching(InvokedFirst(r))), [Launch(false)] + last);
    RunStep(OnlyOne(InvokedFirst(r), Launching(InvokedFirst(r))), Launch(false),
            OnlyOne(InvokedFirst(r), Unlaunched(InvokedFirst(r))), last);
    RunStep(OnlyOne(InvokedFirst(r), Unlaunched(InvokedFirst(r))), RetireUnlaunched(1, Unconfirmed), Lifted(r), []);
  }

  // The failed write is reported and the process goes on: it sees no barrier, and creates a
  // second operation, whose creation is left unsynced too. Power is lost with only that kept.
  function SecondCreated(r: Request, q: Request): State {
    Lifted(r).(store := Store(map[r.key := RetiredFirst(r), q.key := PreparedFirst(q)], map[],
                              map[r.key := {Some(InvokedFirst(r))}, q.key := {None}], map[]))
  }

  function TwoBarriers(r: Request, q: Request): Store {
    Synced(map[r.key := InvokedFirst(r), q.key := PreparedFirst(q)], map[])
  }

  function CreationRun(r: Request, q: Request): seq<Event> {
    [Start(q, "", 0, 0, Unconfirmed)] + ([PowerLoss(TwoBarriers(r, q))] + [])
  }

  lemma CreationSteps(r: Request, q: Request)
    requires r.key != q.key
    ensures Step(Lifted(r), Start(q, "", 0, 0, Unconfirmed)) == SecondCreated(r, q)
  {
    hide StepEvidence, StepReplace, StepConclude, Moved, Leaves, StartAccepts;
    assert |Lifted(r).store.ops| == 1;
    assert map[r.key := RetiredFirst(r)][q.key := PreparedFirst(q)] == map[r.key := RetiredFirst(r), q.key := PreparedFirst(q)];
  }

  lemma TwoBarriersLeft(r: Request, q: Request)
    requires r.key != q.key
    ensures Leaves(SecondCreated(r, q).store, TwoBarriers(r, q)) && !StartAccepts(TwoBarriers(r, q))
  {
    assert IsBarrier(TwoBarriers(r, q).ops[r.key]) && IsBarrier(TwoBarriers(r, q).ops[q.key]);
  }

  lemma PowerLossSteps(s: State, left: Store)
    requires Carried(s) && s.stage.Idle? && Leaves(s.store, left)
    ensures Step(s, PowerLoss(left)) == s.(store := left, ready := false, closed := false, watched := {})
  {
    hide Leaves;
  }

  lemma {:induction false} RunConcat(s: State, first: seq<Event>, second: seq<Event>)
    requires Carried(s)
    ensures Run(s, first + second) == Run(Run(s, first), second)
    decreases |first|
  {
    hide Step;
    if first == [] {
      assert first + second == second;
    } else {
      assert (first + second)[1..] == first[1..] + second;
      RunConcat(Step(s, first[0]), first[1..], second);
    }
  }

  /** Such a power loss happens: after this run no start ever accepts the files again. */
  lemma PowerLossMayRefuse(r: Request, q: Request, later: seq<Event>)
    requires r.key != q.key
    ensures !Run(FRESH, LiftingRun(r) + CreationRun(r, q) + later).ready
    ensures var t := Run(FRESH, LiftingRun(r) + CreationRun(r, q) + later);
            r.key in t.store.ops && q.key in t.store.ops && IsBarrier(t.store.ops[r.key]) && IsBarrier(t.store.ops[q.key])
  {
    LiftingRuns(r);
    CreationSteps(r, q);
    TwoBarriersLeft(r, q);
    PowerLossSteps(SecondCreated(r, q), TwoBarriers(r, q));
    assert Step(SecondCreated(r, q), PowerLoss(TwoBarriers(r, q))) == FRESH.(store := TwoBarriers(r, q)) by { hide Step, Leaves, StartAccepts; }
    var refused := FRESH.(store := TwoBarriers(r, q));
    hide Step, Lifted, SecondCreated, StartAccepts;
    var last := [PowerLoss(TwoBarriers(r, q))] + [];
    RunStep(Lifted(r), Start(q, "", 0, 0, Unconfirmed), SecondCreated(r, q), last);
    RunStep(SecondCreated(r, q), PowerLoss(TwoBarriers(r, q)), refused, []);
    RunConcat(FRESH, LiftingRun(r), CreationRun(r, q));
    RunConcat(FRESH, LiftingRun(r) + CreationRun(r, q), later);
    RefusedForGood(refused, later);
  }
}
