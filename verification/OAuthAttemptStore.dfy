/** The compare-and-set journal of OAuth attempts. One record file per attempt
    digest; every mutation runs alone (the store's exclusive tail), so a method
    here is one critical section. The environment decides how each file
    replacement ends; what the file layer guarantees is proved in
    `AtomicDirectories`. */
module OAuthAttemptStores {
  import opened Outcomes
  import opened OAuthRecords

  const MAX_FILES := 128

  datatype WriteOutcome =
    | Committed      // visible and durable (or the existing file was confirmed durable)
    | NotWritten     // failed before the rename or link, or the confirmation failed: nothing changed
    | Uncertain      // visible, but its durability could not be confirmed

  datatype StoreError =
    | IdConflict | StorageFull | Invalid | CasConflict | CommitUncertain | NotInitialized | Missing | IoFailure

  type Files = map<Attempt, Record>

  // ---- Specification of one critical section ----

  /** Replacing `prev` by its successor under move `m`. */
  function Replaced(files: Files, prev: Record, m: Move, outcome: WriteOutcome): (Files, Result<Record, StoreError>) {
    if !Coherent(prev) || !Allowed(prev, m) then (files, Err(Invalid))
    else if prev.attempt !in files then (files, Err(Missing))
    else
      var next := Candidate(prev, m);
      var current := files[prev.attempt];
      if current == prev then
        match outcome
        case Committed => (files[prev.attempt := next], Ok(next))
        case NotWritten => (files, Err(IoFailure))
        case Uncertain => (files[prev.attempt := next], Err(IoFailure))
      else if current == next then (files, if outcome.Committed? then Ok(current) else Err(IoFailure))
      else (files, Err(CasConflict))
  }

  /** Admitting a new attempt; the flag says whether this call created the record. */
  function Admitted(files: Files, i: PrepareInput, outcome: WriteOutcome): (Files, Result<(Record, bool), StoreError>) {
    if i.expiresAt <= i.attempt.requestedAt || i.expiresAt <= i.observedAt then (files, Err(Invalid))
    else if i.attempt in files then
      if !SamePrepareInput(files[i.attempt], i) then (files, Err(IdConflict))
      else (files, if outcome.Committed? then Ok((files[i.attempt], false)) else Err(IoFailure))
    else if exists a :: a in files && (a.operationId == i.attempt.operationId || files[a].sessionId == i.sessionId)
      then (files, Err(IdConflict))
    else if exists a :: a in files && IsBarrier(files[a]) then (files, Err(IdConflict))
    else if |files| >= MAX_FILES then (files, Err(StorageFull))
    else if !PrepareInputValid(i) then (files, Err(Invalid))
    else
      match outcome
      case Committed => (files[i.attempt := OAuthRecords.Prepare(i)], Ok((OAuthRecords.Prepare(i), true)))
      case NotWritten => (files, Err(IoFailure))
      case Uncertain => (files[i.attempt := OAuthRecords.Prepare(i)], Err(IoFailure))
  }

  /** Acknowledgement by a caller that still holds the predecessor record. */
  function Acknowledged(
    files: Files, supplied: Record, digest: Terminal, at: Time, outcome: WriteOutcome
  ): (Files, Result<Record, StoreError>) {
    if !Coherent(supplied) || at < supplied.updatedAt then (files, Err(Invalid))
    else if supplied.attempt !in files then (files, Err(Missing))
    else
      var current := files[supplied.attempt];
      if current.terminal != Some(digest) then (files, Err(Invalid))
      else if current.acknowledgedAt.Some? then
        if !LegalTransition(supplied, current) || current.acknowledgedAt != Some(at) then (files, Err(CasConflict))
        else (files, if outcome.Committed? then Ok(current) else Err(IoFailure))
      else if current != supplied then (files, Err(CasConflict))
      else if at < digest.at then (files, Err(Invalid))
      else Replaced(files, current, Acknowledge(at), outcome)
  }

  /** Acknowledgement keyed by attempt identity and predecessor revision only. */
  function AttemptAcknowledged(
    files: Files, attempt: Attempt, expectedRevision: nat, digest: Terminal, at: Time, outcome: WriteOutcome
  ): (Files, Result<Record, StoreError>) {
    if attempt !in files then (files, Err(IdConflict))
    else
      var current := files[attempt];
      if current.terminal != Some(digest) then (files, Err(CasConflict))
      else if current.acknowledgedAt.Some? then
        if current.revision != expectedRevision + 1 || current.acknowledgedAt != Some(at)
        then (files, Err(CasConflict))
        else (files, if outcome.Committed? then Ok(current) else Err(IoFailure))
      else if current.revision != expectedRevision then (files, Err(CasConflict))
      else if at < digest.at then (files, Err(Invalid))
      else Replaced(files, current, Acknowledge(at), outcome)
  }

  predicate SamePrepareInput(r: Record, i: PrepareInput) {
    r.attempt == i.attempt && r.sessionId == i.sessionId && r.authorityId == i.authorityId && r.expiresAt == i.expiresAt
  }

  /** The outcome was acknowledged, and became final at least the retention period before. */
  predicate RetainedLongEnough(r: Record, now: Time) {
    TerminalPhase(r.phase) && r.acknowledgedAt.Some? && r.terminal.Some? && r.terminal.value.at + RETENTION_MS <= now
  }

  predicate Eligible(r: Record, now: Time) {
    && r.terminal.Some? && r.acknowledgedAt.Some?
    && r.acknowledgedAt.value <= now && r.terminal.value.at <= now
    && now - r.terminal.value.at >= RETENTION_MS
  }

  lemma EligibleIsRetained(r: Record, now: Time)
    requires Coherent(r)
    ensures Eligible(r, now) <==> RetainedLongEnough(r, now) && r.acknowledgedAt.value <= now
  {}

  predicate AtMostOneBarrier(files: Files) {
    forall a, b :: a in files && b in files && IsBarrier(files[a]) && IsBarrier(files[b]) ==> a == b
  }

  predicate WellFormed(files: Files) {
    forall a :: a in files ==> files[a].attempt == a && Coherent(files[a])
  }

  ghost predicate Successor(p: Record, n: Record) {
    exists m :: Advance(p, m) == Some(n)
  }

  /** A durable history: one record per revision, each the successor of the one before. */
  ghost predicate Chain(h: seq<Record>) {
    && h != [] && (forall k :: 0 <= k < |h| ==> Coherent(h[k]) && h[k].revision == h[0].revision + k)
    && (forall k :: 0 < k < |h| ==> Successor(h[k - 1], h[k]))
  }

  lemma ChainGrows(h: seq<Record>, next: Record, m: Move)
    requires Chain(h) && Advance(h[|h| - 1], m) == Some(next)
    ensures Chain(h + [next]) && Coherent(next) && next.attempt == h[|h| - 1].attempt
    ensures IsBarrier(next) ==> IsBarrier(h[|h| - 1])
  {
    assert Successor(h[|h| - 1], next);
    GuardsSuffice(h[|h| - 1], m);
  }

  type Histories = map<Attempt, seq<Record>>

  ghost predicate TrackedAt(r: Record, h: seq<Record>) {
    Chain(h) && h[|h| - 1] == r
  }

  /** The files are well formed and each one is the last record of its history. */
  ghost predicate Tracked(files: Files, history: Histories) {
    && files.Keys == history.Keys
    && forall a :: a in files ==> files[a].attempt == a && Coherent(files[a]) && TrackedAt(files[a], history[a])
  }

  lemma TrackedRecord(files: Files, history: Histories, a: Attempt)
    requires Tracked(files, history) && a in files
    ensures files[a].attempt == a && Coherent(files[a]) && a in history
  {}

  lemma ClassifiedBarriers(files: Files, history: Histories, at: Time)
    requires Tracked(files, history)
    ensures forall a :: a in files ==> (IsBarrier(ClassifyRestart(files[a], at)) <==> HelperMayAct(files[a].phase))
  {
    forall a | a in files ensures IsBarrier(ClassifyRestart(files[a], at)) <==> HelperMayAct(files[a].phase) {
      RestartIsLegalAndIdempotent(files[a], at, at);
    }
    hide Coherent, IsBarrier, ClassifyRestart, HelperMayAct, Chain;
  }

  lemma TrackedFresh(files: Files, history: Histories, i: PrepareInput)
    requires Tracked(files, history) && i.attempt !in files && PrepareInputValid(i)
    requires forall a :: a in files ==> !IsBarrier(files[a])
    ensures Tracked(files[i.attempt := OAuthRecords.Prepare(i)], history[i.attempt := [OAuthRecords.Prepare(i)]])
    ensures AtMostOneBarrier(files[i.attempt := OAuthRecords.Prepare(i)]) && i.attempt !in history
  {
    var record := OAuthRecords.Prepare(i);
    assert Coherent(record) && Chain([record]);
    hide Coherent, Chain, IsBarrier;
  }

  lemma TrackedWithout(files: Files, history: Histories, gone: set<Attempt>)
    requires Tracked(files, history)
    ensures Tracked(files - gone, history - gone)
    ensures AtMostOneBarrier(files) ==> AtMostOneBarrier(files - gone)
  {
    hide Coherent, Chain, IsBarrier;
  }

  lemma TrackedGrows(files: Files, history: Histories, a: Attempt, next: Record, m: Move)
    requires Tracked(files, history) && a in files && Advance(files[a], m) == Some(next)
    ensures Tracked(files[a := next], history[a := history[a] + [next]])
    ensures AtMostOneBarrier(files) ==> AtMostOneBarrier(files[a := next])
  {
    ChainGrows(history[a], next, m);
    hide Coherent, Chain, IsBarrier, Advance;
  }

  /** No durable record is ever rewritten: histories only get longer. */
  ghost predicate HistoryKept(before: Histories, after: Histories) {
    forall a :: a in before ==> a in after && before[a] <= after[a]
  }

  // ---- The store ----

  class OAuthAttemptStore {
    var files: Files
    var initialized: bool
    var compactionUncertain: bool
    var recordCommitUncertain: bool
    /** Every record each retained attempt has durably stood at since it was found or created. */
    ghost var history: map<Attempt, seq<Record>>

    ghost predicate Valid()
      reads this
    {
      Tracked(files, history) && (initialized ==> AtMostOneBarrier(files))
    }

    predicate Writable()
      reads this
    {
      initialized && !compactionUncertain && !recordCommitUncertain
    }

    /** Opens the store over the record files found on disk. */
    constructor (disk: Files)
      requires WellFormed(disk)
      ensures Valid() && files == disk && !initialized && !compactionUncertain && !recordCommitUncertain
      ensures history == map a | a in disk :: [disk[a]]
    {
      files := disk;
      initialized, compactionUncertain, recordCommitUncertain := false, false, false;
      history := map a | a in disk :: [disk[a]];
    }

    /** The refusal a store that is not writable answers with. */
    function Refusal(): StoreError
      reads this
    {
      if !initialized then NotInitialized else if compactionUncertain then Invalid else CommitUncertain
    }

    /** Confirms and classifies every record left by an earlier process before admitting any use. */
    method Initialize(recoveredAt: Time, confirmed: Attempt -> bool, outcome: Attempt -> WriteOutcome)
      returns (r: Result<(), StoreError>)
      requires Valid() && !initialized
      modifies this
      ensures Valid()
      ensures r.Ok? <==> initialized
      ensures r.Ok? <==> AtMostOneBarrier(old(files)) && forall a :: a in old(files) ==>
                confirmed(a) && (ClassifyRestart(old(files)[a], recoveredAt) == old(files)[a] || outcome(a).Committed?)
      ensures initialized ==> files == map a | a in old(files) :: ClassifyRestart(old(files)[a], recoveredAt)
      ensures initialized ==> forall a :: a in files ==> (IsBarrier(files[a]) <==> HelperMayAct(old(files)[a].phase))
      ensures files.Keys == old(files).Keys
      ensures forall a :: a in files ==> files[a] == old(files)[a] || files[a] == ClassifyRestart(old(files)[a], recoveredAt)
      ensures r.Ok? ==> AtMostOneBarrier(files)
      ensures !AtMostOneBarrier(old(files)) ==> r == Err(Invalid) && files == old(files)
      ensures HistoryKept(old(history), history)
    {
      hide Tracked, AtMostOneBarrier, ClassifyRestart, Coherent, Advance, IsBarrier, HelperMayAct;
      ClassifiedBarriers(files, history, recoveredAt);
      if !AtMostOneBarrier(files) { return Err(Invalid); }
      var todo := files.Keys;
      while todo != {}
        invariant todo <= files.Keys && Valid() && !initialized && AtMostOneBarrier(files)
        invariant files.Keys == old(files).Keys
        invariant forall a :: a in files ==>
          files[a] == if a in todo then old(files)[a] else ClassifyRestart(old(files)[a], recoveredAt)
        invariant HistoryKept(old(history), history)
        invariant forall a :: a in files && a !in todo ==>
          confirmed(a) && (ClassifyRestart(old(files)[a], recoveredAt) == old(files)[a] || outcome(a).Committed?)
        decreases todo
      {
        var a :| a in todo;
        if !confirmed(a) { return Err(IoFailure); }
        TrackedRecord(files, history, a);
        RestartIsLegalAndIdempotent(files[a], recoveredAt, recoveredAt);
        var classified := ClassifyRestart(files[a], recoveredAt);
        if classified != files[a] {
          if outcome(a) == NotWritten { return Err(IoFailure); }
          Publish(a, classified, Restart(recoveredAt));
          if outcome(a) == Uncertain {
            recordCommitUncertain := true;
            return Err(IoFailure);
          }
        }
        todo := todo - {a};
      }
      initialized := true;
      r := Ok(());
    }

    /** Makes a successor visible and extends the history by it. */
    method Publish(a: Attempt, next: Record, ghost m: Move)
      requires Valid() && a in files && Advance(files[a], m) == Some(next)
      modifies this`files, this`history
      ensures Valid()
      ensures AtMostOneBarrier(old(files)) ==> AtMostOneBarrier(files)
      ensures files == old(files)[a := next]
      ensures history == old(history)[a := old(history)[a] + [next]]
    {
      TrackedGrows(files, history, a, next, m);
      hide Tracked, AtMostOneBarrier;
      files := files[a := next];
      history := history[a := history[a] + [next]];
    }

    method Prepare(i: PrepareInput, outcome: WriteOutcome) returns (r: Result<(Record, bool), StoreError>)
      requires Valid()
      modifies this
      ensures Valid() && initialized == old(initialized) && compactionUncertain == old(compactionUncertain)
      ensures old(Writable()) ==> (files, r) == Admitted(old(files), i, outcome)
      ensures !old(Writable()) ==> files == old(files) && r == Err(old(Refusal()))
      ensures old(Writable()) && files != old(files) ==> recordCommitUncertain == r.Err?
      ensures HistoryKept(old(history), history)
      ensures recordCommitUncertain && !old(recordCommitUncertain) ==> r.Err? && outcome.Uncertain?
    {
      hide Tracked, AtMostOneBarrier;
      if !Writable() { return Err(Refusal()); }
      if i.expiresAt <= i.attempt.requestedAt || i.expiresAt <= i.observedAt { return Err(Invalid); }
      if i.attempt in files {
        if !SamePrepareInput(files[i.attempt], i) { return Err(IdConflict); }
        if outcome.NotWritten? { return Err(IoFailure); }
        if outcome.Uncertain? { recordCommitUncertain := true; return Err(IoFailure); }
        return Ok((files[i.attempt], false));
      }
      if exists a :: a in files && (a.operationId == i.attempt.operationId || files[a].sessionId == i.sessionId) {
        return Err(IdConflict);
      }
      if exists a :: a in files && IsBarrier(files[a]) { return Err(IdConflict); }
      if |files| >= MAX_FILES { return Err(StorageFull); }
      if i.observedAt - i.attempt.requestedAt > MAX_AGE_MS || i.attempt.requestedAt - i.observedAt > MAX_FUTURE_SKEW_MS {
        return Err(Invalid);
      }
      if outcome.NotWritten? { return Err(IoFailure); }
      var record := OAuthRecords.Prepare(i);
      TrackedFresh(files, history, i);
      files := files[i.attempt := record];
      history := history[i.attempt := [record]];
      if outcome.Uncertain? { recordCommitUncertain := true; return Err(IoFailure); }
      r := Ok((record, true));
    }

    /** The shared tail of every marking and settling operation. */
    method Replace(prev: Record, m: Move, outcome: WriteOutcome) returns (r: Result<Record, StoreError>)
      requires Valid() && Writable() && !m.Restart?
      modifies this`files, this`history, this`recordCommitUncertain
      ensures Valid()
      ensures (files, r) == Replaced(old(files), prev, m, outcome)
      ensures recordCommitUncertain == (files != old(files) && outcome.Uncertain?)
      ensures files == old(files) ==> history == old(history)
      ensures files != old(files) ==> history == old(history)[prev.attempt := old(history)[prev.attempt] + [Candidate(prev, m)]]
    {
      if !Coherent(prev) || !Allowed(prev, m) { return Err(Invalid); }
      GuardsSuffice(prev, m);
      var next := Candidate(prev, m);
      if prev.attempt !in files { return Err(Missing); }
      var current := files[prev.attempt];
      if current != prev {
        if current == next { return if outcome.Committed? then Ok(current) else Err(IoFailure); }
        return Err(CasConflict);
      }
      if outcome.NotWritten? { return Err(IoFailure); }
      Publish(prev.attempt, next, m);
      if outcome.Uncertain? { recordCommitUncertain := true; return Err(IoFailure); }
      r := Ok(next);
    }

    method Transition(prev: Record, m: Move, outcome: WriteOutcome) returns (r: Result<Record, StoreError>)
      requires Valid() && !m.Restart? && !m.Acknowledge?
      modifies this`files, this`history, this`recordCommitUncertain
      ensures Valid()
      ensures old(Writable()) ==> (files, r) == Replaced(old(files), prev, m, outcome)
      ensures !old(Writable()) ==> files == old(files) && r == Err(old(Refusal()))
      ensures HistoryKept(old(history), history)
    {
      hide Tracked, AtMostOneBarrier, Replaced;
      if !Writable() { return Err(Refusal()); }
      r := Replace(prev, m, outcome);
    }

    method AcknowledgeRecord(supplied: Record, digest: Terminal, at: Time, outcome: WriteOutcome)
      returns (r: Result<Record, StoreError>)
      requires Valid()
      modifies this`files, this`history, this`recordCommitUncertain
      ensures Valid()
      ensures old(Writable()) ==> (files, r) == Acknowledged(old(files), supplied, digest, at, outcome)
      ensures !old(Writable()) ==> files == old(files) && r == Err(old(Refusal()))
      ensures HistoryKept(old(history), history)
    {
      hide Coherent, Candidate, Allowed, Advance, LegalTransition, Tracked;
      if !Writable() { return Err(Refusal()); }
      if !Coherent(supplied) || at < supplied.updatedAt { return Err(Invalid); }
      if supplied.attempt !in files { return Err(Missing); }
      var current := files[supplied.attempt];
      if current.terminal != Some(digest) { return Err(Invalid); }
      if current.acknowledgedAt.Some? {
        if !LegalTransition(supplied, current) { return Err(CasConflict); }
        if current.acknowledgedAt != Some(at) { return Err(CasConflict); }
        return if outcome.Committed? then Ok(current) else Err(IoFailure);
      }
      if current != supplied { return Err(CasConflict); }
      if at < digest.at { return Err(Invalid); }
      r := Replace(current, Acknowledge(at), outcome);
    }

    method AcknowledgeAttempt(attempt: Attempt, expectedRevision: nat, digest: Terminal, at: Time, outcome: WriteOutcome)
      returns (r: Result<Record, StoreError>)
      requires Valid()
      modifies this`files, this`history, this`recordCommitUncertain
      ensures Valid()
      ensures !old(Writable()) ==> files == old(files) && r == Err(old(Refusal()))
      ensures old(Writable()) ==> (files, r) == AttemptAcknowledged(old(files), attempt, expectedRevision, digest, at, outcome)
      ensures HistoryKept(old(history), history)
    {
      hide Coherent, Candidate, Allowed, Advance, LegalTransition, Tracked;
      if !Writable() { return Err(Refusal()); }
      if attempt !in files { return Err(IdConflict); }
      var current := files[attempt];
      if current.terminal != Some(digest) { return Err(CasConflict); }
      if current.acknowledgedAt.Some? {
        if current.revision != expectedRevision + 1 || current.acknowledgedAt != Some(at) { return Err(CasConflict); }
        return if outcome.Committed? then Ok(current) else Err(IoFailure);
      }
      if current.revision != expectedRevision { return Err(CasConflict); }
      if at < digest.at { return Err(Invalid); }
      r := Replace(current, Acknowledge(at), outcome);
    }

    /** Deletes exactly the acknowledged terminal records older than the retention
        period. Any deletion that is not confirmed freezes the store. */
    method Compact(now: Time, outcome: Attempt -> WriteOutcome) returns (r: Result<set<Attempt>, StoreError>)
      requires Valid()
      modifies this
      ensures Valid() && initialized == old(initialized) && recordCommitUncertain == old(recordCommitUncertain)
      ensures !old(Writable()) ==> files == old(files) && r == Err(old(Refusal()))
      ensures r.Ok? ==> r.value == (set a | a in old(files) && Eligible(old(files)[a], now)) &&
                        files == old(files) - r.value && !compactionUncertain
      ensures old(Writable()) && r.Err? ==> compactionUncertain
      ensures forall a :: a in old(files) && a !in files ==> RetainedLongEnough(old(files)[a], now)
      ensures forall a :: a in files ==> a in old(files) && files[a] == old(files)[a]
      ensures HistoryKept(history, old(history))
    {
      hide Tracked, AtMostOneBarrier, Eligible;
      if !Writable() { return Err(Refusal()); }
      forall a | a in files && Eligible(files[a], now) ensures RetainedLongEnough(files[a], now) {
        TrackedRecord(files, history, a);
        EligibleIsRetained(files[a], now);
      }
      hide RetainedLongEnough;
      var todo := set a | a in files && Eligible(files[a], now);
      var deleted := {};
      while todo != {}
        invariant Valid() && Writable()
        invariant todo + deleted == set a | a in old(files) && Eligible(old(files)[a], now)
        invariant todo !! deleted && files == old(files) - deleted && history == old(history) - deleted
        decreases todo
      {
        var a :| a in todo;
        if outcome(a).NotWritten? { compactionUncertain := true; return Err(Invalid); }
        TrackedWithout(files, history, {a});
        files := files - {a};
        history := history - {a};
        if outcome(a).Uncertain? { compactionUncertain := true; return Err(Invalid); }
        todo, deleted := todo - {a}, deleted + {a};
      }
      r := Ok(deleted);
    }
  }

  // ---- Results about the specification ----

  /** Of two different successors of one record at most one is ever accepted,
      and repeating the accepted one changes nothing. */
  lemma CompetingSuccessors(files: Files, prev: Record, m1: Move, m2: Move, o1: WriteOutcome, o2: WriteOutcome)
    requires Replaced(files, prev, m1, o1).1.Ok?
    ensures var after := Replaced(files, prev, m1, o1).0;
            && Replaced(after, prev, m1, o2).0 == after
            && (o2.Committed? ==> Replaced(after, prev, m1, o2).1 == Ok(Candidate(prev, m1)))
            && Replaced(after, prev, m2, o2).0 == after
            && (Candidate(prev, m2) != Candidate(prev, m1) ==> Replaced(after, prev, m2, o2).1.Err?)
  {
    GuardsSuffice(prev, m1);
  }

  datatype Call = Call(prev: Record, move: Move, outcome: WriteOutcome)

  function RunCalls(files: Files, calls: seq<Call>): Files
    decreases |calls|
  {
    if calls == [] then files
    else RunCalls(Replaced(files, calls[0].prev, calls[0].move, calls[0].outcome).0, calls[1..])
  }

  lemma {:induction false} RevisionsOnlyGrow(files: Files, calls: seq<Call>, a: Attempt)
    requires a in files
    ensures a in RunCalls(files, calls)
    ensures RunCalls(files, calls)[a] == files[a] || RunCalls(files, calls)[a].revision > files[a].revision
    decreases |calls|
  {
    if calls != [] {
      var c := calls[0];
      if Coherent(c.prev) { GuardsSuffice(c.prev, c.move); }
      RevisionsOnlyGrow(Replaced(files, c.prev, c.move, c.outcome).0, calls[1..], a);
    }
  }

  /** Whatever other calls run in between, repeating an accepted replacement
      never writes again: it is answered with the record it produced while that
      is still current, and refused as a conflict afterwards. */
  lemma RetriesAdvanceOnce(files: Files, prev: Record, m: Move, o: WriteOutcome, between: seq<Call>, again: WriteOutcome)
    requires Replaced(files, prev, m, o).1.Ok?
    ensures var later := RunCalls(Replaced(files, prev, m, o).0, between);
            && prev.attempt in later && Replaced(later, prev, m, again).0 == later
            && Replaced(later, prev, m, again).1 ==
               if later[prev.attempt] != Candidate(prev, m) then Err(CasConflict)
               else if again.Committed? then Ok(Candidate(prev, m)) else Err(IoFailure)
  {
    GuardsSuffice(prev, m);
    RevisionsOnlyGrow(Replaced(files, prev, m, o).0, between, prev.attempt);
  }

  /** For any predecessor in the attempt's own history, the two acknowledgement
      entry points accept the same calls, return the same record and leave the
      same files. */
  lemma AcknowledgementsAgree(
    files: Files, h: seq<Record>, k: nat, digest: Terminal, at: Time, outcome: WriteOutcome)
    requires Chain(h) && k < |h| && h[k].attempt in files && WellFormed(files)
    requires files[h[k].attempt] == h[|h| - 1]
    ensures var supplied := h[k];
            var byRecord := Acknowledged(files, supplied, digest, at, outcome);
            var byIdentity := AttemptAcknowledged(files, supplied.attempt, supplied.revision, digest, at, outcome);
            && byRecord.0 == byIdentity.0
            && (byRecord.1.Ok? <==> byIdentity.1.Ok?)
            && (byRecord.1.Ok? ==> byRecord.1 == byIdentity.1)
  {
    var current := h[|h| - 1];
    if k == |h| - 2 {
      assert Successor(h[k + 1 - 1], h[k + 1]);
    }
  }
}
