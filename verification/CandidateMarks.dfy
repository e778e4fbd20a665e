/** What the writing calls of the candidate store promise of a record over any sequence of
    calls: what it once says of its invocation stays, and of two successors one is kept. */
module CandidateMarks {
  import opened Outcomes
  import opened CandidateStores

  datatype Call =
    | Started(record: Operation, startedAt: int, deadlineAt: int)
    | OuterPublished(record: Operation, pid: nat, observedAt: int)
    | Retired(record: Operation, proof: Proof, observedAt: int)
    | Settled(record: Operation, phase: Phase, completedAt: int, receipt: Option<Evidence>, error: Option<ErrorCode>)

  /** What the call makes of the record it was given; None when the store refuses that. */
  function Successor(c: Call): Option<Operation> {
    match c
    case Started(record, startedAt, deadlineAt) => StartedRecord(record, startedAt, deadlineAt)
    case OuterPublished(record, pid, observedAt) => OuterRecord(record, pid, observedAt)
    case Retired(record, proof, observedAt) => RetiredRecord(record, proof, observedAt)
    case Settled(record, phase, completedAt, receipt, error) => SettledRecord(record, phase, completedAt, receipt, error)
  }

  datatype Made = Made(call: Call, fault: WriteFault)

  /** The operation files after a call; a record may have been read at any earlier time. */
  ghost function Called(s: Store, m: Made): Store {
    var record, next := m.call.record, Successor(m.call);
    if record.request.key !in s.ops || next.None? || next.value == record then s
    else CasWrite(s, record, next.value, m.fault).store
  }

  ghost function RunCalls(s: Store, calls: seq<Made>): Store
    decreases |calls|
  {
    if calls == [] then s else RunCalls(Called(s, calls[0]), calls[1..])
  }

  /** Nothing an operation said of its identity, start, outer process or retirement is unsaid. */
  ghost predicate StillSays(o: Operation, p: Operation) {
    && p.request == o.request && p.workspace == o.workspace && p.runId == o.runId
    && (o.invocation.Some? ==>
          && p.invocation.Some?
          && var i, j := o.invocation.value, p.invocation.value;
             && j.startedAt == i.startedAt && j.deadlineAt == i.deadlineAt
             && (i.outer.Some? ==> j.outer == i.outer) && (i.retirement.Some? ==> j.retirement == i.retirement))
  }

  /** Over any sequence of calls, each made with any record and stopping anywhere, a start, an
      outer process and a retirement are each written at most once. */
  lemma {:induction false} MarksAreFinal(s: Store, calls: seq<Made>, k: Key)
    requires k in s.ops
    ensures k in RunCalls(s, calls).ops && StillSays(s.ops[k], RunCalls(s, calls).ops[k])
    decreases |calls|
  {
    if calls != [] {
      CallKeeps(s, calls[0], k);
      MarksAreFinal(Called(s, calls[0]), calls[1..], k);
    }
  }

  lemma CallKeeps(s: Store, m: Made, k: Key)
    requires k in s.ops
    ensures k in Called(s, m).ops && StillSays(s.ops[k], Called(s, m).ops[k])
  {
    if Successor(m.call).Some? { SuccessorSays(m.call); }
    hide Successor;
  }

  /** What a call asks for is what its successor says, and nothing said before is unsaid. */
  lemma SuccessorSays(c: Call)
    requires Successor(c).Some?
    ensures var o, p := c.record, Successor(c).value;
            && StillSays(o, p)
            && (c.Started? ==> p.invocation.Some? && p.invocation.value.startedAt == c.startedAt && p.invocation.value.deadlineAt == c.deadlineAt)
            && (c.OuterPublished? ==> p.invocation.Some? && p.invocation.value.outer == Some(Outer(c.pid, c.observedAt)))
            && (c.Retired? ==> p.invocation.Some? && p.invocation.value.retirement == Some(Retirement(c.proof, c.observedAt)))
            && (c.Settled? ==> p.invocation == o.invocation && p.status.phase == c.phase && p.status.receipt == c.receipt
                               && p.status.completedAt == Some(c.completedAt) && p.status.error == c.error)
  {
    hide StatusOk, OperationOk, AllowedTransition, IsTerminal;
  }

  /** A call repeated on what it made is accepted and makes nothing new. */
  lemma RepeatsAreAccepted(c: Call)
    requires Successor(c).Some?
    ensures Successor(c.(record := Successor(c).value)) == Successor(c)
  {
    hide StatusOk, OperationOk, IsTerminal;
  }

  /** Of two different successors of one record at most one is accepted, and the accepted one
      repeats without effect, answering success. */
  lemma CompetingSuccessors(s: Store, previous: Operation, next: Operation, other: Operation, fault: WriteFault, again: WriteFault)
    requires previous.request.key in s.ops && next != previous && next.request == previous.request
    requires CasWrite(s, previous, next, fault).ok
    ensures var t := CasWrite(s, previous, next, fault).store;
            && t.ops == s.ops[previous.request.key := next]
            && CasWrite(t, previous, next, again) == Write(t, true)
            && CasWrite(t, previous, other, again) == Write(t, other == next)
  {
    hide OperationOk;
  }
}
