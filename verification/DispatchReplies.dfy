/** What the dispatch ledger answers, by the history of the calls alone. */
module DispatchReplies {
  import opened DispatchLedgers

  // ---- Steps ----

  /** This event needs a slot in a full ledger. */
  ghost predicate NeedsSlot(d: Digest, s: State, e: Event) {
    && e.DispatchEvent? && e.lease.operation == e.operation && e.lease.attemptId !in s.attempts
    && !Fenced(d, s.retired, e.lease.attemptId) && |s.attempts| == MAX_IDENTITIES && s.settled != []
  }

  /** Eviction from a full ledger takes the attempt that settled first, and no other. */
  lemma EvictsOne(s: State)
    requires Inv(s)
    ensures var t := Retire(s);
            if |s.attempts| == MAX_IDENTITIES && s.settled != [] then
              t == s.(attempts := s.attempts - {s.settled[0]}, settled := s.settled[1..], retired := s.retired + {s.settled[0]})
              && s.settled[0] in s.attempts
            else t == s
  {
    if |s.attempts| == MAX_IDENTITIES && s.settled != [] {
      var id := s.settled[0];
      assert id in s.settled && IsAttemptId(id);
      var next := s.(settled := s.settled[1..], attempts := s.attempts - {id}, retired := s.retired + {id});
      assert next.attempts.Keys == s.attempts.Keys - {id};
      assert |next.attempts| == |next.attempts.Keys| == |s.attempts.Keys| - 1;
      RetireStops(next);
    }
  }

  /** What one event does to an attempt remembered before it. */
  lemma StepFacts(d: Digest, s: State, e: Event, id: string)
    requires Inv(s) && id in s.attempts
    ensures var t := Step(d, s, e);
            && (id in t.attempts <==> id !in t.retired)
            && (id in t.attempts ==> t.attempts[id] == s.attempts[id])
            && (id !in t.attempts <==> NeedsSlot(d, s, e) && s.settled[0] == id)
            && (id in t.attempts ==> (id in t.settled <==> id in s.settled || e == SettleEvent(id, s.attempts[id].serial)))
  {
    Apart(s, id);
    hide Inv, Fenced, Dispatch;
    if e.DispatchEvent? { DispatchFacts(d, s, e, id); } else { assert !NeedsSlot(d, s, e); }
  }

  lemma DispatchFacts(d: Digest, s: State, e: Event, id: string)
    requires Inv(s) && id in s.attempts && e.DispatchEvent?
    ensures var t := Dispatch(d, s, e.operation, e.lease, e.payload, e.upstream).state;
            && t.retired == (if NeedsSlot(d, s, e) then s.retired + {s.settled[0]} else s.retired)
            && (id in t.attempts <==> !(NeedsSlot(d, s, e) && s.settled[0] == id))
            && (id in t.attempts ==> t.attempts[id] == s.attempts[id] && (id in t.settled <==> id in s.settled))
  {
    EvictsOne(s);
    if s.settled != [] { FirstOnly(s, id); }
    Bounded(s);
    hide Inv, Fenced, Retire;
  }

  lemma Bounded(s: State)
    requires Inv(s)
    ensures |s.attempts| <= MAX_IDENTITIES
  {}

  lemma FirstOnly(s: State, id: string)
    requires Inv(s) && s.settled != []
    ensures id in s.settled[1..] <==> id in s.settled && id != s.settled[0]
  {
    assert forall q :: q in s.settled <==> q == s.settled[0] || q in s.settled[1..];
    assert forall k :: 0 < k < |s.settled| ==> s.settled[k] != s.settled[0];
  }

  /** The new attempt takes its slot. */
  lemma RememberedFacts(d: Digest, s: State, lease: Lease, payload: string, upstream: bool)
    requires Inv(s)
    ensures var a := Dispatch(d, s, lease.operation, lease, payload, upstream);
            a.reply.Remembered? ==>
              && lease.attemptId in a.state.attempts && lease.attemptId !in a.state.settled && lease.attemptId !in s.attempts
              && a.state.attempts[lease.attemptId] == Attempt(lease, payload, a.reply.serial) && a.reply.serial == s.serial
  {
    RetireFacts(s);
    RetireKeepsOrder(s);
    hide Fenced, Retire;
  }

  // ---- Histories ----

  /** Whatever follows, a remembered attempt is either still there, settled exactly when
      its result came in, or it came in and the attempt was retired. */
  lemma {:induction false} RememberedStays(d: Digest, s: State, later: seq<Event>, id: string)
    requires Inv(s) && id in s.attempts
    ensures var u, n := Run(d, s, later), s.attempts[id].serial;
            && Inv(u)
            && (id in u.attempts <==> id !in u.retired)
            && (id in u.attempts ==> u.attempts[id] == s.attempts[id] && (id in u.settled <==> id in s.settled || Settles(later, id, n)))
            && (id in u.retired ==> id in s.settled || Settles(later, id, n))
    decreases |later|
  {
    hide Inv, Step, NeedsSlot;
    if later == [] {
      Apart(s, id);
    } else {
      var t, n := Step(d, s, later[0]), s.attempts[id].serial;
      StepKeepsInv(d, s, later[0]);
      StepFacts(d, s, later[0], id);
      SettlesFirst(later, id, n);
      if id in t.attempts {
        RememberedStays(d, t, later[1..], id);
      } else {
        Evicted(d, s, later[0], id);
        RunKeepsInv(d, t, later[1..]);
        StaysRetired(d, t, later[1..], id);
        Apart(Run(d, t, later[1..]), id);
      }
    }
  }

  lemma Evicted(d: Digest, s: State, e: Event, id: string)
    requires NeedsSlot(d, s, e) && s.settled[0] == id
    ensures id in s.settled
  {}

  lemma Apart(s: State, id: string)
    requires Inv(s)
    ensures id in s.attempts ==> id !in s.retired
  {}

  lemma SettlesFirst(events: seq<Event>, id: string, serial: nat)
    requires events != []
    ensures Settles(events, id, serial) <==> events[0] == SettleEvent(id, serial) || Settles(events[1..], id, serial)
  {
    assert forall k :: 0 <= k < |events[1..]| ==> events[1..][k] == events[k + 1];
  }

  lemma {:induction false} StaysRetired(d: Digest, s: State, events: seq<Event>, id: string)
    requires Inv(s) && id in s.retired
    ensures id in Run(d, s, events).retired
    decreases |events|
  {
    hide Inv, Step;
    if events != [] {
      StepKeepsInv(d, s, events[0]);
      RetiredGrows(d, s, events[0]);
      StaysRetired(d, Step(d, s, events[0]), events[1..], id);
    }
  }

  // ---- Results ----

  /** In every run: once a dispatch was answered with a new attempt, the same lease and
      payload get that attempt's result until it is retired, whether it settled or not,
      and any other lease or payload with its id is refused; it is retired only after its
      result came in, and then every dispatch of its id is refused. */
  lemma RepeatIsReplayed(d: Digest, before: seq<Event>, lease: Lease, payload: string, upstream: bool,
                         later: seq<Event>, again: Lease, payloadAgain: string, upstreamAgain: bool)
    requires Dispatch(d, Run(d, FRESH, before), lease.operation, lease, payload, upstream).reply.Remembered?
    requires again.attemptId == lease.attemptId
    ensures var first := Dispatch(d, Run(d, FRESH, before), lease.operation, lease, payload, upstream);
            var u := Run(d, first.state, later);
            var reply := Dispatch(d, u, again.operation, again, payloadAgain, upstreamAgain).reply;
            && (lease.attemptId in u.retired ==> reply == Retired && Settles(later, lease.attemptId, first.reply.serial))
            && (lease.attemptId !in u.retired ==>
                  reply == if again == lease && payloadAgain == payload then Replayed(first.reply.serial) else IdReused)
  {
    var s, id := Run(d, FRESH, before), lease.attemptId;
    RunKeepsInv(d, FRESH, before);
    var first := Dispatch(d, s, lease.operation, lease, payload, upstream);
    RememberedFacts(d, s, lease, payload, upstream);
    DispatchKeepsInv(d, s, lease.operation, lease, payload, upstream);
    hide Run, Inv, Fenced;
    RememberedStays(d, first.state, later, id);
    if id in Run(d, first.state, later).retired { AddedIsFenced(d, Run(d, first.state, later).retired, id); }
    hide Retire;
  }

  /** In every run: no attempt is retired while the ledger has a free slot. When it has
      none, a dispatch that needs one retires exactly the attempt that settled first. */
  lemma RetiredExactly(d: Digest, events: seq<Event>, e: Event, id: string)
    ensures var s := Run(d, FRESH, events);
            var t := Step(d, s, e);
            && (id in t.retired && id !in s.retired <==> NeedsSlot(d, s, e) && s.settled[0] == id)
            && (id in s.retired ==> id in t.retired)
            && (NeedsSlot(d, s, e) ==> s.settled[0] in s.attempts && |s.attempts| == MAX_IDENTITIES)
  {
    RunKeepsInv(d, FRESH, events);
    var s := Run(d, FRESH, events);
    RetiredGrows(d, s, e);
    EvictsOne(s);
    if id in s.attempts { StepFacts(d, s, e, id); }
    hide Run, Fenced, Retire;
  }

  /** In every run: of two attempts, the one whose result came in first is retired first. */
  lemma {:induction false} RetiredInOrder(d: Digest, events: seq<Event>, later: seq<Event>, first: string, second: string)
    requires var s := Run(d, FRESH, events); first in s.settled && second in s.attempts && second !in s.settled
    ensures var t := Run(d, Run(d, FRESH, events), later); second in t.retired ==> first in t.retired
  {
    RunKeepsInv(d, FRESH, events);
    hide Run;
    OrderStays(d, Run(d, FRESH, events), later, first, second);
  }

  /** `first` comes before `second` among the settled ids, if that one is there at all. */
  ghost predicate Before(s: seq<string>, first: string, second: string) {
    first in s && forall i :: 0 <= i < |s| && s[i] == second ==> first in s[..i]
  }

  lemma {:induction false} OrderStays(d: Digest, s: State, later: seq<Event>, first: string, second: string)
    requires Inv(s) && first != second && second !in s.retired && Before(s.settled, first, second)
    ensures var t := Run(d, s, later); second in t.retired ==> first in t.retired
    decreases |later|
  {
    hide Inv, Step, Before;
    if later != [] {
      var t := Step(d, s, later[0]);
      StepKeepsInv(d, s, later[0]);
      OrderStep(d, s, later[0], first, second);
      if first in t.retired { StaysRetired(d, t, later[1..], first); } else { OrderStays(d, t, later[1..], first, second); }
    }
  }

  lemma OrderStep(d: Digest, s: State, e: Event, first: string, second: string)
    requires Inv(s) && first != second && second !in s.retired && Before(s.settled, first, second)
    ensures var t := Step(d, s, e);
            first in t.retired || (Before(t.settled, first, second) && second !in t.retired)
  {
    EvictsOne(s);
    var t := Step(d, s, e);
    assert NoRepeats(s.settled) && first in s.attempts;
    hide Inv, Fenced, Retire;
    if NeedsSlot(d, s, e) {
      if s.settled[0] != first { DroppedKeepsOrder(s.settled, first, second); }
    } else if t.settled != s.settled {
      AddedKeepsOrder(s.settled, first, second, e.id);
    }
  }

  lemma DroppedKeepsOrder(s: seq<string>, first: string, second: string)
    requires s != [] && s[0] != first && Before(s, first, second)
    ensures Before(s[1..], first, second) && s[0] != second
  {
    forall i | 0 <= i < |s[1..]| && s[1..][i] == second ensures first in s[1..][..i] {
      assert first in s[..i + 1] && s[..i + 1] == [s[0]] + s[1..][..i];
    }
    assert |s[..0]| == 0;
    assert s == [s[0]] + s[1..];
  }

  lemma AddedKeepsOrder(s: seq<string>, first: string, second: string, id: string)
    requires Before(s, first, second)
    ensures Before(s + [id], first, second)
  {
    var t := s + [id];
    forall i | 0 <= i < |t| && t[i] == second ensures first in t[..i] { assert t[..i] == s[..i]; }
  }

  /** In every run: what a dispatch is answered, and when it reaches upstream. A new
      attempt is made exactly when its lease is for this operation, its id is neither
      remembered nor fenced, and a slot is free or holds a settled attempt; only then,
      and always when the call was queued, does upstream see the id. */
  lemma AnsweredExactly(d: Digest, events: seq<Event>, operation: Operation, lease: Lease, payload: string, upstream: bool)
    ensures var s := Run(d, FRESH, events);
            var a := Dispatch(d, s, operation, lease, payload, upstream);
            && (a.reply.LeaseInvalid? <==> lease.operation != operation)
            && (a.reply.Retired? <==> lease.operation == operation && lease.attemptId !in s.attempts && Fenced(d, s.retired, lease.attemptId))
            && (a.reply.Remembered? <==>
                  && lease.operation == operation && lease.attemptId !in s.attempts && !Fenced(d, s.retired, lease.attemptId)
                  && (|s.attempts| < MAX_IDENTITIES || exists id :: id in s.attempts && id in s.settled))
            && a.state.invoked == (if a.reply.Remembered? && upstream then s.invoked + [lease.attemptId] else s.invoked)
            && (a.reply.Remembered? ==> forall id :: id in s.attempts ==> s.attempts[id].serial < a.reply.serial)
  {
    RunKeepsInv(d, FRESH, events);
    hide Run, Inv, Fenced;
    Answering(d, Run(d, FRESH, events), operation, lease, payload, upstream);
    SerialsGrow(Run(d, FRESH, events));
  }

  lemma Answering(d: Digest, s: State, operation: Operation, lease: Lease, payload: string, upstream: bool)
    requires Inv(s)
    ensures var a := Dispatch(d, s, operation, lease, payload, upstream);
            && (a.reply.LeaseInvalid? <==> lease.operation != operation)
            && (a.reply.Retired? <==> lease.operation == operation && lease.attemptId !in s.attempts && Fenced(d, s.retired, lease.attemptId))
            && (a.reply.Remembered? <==>
                  && lease.operation == operation && lease.attemptId !in s.attempts && !Fenced(d, s.retired, lease.attemptId)
                  && (|s.attempts| < MAX_IDENTITIES || exists id :: id in s.attempts && id in s.settled))
            && a.state.invoked == (if a.reply.Remembered? && upstream then s.invoked + [lease.attemptId] else s.invoked)
            && (a.reply.Remembered? ==> a.reply.serial == s.serial)
  {
    RetireFacts(s);
    FullOfUnresolved(s);
    Bounded(s);
    hide Inv, Fenced, Retire;
  }

  lemma SerialsGrow(s: State)
    requires Inv(s)
    ensures forall id :: id in s.attempts ==> s.attempts[id].serial < s.serial
  {}
}
