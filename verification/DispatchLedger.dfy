/** The resident connection's dispatch ledger: each durable attempt id reaches the
    upstream at most once. Recent attempts are kept exactly; settled ones age out
    into a fixed-size bit array that never forgets. The digest of an id is a parameter. */
module DispatchLedgers {
  const MAX_IDENTITIES := 10_000
  const FENCE_BYTES := 2 * 1024 * 1024
  const FENCE_BITS := FENCE_BYTES * 8
  const FENCE_HASHES := 8

  /** The big-endian 32-bit words of a digest. */
  type Words = w: seq<nat> | |w| == FENCE_HASHES && forall k :: 0 <= k < FENCE_HASHES ==> w[k] < 0x1_0000_0000
    witness [0, 0, 0, 0, 0, 0, 0, 0]

  type Digest = string -> Words

  function Index(d: Digest, id: string, k: nat): nat
    requires k < FENCE_HASHES
  {
    d(id)[k] % FENCE_BITS
  }

  lemma IndexInRange(d: Digest, id: string, k: nat)
    requires k < FENCE_HASHES
    ensures Index(d, id, k) < FENCE_BITS
  {}

  /** The position is one of the id's eight. */
  ghost predicate HasIndex(d: Digest, id: string, i: nat) {
    exists k: nat :: k < FENCE_HASHES && Index(d, id, k) == i
  }

  ghost predicate Covered(d: Digest, added: set<string>, i: nat) {
    exists a :: a in added && HasIndex(d, a, i)
  }

  /** What the fence answers, as a property of the ids it was given: every position of `id` is covered. */
  ghost predicate Fenced(d: Digest, added: set<string>, id: string) {
    forall k: nat :: k < FENCE_HASHES ==> Covered(d, added, Index(d, id, k))
  }

  // ---- Bits ----

  /** 1 << k */
  function Mask(k: nat): bv8
    requires k < 8
  {
    if k == 0 then 1 else if k == 1 then 2 else if k == 2 then 4 else if k == 3 then 8
    else if k == 4 then 16 else if k == 5 then 32 else if k == 6 then 64 else 128
  }

  predicate BitSet(bits: seq<bv8>, i: nat)
    requires |bits| == FENCE_BYTES && i < FENCE_BITS
  {
    bits[i / 8] & Mask(i % 8) != 0
  }

  lemma SetsOneBit(x: bv8, j: nat, k: nat)
    requires j < 8 && k < 8
    ensures (x | Mask(j)) & Mask(k) != 0 <==> j == k || x & Mask(k) != 0
  {
    if j == k {
      Absorb(x, Mask(j));
      assert Mask(j) != 0;
    } else {
      assert Mask(j) & Mask(k) == 0;
      Disjoint(x, Mask(j), Mask(k));
    }
  }

  lemma Absorb(x: bv8, m: bv8)
    ensures (x | m) & m == m
  {}

  lemma Disjoint(x: bv8, m: bv8, n: bv8)
    requires m & n == 0
    ensures (x | m) & n == x & n
  {}

  lemma OneBit(bits: seq<bv8>, i: nat, n: nat)
    requires |bits| == FENCE_BYTES && i < FENCE_BITS && n < FENCE_BITS
    ensures BitSet(bits[i / 8 := bits[i / 8] | Mask(i % 8)], n) <==> n == i || BitSet(bits, n)
  {
    hide Mask;
    SamePlace(i, n);
    SetsOneBit(bits[i / 8], i % 8, n % 8);
  }

  lemma SamePlace(i: nat, n: nat)
    ensures i / 8 == n / 8 && i % 8 == n % 8 <==> i == n
  {}

  lemma OneBitInArray(bits: seq<bv8>, i: nat)
    requires |bits| == FENCE_BYTES && i < FENCE_BITS
    ensures var after := bits[i / 8 := bits[i / 8] | Mask(i % 8)];
            forall n: nat :: n < FENCE_BITS ==> (BitSet(after, n) <==> n == i || BitSet(bits, n))
  {
    hide BitSet, Mask;
    forall n: nat | n < FENCE_BITS
      ensures BitSet(bits[i / 8 := bits[i / 8] | Mask(i % 8)], n) <==> n == i || BitSet(bits, n)
    {
      OneBit(bits, i, n);
    }
  }

  /** One of the id's first `k` positions. */
  ghost predicate Written(d: Digest, id: string, k: nat, i: nat)
    requires k <= FENCE_HASHES
  {
    exists n: nat :: n < k && Index(d, id, n) == i
  }

  lemma WrittenNext(d: Digest, id: string, k: nat)
    requires k < FENCE_HASHES
    ensures forall i: nat :: Written(d, id, k + 1, i) <==> Written(d, id, k, i) || i == Index(d, id, k)
  {}

  method SetBit(bits: array<bv8>, i: nat)
    requires bits.Length == FENCE_BYTES && i < FENCE_BITS
    modifies bits
    ensures forall n: nat :: n < FENCE_BITS ==> (BitSet(bits[..], n) <==> n == i || BitSet(old(bits[..]), n))
  {
    OneBitInArray(bits[..], i);
    hide BitSet, Mask;
    bits[i / 8] := bits[i / 8] | Mask(i % 8);
    assert bits[..] == old(bits[..])[i / 8 := old(bits[..])[i / 8] | Mask(i % 8)];
  }

  class RetiredFence {
    const digest: Digest
    var bits: array?<bv8>
    ghost var added: set<string>

    /** The bits set are exactly the positions of the ids added. */
    ghost predicate Valid()
      reads this, bits
    {
      && (bits == null ==> added == {})
      && (bits != null ==> bits.Length == FENCE_BYTES)
      && (bits != null ==> forall i: nat :: i < FENCE_BITS ==> (BitSet(bits[..], i) <==> Covered(digest, added, i)))
    }

    constructor (digest: Digest)
      ensures Valid() && added == {} && bits == null && this.digest == digest
    {
      this.digest, bits, added := digest, null, {};
    }

    predicate Has(id: string)
      requires Valid()
      reads this, bits
    {
      bits != null && forall k: nat :: k < FENCE_HASHES ==> BitSet(bits[..], Index(digest, id, k))
    }

    /** The array answers exactly by coverage: never a false negative, and a false
        positive only when other ids cover all eight positions. */
    lemma HasIsFenced(id: string)
      requires Valid()
      ensures Has(id) <==> Fenced(digest, added, id)
      ensures id in added ==> Has(id)
    {
      if id in added {
        forall k: nat | k < FENCE_HASHES ensures Covered(digest, added, Index(digest, id, k)) {
          assert HasIndex(digest, id, Index(digest, id, k));
        }
      }
      if bits == null { assert !Covered(digest, added, Index(digest, id, 0)); }
    }

    method Add(id: string)
      requires Valid()
      modifies this, bits
      ensures Valid() && added == old(added) + {id}
      ensures bits != null && (bits == old(bits) || fresh(bits))
    {
      if bits == null {
        bits := new bv8[FENCE_BYTES](_ => 0);
        assert forall i: nat :: i < FENCE_BITS ==> !BitSet(bits[..], i);
      }
      ghost var before := bits[..];
      var k := 0;
      hide BitSet, Index, Written, Covered, HasIndex;
      while k < FENCE_HASHES
        invariant 0 <= k <= FENCE_HASHES && bits != null && bits.Length == FENCE_BYTES
        invariant bits == old(bits) || fresh(bits)
        invariant added == old(added)
        invariant forall i: nat :: i < FENCE_BITS ==> (BitSet(bits[..], i) <==> BitSet(before, i) || Written(digest, id, k, i))
      {
        IndexInRange(digest, id, k);
        WrittenNext(digest, id, k);
        SetBit(bits, Index(digest, id, k));
        k := k + 1;
      }
      added := added + {id};
      forall i: nat | i < FENCE_BITS ensures BitSet(bits[..], i) <==> Covered(digest, added, i) {
        CoveredAfter(digest, old(added), id, i);
      }
    }
  }

  lemma CoveredAfter(d: Digest, added: set<string>, id: string, i: nat)
    ensures Covered(d, added + {id}, i) <==> Covered(d, added, i) || Written(d, id, FENCE_HASHES, i)
    ensures !Written(d, id, 0, i)
  {
    if HasIndex(d, id, i) { assert id in added + {id}; }
    if Covered(d, added, i) { var a :| a in added && HasIndex(d, a, i); assert a in added + {id}; }
  }

  // ---- Specification of the ledger ----

  datatype Operation = Prompt | Abort

  predicate IdCharacter(c: char) {
    'A' <= c <= 'Z' || 'a' <= c <= 'z' || '0' <= c <= '9'
  }

  /** What validation of a dispatch lease accepts as its attempt id. */
  predicate IsAttemptId(s: string) {
    && 1 <= |s| <= 128 && IdCharacter(s[0])
    && forall k :: 1 <= k < |s| ==> IdCharacter(s[k]) || s[k] in {'.', '_', ':', '-'}
  }

  type AttemptId = s: string | IsAttemptId(s) witness "0"

  /** A validated lease; the callers of the ledger validate every lease first. */
  datatype Lease = Lease(attemptId: AttemptId, operation: Operation, authority: string)

  /** `serial` tells one remembered attempt from another. */
  datatype Attempt = Attempt(lease: Lease, payload: string, serial: nat)

  datatype Reply =
    | LeaseInvalid
    | IdReused
    | Replayed(serial: nat)      // the result of the attempt already remembered
    | Retired
    | IdentityLimit
    | Remembered(serial: nat)    // a new attempt

  /** `settled` holds ids in the order they settled; `retired` those in the fence;
      `invoked` every attempt whose upstream call was queued. */
  datatype State = State(
    attempts: map<string, Attempt>, settled: seq<string>, retired: set<string>, serial: nat, invoked: seq<string>)

  const FRESH := State(map[], [], {}, 0, [])

  /** Evicts settled attempts, oldest first, until a slot is free. An empty id would
      stop it, but no attempt has one. */
  function Retire(s: State): State
    decreases |s.settled|
  {
    if |s.attempts| < MAX_IDENTITIES || s.settled == [] || s.settled[0] == "" then s
    else
      var id := s.settled[0];
      if id !in s.attempts then Retire(s.(settled := s.settled[1..]))
      else Retire(s.(settled := s.settled[1..], attempts := s.attempts - {id}, retired := s.retired + {id}))
  }

  datatype Answer = Answer(state: State, reply: Reply)

  /** `upstream`: the call is queued, rather than refused locally with its result still remembered. */
  ghost function Dispatch(
    d: Digest, s: State, operation: Operation, lease: Lease, payload: string, upstream: bool): Answer
  {
    var id := lease.attemptId;
    if lease.operation != operation then Answer(s, LeaseInvalid)
    else if id in s.attempts then
      Answer(s, if s.attempts[id].payload != payload || s.attempts[id].lease != lease then IdReused
                else Replayed(s.attempts[id].serial))
    else if Fenced(d, s.retired, id) then Answer(s, Retired)
    else
      var t := Retire(s);
      if |t.attempts| >= MAX_IDENTITIES then Answer(t, IdentityLimit)
      else Answer(Remember(t, lease, payload, upstream), Remembered(t.serial))
  }

  function Remember(t: State, lease: Lease, payload: string, upstream: bool): State {
    t.(attempts := t.attempts[lease.attemptId := Attempt(lease, payload, t.serial)], serial := t.serial + 1,
       invoked := if upstream then t.invoked + [lease.attemptId] else t.invoked)
  }

  /** The result of the attempt with this serial is in. */
  function Settle(s: State, id: string, serial: nat): State {
    if id !in s.attempts || s.attempts[id].serial != serial || id in s.settled then s
    else s.(settled := s.settled + [id])
  }

  datatype Event =
    | DispatchEvent(operation: Operation, lease: Lease, payload: string, upstream: bool)
    | SettleEvent(id: string, serial: nat)

  ghost function Step(d: Digest, s: State, e: Event): State {
    match e
    case DispatchEvent(operation, lease, payload, upstream) => Dispatch(d, s, operation, lease, payload, upstream).state
    case SettleEvent(id, serial) => Settle(s, id, serial)
  }

  ghost function Run(d: Digest, s: State, events: seq<Event>): State
    decreases |events|
  {
    if events == [] then s else Run(d, Step(d, s, events[0]), events[1..])
  }

  // ---- The ledger ----

  class DispatchLedger {
    var attempts: map<string, Attempt>
    var settledIds: seq<string>      // a set that iterates in insertion order
    const fence: RetiredFence
    var serial: nat
    ghost var invoked: seq<string>

    ghost predicate Valid()
      reads this, fence, fence.bits
    {
      fence.Valid()
    }

    ghost function View(): State
      reads this, fence
    {
      State(attempts, settledIds, fence.added, serial, invoked)
    }

    constructor (digest: Digest)
      ensures Valid() && View() == FRESH && fence.digest == digest && fresh(fence) && fence.bits == null
    {
      attempts, settledIds, serial, invoked := map[], [], 0, [];
      fence := new RetiredFence(digest);
    }

    method RetireSettledAttempts()
      requires Valid()
      modifies this`attempts, this`settledIds, fence, fence.bits
      ensures Valid() && View() == Retire(old(View()))
      ensures fence.bits == old(fence.bits) || fresh(fence.bits)
    {
      while |attempts| >= MAX_IDENTITIES && settledIds != []
        invariant Valid() && Retire(View()) == Retire(old(View()))
        invariant fence.bits == old(fence.bits) || fresh(fence.bits)
        decreases |settledIds|
      {
        var id := settledIds[0];
        if id == "" { return; }
        settledIds := settledIds[1..];
        if id in attempts {
          attempts := attempts - {id};
          fence.Add(id);
        }
      }
    }

    method DispatchMutation(operation: Operation, lease: Lease, payload: string, upstream: bool) returns (reply: Reply)
      requires Valid()
      modifies this, fence, fence.bits
      ensures Valid()
      ensures Answer(View(), reply) == Dispatch(fence.digest, old(View()), operation, lease, payload, upstream)
      ensures lease.operation == operation && lease.attemptId in old(attempts) ==>
                && View() == old(View())
                && var known := old(attempts)[lease.attemptId];
                   reply == if known.lease == lease && known.payload == payload then Replayed(known.serial) else IdReused
      ensures fence.bits == old(fence.bits) || fresh(fence.bits)
    {
      if lease.operation != operation { return LeaseInvalid; }
      var id := lease.attemptId;
      if id in attempts {
        var existing := attempts[id];
        return if existing.payload != payload || existing.lease != lease then IdReused else Replayed(existing.serial);
      }
      fence.HasIsFenced(id);
      if fence.Has(id) { return Retired; }
      hide Fenced;
      RetireSettledAttempts();
      if |attempts| >= MAX_IDENTITIES { return IdentityLimit; }
      if upstream { invoked := invoked + [id]; }
      reply := Remembered(serial);
      attempts, serial := attempts[id := Attempt(lease, payload, serial)], serial + 1;
    }

    method MarkSettled(id: string, record: nat)
      requires Valid()
      modifies this`settledIds
      ensures Valid() && View() == Settle(old(View()), id, record)
    {
      if id !in attempts || attempts[id].serial != record { return; }
      if id !in settledIds { settledIds := settledIds + [id]; }
    }
  }

  // ---- Results, over every sequence of dispatches and settlements ----

  ghost predicate NoRepeats(s: seq<string>) {
    forall i, j :: 0 <= i < j < |s| ==> s[i] != s[j]
  }

  ghost predicate Inv(s: State) {
    && |s.attempts| <= MAX_IDENTITIES
    && NoRepeats(s.settled) && (forall id :: id in s.settled ==> id in s.attempts)
    && s.attempts.Keys !! s.retired
    && NoRepeats(s.invoked) && (forall id :: id in s.invoked ==> id in s.attempts || id in s.retired)
    && (forall id :: id in s.attempts ==>
          IsAttemptId(id) && s.attempts[id].lease.attemptId == id && s.attempts[id].serial < s.serial)
  }

  /** Eviction stays inside the invariant, touches no unresolved attempt, and stops
      only with a free slot or with nothing settled. */
  lemma {:induction false} RetireFacts(s: State)
    requires Inv(s)
    ensures var t := Retire(s);
            && Inv(t) && t.invoked == s.invoked && t.serial == s.serial && s.retired <= t.retired
            && t.attempts.Keys <= s.attempts.Keys && t.retired <= s.retired + s.attempts.Keys
            && (forall id :: id in s.attempts && id !in s.settled ==> id in t.attempts && t.attempts[id] == s.attempts[id])
            && (|t.attempts| < MAX_IDENTITIES || t.settled == [])
            && (|t.attempts| >= MAX_IDENTITIES ==> t == s)
    decreases |s.settled|
  {
    if |s.attempts| >= MAX_IDENTITIES && s.settled != [] {
      var id := s.settled[0];
      assert id in s.settled && IsAttemptId(id);
      assert forall q :: q in s.settled[1..] ==> q in s.settled && q != id;
      var next := s.(settled := s.settled[1..], attempts := s.attempts - {id}, retired := s.retired + {id});
      assert next.attempts.Keys == s.attempts.Keys - {id};
      assert |next.attempts| == |next.attempts.Keys| == |s.attempts.Keys| - 1;
      assert Retire(s) == Retire(next);
      RetireFacts(next);
      hide NoRepeats;
      RetireStops(next);
    }
  }

  lemma {:induction false} RetireStops(s: State)
    requires |s.attempts| < MAX_IDENTITIES
    ensures Retire(s) == s
  {}

  lemma RememberKeepsInv(t: State, lease: Lease, payload: string, upstream: bool)
    requires Inv(t) && lease.attemptId !in t.attempts && lease.attemptId !in t.retired && |t.attempts| < MAX_IDENTITIES
    ensures Inv(Remember(t, lease, payload, upstream))
  {
    var u := Remember(t, lease, payload, upstream);
    assert u.attempts.Keys == t.attempts.Keys + {lease.attemptId};
    assert |u.attempts| == |u.attempts.Keys| == |t.attempts.Keys| + 1;
    assert lease.attemptId !in t.invoked;
  }

  lemma DispatchKeepsInv(d: Digest, s: State, operation: Operation, lease: Lease, payload: string, upstream: bool)
    requires Inv(s)
    ensures Inv(Dispatch(d, s, operation, lease, payload, upstream).state)
  {
    hide Inv, Fenced, Retire, Remember;
    var id := lease.attemptId;
    if id !in s.attempts && !Fenced(d, s.retired, id) {
      if id in s.retired { AddedIsFenced(d, s.retired, id); }
      NewAfterRetire(s, id);
      if |Retire(s).attempts| < MAX_IDENTITIES { RememberKeepsInv(Retire(s), lease, payload, upstream); }
    }
  }

  lemma NewAfterRetire(s: State, id: string)
    requires Inv(s) && id !in s.attempts && id !in s.retired
    ensures Inv(Retire(s)) && id !in Retire(s).attempts && id !in Retire(s).retired
  {
    hide Inv, Retire;
    RetireFacts(s);
  }

  lemma AddedIsFenced(d: Digest, added: set<string>, id: string)
    requires id in added
    ensures Fenced(d, added, id)
  {
    forall k: nat | k < FENCE_HASHES ensures Covered(d, added, Index(d, id, k)) {
      assert HasIndex(d, id, Index(d, id, k));
    }
  }

  lemma StepKeepsInv(d: Digest, s: State, e: Event)
    requires Inv(s)
    ensures Inv(Step(d, s, e))
  {
    hide Dispatch;
    match e
    case DispatchEvent(operation, lease, payload, upstream) => DispatchKeepsInv(d, s, operation, lease, payload, upstream);
    case SettleEvent(id, serial) =>
  }

  lemma RetiredGrows(d: Digest, s: State, e: Event)
    requires Inv(s)
    ensures s.retired <= Step(d, s, e).retired
  {
    hide Inv, Fenced, Retire;
    RetireFacts(s);
  }

  /** In every run from a fresh connection: no attempt id is invoked upstream twice,
      the ledger stays within its limit, and whatever was invoked is still remembered or fenced. */
  lemma {:induction false} AtMostOnce(d: Digest, events: seq<Event>)
    ensures var s := Run(d, FRESH, events);
            && NoRepeats(s.invoked) && |s.attempts| <= MAX_IDENTITIES
            && forall id :: id in s.invoked ==> id in s.attempts || Fenced(d, s.retired, id)
  {
    RunKeepsInv(d, FRESH, events);
    var s := Run(d, FRESH, events);
    forall id | id in s.invoked ensures id in s.attempts || Fenced(d, s.retired, id) {
      if id in s.retired { AddedIsFenced(d, s.retired, id); }
    }
  }

  lemma {:induction false} RunKeepsInv(d: Digest, s: State, events: seq<Event>)
    requires Inv(s)
    ensures Inv(Run(d, s, events))
    decreases |events|
  {
    if events != [] {
      StepKeepsInv(d, s, events[0]);
      RunKeepsInv(d, Step(d, s, events[0]), events[1..]);
    }
  }

  /** Once an id is retired, every later dispatch of it is refused for good. */
  lemma {:induction false} RetiredForever(d: Digest, s: State, events: seq<Event>, lease: Lease, payload: string, upstream: bool)
    requires Inv(s) && lease.attemptId in s.retired
    ensures Dispatch(d, Run(d, s, events), lease.operation, lease, payload, upstream).reply == Retired
    decreases |events|
  {
    hide Fenced, Step, Retire;
    if events == [] {
      AddedIsFenced(d, s.retired, lease.attemptId);
    } else {
      StepKeepsInv(d, s, events[0]);
      RetiredGrows(d, s, events[0]);
      RetiredForever(d, Step(d, s, events[0]), events[1..], lease, payload, upstream);
    }
  }

  ghost predicate Settles(events: seq<Event>, id: string, serial: nat) {
    exists k :: 0 <= k < |events| && events[k] == SettleEvent(id, serial)
  }

  /** An unresolved attempt is never evicted: until it settles, dispatching it again
      returns the same result, and dispatching its id with anything else is refused. */
  lemma {:induction false} UnresolvedIsKept(d: Digest, s: State, events: seq<Event>, id: string, lease: Lease, payload: string)
    requires Inv(s) && id in s.attempts && id !in s.settled && !Settles(events, id, s.attempts[id].serial)
    requires lease.attemptId == id
    ensures var reply := Dispatch(d, Run(d, s, events), lease.operation, lease, payload, true).reply;
            reply == if s.attempts[id].lease == lease && s.attempts[id].payload == payload
                     then Replayed(s.attempts[id].serial) else IdReused
    decreases |events|
  {
    if events != [] {
      assert events[0] != SettleEvent(id, s.attempts[id].serial);
      assert forall k :: 0 <= k < |events[1..]| ==> events[1..][k] == events[k + 1];
      StepKeepsInv(d, s, events[0]);
      KeptByStep(d, s, events[0], id);
      UnresolvedIsKept(d, Step(d, s, events[0]), events[1..], id, lease, payload);
    }
  }

  lemma KeptByStep(d: Digest, s: State, e: Event, id: string)
    requires Inv(s) && id in s.attempts && id !in s.settled && e != SettleEvent(id, s.attempts[id].serial)
    ensures var t := Step(d, s, e); id in t.attempts && t.attempts[id] == s.attempts[id] && id !in t.settled
  {
    hide Inv, Fenced, Retire;
    RetireFacts(s);
    RetireKeepsOrder(s);
  }

  lemma {:induction false} RetireKeepsOrder(s: State)
    ensures forall id :: id in Retire(s).settled ==> id in s.settled
    decreases |s.settled|
  {
    if !(|s.attempts| < MAX_IDENTITIES || s.settled == [] || s.settled[0] == "") {
      var id := s.settled[0];
      if id !in s.attempts { RetireKeepsOrder(s.(settled := s.settled[1..])); }
      else { RetireKeepsOrder(s.(settled := s.settled[1..], attempts := s.attempts - {id}, retired := s.retired + {id})); }
    }
  }

  /** In every run a new attempt meets the identity limit exactly when the ledger is
      full of unresolved attempts. */
  lemma LimitExactly(d: Digest, events: seq<Event>, lease: Lease, payload: string, upstream: bool)
    ensures var s := Run(d, FRESH, events);
            Dispatch(d, s, lease.operation, lease, payload, upstream).reply == IdentityLimit
            <==> && lease.attemptId !in s.attempts && !Fenced(d, s.retired, lease.attemptId)
                 && |s.attempts| == MAX_IDENTITIES && forall id :: id in s.attempts ==> id !in s.settled
  {
    RunKeepsInv(d, FRESH, events);
    FullOfUnresolved(Run(d, FRESH, events));
    hide Fenced, Run, Retire, Remember, Inv;
  }

  lemma FullOfUnresolved(s: State)
    requires Inv(s)
    ensures |Retire(s).attempts| >= MAX_IDENTITIES
       <==> |s.attempts| == MAX_IDENTITIES && forall id :: id in s.attempts ==> id !in s.settled
  {
    RetireFacts(s);
    if s.settled != [] { assert s.settled[0] in s.settled && s.settled[0] in s.attempts; }
  }
}
