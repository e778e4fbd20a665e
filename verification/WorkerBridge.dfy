/** The host side of the resident worker: requests waiting for a response, and the
    verdict each one is settled with when the worker answers, is late, or is lost. */
module WorkerBridges {
  import opened Outcomes

  const MAX_PENDING := 1_024
  const MAX_RETIRED := 4_096

  /** What a request asks; a query is any operation that changes nothing upstream. */
  datatype Kind =
    | Query | ClientRequest(list: bool) | Prompt | Abort | SetModel | SetThinkingLevel | RespondExtensionUi
    | Promote | Dispose

  datatype Resource = ClientResource(client: nat) | ConnectionResource(connection: nat)

  datatype Request = Request(kind: Kind, resource: Resource)

  datatype Pending = Pending(request: Request, mutation: bool, posted: bool)

  /** How a request's promise settles; a rejection says whether the outcome is known. */
  datatype Verdict = Fulfilled | Definitive | Unknown

  /** `retired` keeps the latest settled ids, `owned` the connections whose proxy
      still believes it owns its session. */
  datatype Bridge = Bridge(
    pending: map<nat, Pending>, settled: map<nat, Verdict>, retired: seq<nat>, ordinal: nat,
    ready: bool, closing: bool, terminal: bool, owned: set<nat>)

  const FRESH := Bridge(map[], map[], [], 0, false, false, false, {})

  /** Whether the host treats the request as a mutation. */
  predicate IsMutation(b: Bridge, r: Request) {
    match r.kind
    case Query => false
    case ClientRequest(list) => !list
    case Dispose => r.resource.ConnectionResource? && r.resource.connection in b.owned
    case _ => true
  }

  function Retire(retired: seq<nat>, id: nat): seq<nat> {
    var longer := if id in retired then retired else retired + [id];
    if |longer| > MAX_RETIRED then longer[1..] else longer
  }

  function SettleOne(b: Bridge, id: nat, v: Verdict): Bridge {
    b.(pending := b.pending - {id}, settled := b.settled[id := v], retired := Retire(b.retired, id))
  }

  /** A request given up without an answer: only a mutation that was posted may have happened. */
  function LostVerdict(p: Pending): Verdict {
    if p.mutation && p.posted then Unknown else Definitive
  }

  predicate Concerns(p: Pending, only: Option<Resource>) {
    only.None? || p.request.resource == only.value
  }

  /** Gives up the pending requests with ids up to `n`, of one resource or of all, in order. */
  function GiveUp(b: Bridge, n: nat, only: Option<Resource>): Bridge {
    if n == 0 then b
    else
      var before := GiveUp(b, n - 1, only);
      if n in before.pending && Concerns(before.pending[n], only)
      then SettleOne(before, n, LostVerdict(before.pending[n])) else before
  }

  predicate MayInvoke(b: Bridge) {
    !b.terminal && !b.closing && |b.pending| < MAX_PENDING
  }

  function Invoke(b: Bridge, r: Request): Bridge {
    if !MayInvoke(b) then b
    else b.(ordinal := b.ordinal + 1, pending := b.pending[b.ordinal + 1 := Pending(r, IsMutation(b, r), false)])
  }

  /** The ready callback of one request; the post itself may throw, and then nothing was sent. */
  function Post(b: Bridge, id: nat, sent: bool): Bridge {
    if id !in b.pending then b
    else if sent then b.(pending := b.pending[id := b.pending[id].(posted := true)])
    else SettleOne(b, id, Definitive)
  }

  function TimeOut(b: Bridge, id: nat): Bridge {
    if id !in b.pending then b else SettleOne(b, id, LostVerdict(b.pending[id]))
  }

  function FailTransport(b: Bridge): Bridge {
    if b.terminal then b else GiveUp(b.(terminal := true), b.ordinal, None)
  }

  function RejectResource(b: Bridge, r: Resource): Bridge {
    GiveUp(b, b.ordinal, Some(r))
  }

  function Close(b: Bridge): Bridge {
    if b.closing then b else GiveUp(b.(closing := true), b.ordinal, None)
  }

  /** The worker's readiness; a second one breaks the protocol. */
  function BecomeReady(b: Bridge): Bridge {
    if b.terminal then b else if b.ready then FailTransport(b) else b.(ready := true)
  }

  /** A response names the request's operation; `failure` is None for success. */
  datatype Response = Response(id: nat, request: Request, failure: Option<Verdict>)

  function ReceiveResponse(b: Bridge, r: Response): Bridge {
    if b.terminal then b
    else if r.id !in b.pending then if r.id in b.retired then b else FailTransport(b)
    else if r.request != b.pending[r.id].request then FailTransport(b)
    else
      var settled := SettleOne(b, r.id, if r.failure.None? then Fulfilled else r.failure.value);
      if r.failure.None? && r.request.kind.Promote? && r.request.resource.ConnectionResource?
      then settled.(owned := settled.owned - {r.request.resource.connection}) else settled
  }

  // ---- Giving up ----

  lemma {:induction false} GiveUpLeaves(b: Bridge, n: nat, only: Option<Resource>)
    ensures var t := GiveUp(b, n, only);
            && t == b.(pending := t.pending, settled := t.settled, retired := t.retired)
            && (forall id: nat :: id in t.pending <==> id in b.pending && !(1 <= id <= n && Concerns(b.pending[id], only)))
            && (forall id: nat :: id in t.pending ==> t.pending[id] == b.pending[id])
  {
    hide Retire, LostVerdict, Concerns;
    if n > 0 { GiveUpLeaves(b, n - 1, only); }
  }

  /** Giving up settles exactly the requests concerned, as unknown those that are mutations
      and were posted, as definitive the rest, and no other. */
  lemma {:induction false} GiveUpFacts(b: Bridge, n: nat, only: Option<Resource>)
    ensures var t := GiveUp(b, n, only);
            && t == b.(pending := t.pending, settled := t.settled, retired := t.retired)
            && (forall id: nat :: id in t.pending <==> id in b.pending && !(1 <= id <= n && Concerns(b.pending[id], only)))
            && (forall id: nat :: id in t.pending ==> t.pending[id] == b.pending[id])
            && (forall id: nat :: id in t.settled <==> id in b.settled || (id in b.pending && id !in t.pending))
            && (forall id: nat :: id in t.settled ==>
                 t.settled[id] ==
                   if id in b.pending && id !in t.pending then if b.pending[id].mutation && b.pending[id].posted then Unknown else Definitive
                   else b.settled[id])
  {
    GiveUpLeaves(b, n, only);
    hide Retire, Concerns;
    if n > 0 {
      GiveUpFacts(b, n - 1, only);
      var before := GiveUp(b, n - 1, only);
      assert n in before.pending <==> n in b.pending;
    }
  }

  // ---- The bridge ----

  class ResidentWorkerBridge {
    var pending: map<nat, Pending>
    var retiredRequestIds: seq<nat>      // a set that iterates in insertion order
    var requestOrdinal: nat
    var ready: bool
    var closing: bool
    var terminal: bool
    var ownedSessions: set<nat>
    ghost var settled: map<nat, Verdict>

    ghost function View(): Bridge
      reads this
    {
      Bridge(pending, settled, retiredRequestIds, requestOrdinal, ready, closing, terminal, ownedSessions)
    }

    constructor ()
      ensures View() == FRESH
    {
      pending, retiredRequestIds, requestOrdinal, ready, closing, terminal := map[], [], 0, false, false, false;
      ownedSessions, settled := {}, map[];
    }

    method RetireRequestId(id: nat)
      modifies this`retiredRequestIds
      ensures retiredRequestIds == Retire(old(retiredRequestIds), id)
    {
      if id !in retiredRequestIds { retiredRequestIds := retiredRequestIds + [id]; }
      if |retiredRequestIds| > MAX_RETIRED { retiredRequestIds := retiredRequestIds[1..]; }
    }

    /** Settles one pending request's promise. */
    method Settle(id: nat, v: Verdict)
      modifies this`pending, this`retiredRequestIds, this`settled
      ensures View() == SettleOne(old(View()), id, v)
    {
      pending, settled := pending - {id}, settled[id := v];
      RetireRequestId(id);
    }

    method InvokeOperation(r: Request) returns (id: Option<nat>)
      modifies this`pending, this`requestOrdinal
      ensures View() == Invoke(old(View()), r)
      ensures id == if MayInvoke(old(View())) then Some(old(requestOrdinal) + 1) else None
    {
      if terminal || closing || |pending| >= MAX_PENDING { return None; }
      var mutation := match r.kind {
        case Query => false
        case ClientRequest(list) => !list
        case Dispose => r.resource.ConnectionResource? && r.resource.connection in ownedSessions
        case _ => true
      };
      requestOrdinal := requestOrdinal + 1;
      pending := pending[requestOrdinal := Pending(r, mutation, false)];
      id := Some(requestOrdinal);
    }

    method PostWhenReady(id: nat, sent: bool)
      modifies this`pending, this`retiredRequestIds, this`settled
      ensures View() == Post(old(View()), id, sent)
    {
      if id !in pending { return; }
      if sent {
        pending := pending[id := pending[id].(posted := true)];
      } else {
        Settle(id, Definitive);
      }
    }

    method RequestTimedOut(id: nat)
      modifies this`pending, this`retiredRequestIds, this`settled
      ensures View() == TimeOut(old(View()), id)
      ensures id in old(pending) ==>
                id !in pending && id in settled
                && settled[id] == if old(pending)[id].mutation && old(pending)[id].posted then Unknown else Definitive
      ensures id !in old(pending) ==> View() == old(View())
    {
      if id !in pending { return; }
      Settle(id, LostVerdict(pending[id]));
    }

    /** Rejects the pending requests concerned, oldest first. */
    method RejectPending(only: Option<Resource>)
      modifies this`pending, this`retiredRequestIds, this`settled
      ensures View() == GiveUp(old(View()), old(requestOrdinal), only)
    {
      for n := 0 to requestOrdinal
        invariant View() == GiveUp(old(View()), n, only) && requestOrdinal == old(requestOrdinal)
      {
        if n + 1 in pending && Concerns(pending[n + 1], only) {
          Settle(n + 1, LostVerdict(pending[n + 1]));
        }
      }
    }

    method TransportFailed()
      modifies this
      ensures View() == FailTransport(old(View()))
    {
      if terminal { return; }
      terminal := true;
      RejectPending(None);
    }

    method ResourceClosed(r: Resource)
      modifies this
      ensures View() == RejectResource(old(View()), r)
    {
      RejectPending(Some(r));
    }

    method CloseBridge()
      modifies this
      ensures View() == Close(old(View()))
    {
      if closing { return; }
      closing := true;
      RejectPending(None);
    }

    method ReceiveReady()
      modifies this
      ensures View() == BecomeReady(old(View()))
    {
      if terminal { return; }
      if ready { TransportFailed(); } else { ready := true; }
    }

    /** A response from the worker; anything that breaks the protocol fails the transport. */
    method Receive(r: Response)
      modifies this
      ensures View() == ReceiveResponse(old(View()), r)
    {
      if terminal { return; }
      if r.id !in pending {
        if r.id !in retiredRequestIds { TransportFailed(); }
        return;
      }
      if r.request != pending[r.id].request {
        TransportFailed();
        return;
      }
      Settle(r.id, if r.failure.None? then Fulfilled else r.failure.value);
      if r.failure.None? && r.request.kind.Promote? && r.request.resource.ConnectionResource? {
        ownedSessions := ownedSessions - {r.request.resource.connection};
      }
    }
  }
}
