/** Host bridge and worker server together: requests and responses travel in order,
    and either side may be late, close or die at any point. The question is what
    the verdict of a rejection says about the upstream session. */
module WorkerProtocols {
  import opened Outcomes
  import opened ResidentSessions
  import opened WorkerBridges

  datatype Session = Session(ownership: Ownership, disposed: bool)

  /** How the upstream call of a request ended. */
  datatype Answer = Succeeds | Cancelled | Unsupported | FailsOtherwise

  datatype ToServer = RequestMessage(id: nat, request: Request) | CancelMessage(id: nat) | ShutdownMessage

  datatype ToBridge = ReadyMessage | ResponseMessage(response: Response) | FatalMessage | ClosedMessage

  /** `invoked` holds the requests whose upstream mutation was started, `answers`
      how upstream calls ended; both are history. */
  datatype Server = Server(
    lastOrdinal: nat, active: map<nat, Request>, sessions: map<nat, Session>, closing: bool, fatalSent: bool,
    invoked: set<nat>, answers: map<nat, Answer>)

  /** `asked` and `posted` are history: every request registered, and those sent. */
  datatype State = State(
    bridge: Bridge, server: Server, toServer: seq<ToServer>, toBridge: seq<ToBridge>,
    asked: map<nat, Pending>, posted: set<nat>, connections: nat)

  const BEGIN := State(FRESH, Server(0, map[], map[], false, false, {}, map[]), [], [], map[], {}, 0)

  datatype Event =
    | InvokeEvent(request: Request)
    | PostEvent(id: nat, sent: bool)
    | TimeOutEvent(id: nat)
    | CancelEvent(id: nat)
    | ResourceClosedEvent(resource: Resource)
    | TransportEvent                       // worker error or exit, or the readiness deadline
    | CloseEvent
    | AttachedEvent(owned: bool)
    | RuntimeLoaded
    | DeliverToServer(accepted: bool)      // the local checks before the upstream call pass
    | UpstreamAnswers(id: nat, answer: Answer, serializable: bool)
    | SessionDropped(connection: nat)      // its client closed
    | ServerFails
    | DeliverToBridge

  // ---- The server ----

  /** Whether executing the request starts an upstream mutation. */
  predicate Marks(v: Server, r: Request) {
    match r.kind
    case Query => false
    case ClientRequest(list) => !list
    case Dispose => r.resource.ConnectionResource? && r.resource.connection in v.sessions && v.sessions[r.resource.connection].ownership.Owned?
    case _ => true
  }

  /** The connection is there, and fit for the operation. */
  predicate Available(v: Server, r: Request) {
    r.resource.ConnectionResource? && !r.kind.Query? ==>
      && r.resource.connection in v.sessions
      && (r.kind.Dispose? || !v.sessions[r.resource.connection].disposed)
      && (r.kind.Promote? ==> v.sessions[r.resource.connection].ownership.Owned?)
  }

  function FailureOutcome(invoked: bool, k: Kind, a: Answer): Verdict {
    if !invoked then Definitive
    else if (k.Prompt? || k.Abort?) && (a.Cancelled? || a.Unsupported?) then Definitive else Unknown
  }

  datatype Served = Served(server: Server, posts: seq<ToBridge>)

  function Respond(v: Server, id: nat, r: Request, failure: Option<Verdict>): Served {
    Served(v, if v.closing then [] else [ResponseMessage(Response(id, r, failure))])
  }

  function Fatal(v: Server): Served {
    if v.fatalSent then Served(v, []) else Served(v.(closing := true, fatalSent := true), [FatalMessage])
  }

  /** Starts the upstream call of a request whose local checks passed. */
  function Launch(v: Server, id: nat, r: Request): Server {
    var invoked := if Marks(v, r) then v.invoked + {id} else v.invoked;
    var sessions := if !r.resource.ConnectionResource? || r.resource.connection !in v.sessions then v.sessions
                    else if r.kind.Promote? then v.sessions[r.resource.connection := Session(Promoting, false)]
                    else if r.kind.Dispose? then v.sessions[r.resource.connection := v.sessions[r.resource.connection].(disposed := true)]
                    else v.sessions;
    v.(active := v.active[id := r], invoked := invoked, sessions := sessions)
  }

  /** A disposal that needs no upstream call: it was done before, or a promotion makes it unsafe. */
  predicate EndsHere(v: Server, r: Request)
    requires Available(v, r)
  {
    r.kind.Dispose? && r.resource.ConnectionResource? &&
    (v.sessions[r.resource.connection].disposed || v.sessions[r.resource.connection].ownership.Promoting?
     || v.sessions[r.resource.connection].ownership.PromotionUnknown?)
  }

  predicate Launches(v: Server, r: Request, accepted: bool) {
    accepted && Available(v, r) && !EndsHere(v, r)
  }

  /** A request is checked and, when fine, invoked upstream in the same turn it arrives. */
  function Execute(v: Server, id: nat, r: Request, accepted: bool): Served {
    if Launches(v, r, accepted) then Served(Launch(v, id, r), [])
    else if !accepted || !Available(v, r) then Respond(v, id, r, Some(Definitive))
    else
      var c := r.resource.connection;
      Respond(v.(sessions := v.sessions - {c}), id, r, if v.sessions[c].disposed then None else Some(Definitive))
  }

  function Deliver(v: Server, m: ToServer, accepted: bool): Served {
    if v.closing then Served(v, [])
    else
      match m
      case CancelMessage(_) => Served(v, [])
      case ShutdownMessage => Served(v.(closing := true), [ClosedMessage])
      case RequestMessage(id, r) =>
        if id != v.lastOrdinal + 1 || |v.active| >= MAX_PENDING then Fatal(v)
        else Execute(v.(lastOrdinal := id), id, r, accepted)
  }

  /** The session after its promotion or disposal call ended. */
  function Concluded(v: Server, r: Request, a: Answer): map<nat, Session> {
    if !r.resource.ConnectionResource? || r.resource.connection !in v.sessions then v.sessions
    else if r.kind.Promote? then
      v.sessions[r.resource.connection := v.sessions[r.resource.connection].(ownership := if a.Succeeds? then Resident else PromotionUnknown)]
    else if r.kind.Dispose? && a.Succeeds? then v.sessions - {r.resource.connection}
    else v.sessions
  }

  function Conclude(v: Server, id: nat, a: Answer, serializable: bool): Served
    requires id in v.active
  {
    var r := v.active[id];
    var w := v.(active := v.active - {id}, answers := v.answers[id := a], sessions := Concluded(v, r, a));
    if !serializable then Fatal(w)
    else Respond(w, id, r, if a.Succeeds? then None else Some(FailureOutcome(id in v.invoked, r.kind, a)))
  }

  // ---- Steps ----

  function Serve(s: State, served: Served): State {
    s.(server := served.server, toBridge := s.toBridge + served.posts)
  }

  /** Requests are posted in the order they were made. */
  predicate NextToPost(b: Bridge, id: nat) {
    b.ready && id in b.pending && !b.pending[id].posted && forall j :: j in b.pending && j < id ==> b.pending[j].posted
  }

  function Hear(b: Bridge, m: ToBridge): Bridge {
    match m
    case ReadyMessage => BecomeReady(b)
    case ResponseMessage(r) => ReceiveResponse(b, r)
    case FatalMessage => FailTransport(b)
    case ClosedMessage => if b.closing then b else FailTransport(b)
  }

  ghost function Step(s: State, e: Event): State {
    match e
    case InvokeEvent(r) =>
      if !MayInvoke(s.bridge) || (r.resource.ConnectionResource? && r.resource.connection > s.connections) then s
      else s.(bridge := Invoke(s.bridge, r), asked := s.asked[s.bridge.ordinal + 1 := Pending(r, IsMutation(s.bridge, r), false)])
    case PostEvent(id, sent) =>
      if !NextToPost(s.bridge, id) then s
      else if !sent then s.(bridge := Post(s.bridge, id, false))
      else s.(bridge := Post(s.bridge, id, true), toServer := s.toServer + [RequestMessage(id, s.bridge.pending[id].request)],
              posted := s.posted + {id})
    case TimeOutEvent(id) => s.(bridge := TimeOut(s.bridge, id))
    case CancelEvent(id) => s.(toServer := s.toServer + [CancelMessage(id)])
    case ResourceClosedEvent(r) => s.(bridge := RejectResource(s.bridge, r))
    case TransportEvent => s.(bridge := FailTransport(s.bridge))
    case CloseEvent =>
      if s.bridge.closing then s
      else s.(bridge := Close(s.bridge), toServer := if s.bridge.terminal then s.toServer else s.toServer + [ShutdownMessage])
    case AttachedEvent(owned) =>
      var c := s.connections + 1;
      s.(connections := c, bridge := if owned then s.bridge.(owned := s.bridge.owned + {c}) else s.bridge,
         server := s.server.(sessions := s.server.sessions[c := Session(if owned then Owned else Resident, false)]))
    case RuntimeLoaded => if s.server.closing then s else s.(toBridge := s.toBridge + [ReadyMessage])
    case DeliverToServer(accepted) =>
      if s.toServer == [] then s else Serve(s.(toServer := s.toServer[1..]), Deliver(s.server, s.toServer[0], accepted))
    case UpstreamAnswers(id, answer, serializable) =>
      if id !in s.server.active then s else Serve(s, Conclude(s.server, id, answer, serializable))
    case SessionDropped(c) => s.(server := s.server.(sessions := s.server.sessions - {c}))
    case ServerFails => Serve(s, Fatal(s.server))
    case DeliverToBridge =>
      if s.toBridge == [] then s else s.(bridge := Hear(s.bridge, s.toBridge[0]), toBridge := s.toBridge[1..])
  }

  ghost function Run(s: State, events: seq<Event>): State
    decreases |events|
  {
    if events == [] then s else Run(Step(s, events[0]), events[1..])
  }

  // ---- What holds in every reachable state ----

  type Asked = map<nat, Pending>

  /** Nothing was changed upstream on behalf of the request, or upstream itself
      answered that the prompt or stop was cancelled or unsupported. */
  predicate NotDone(v: Server, asked: Asked, id: nat) {
    id !in v.invoked ||
    (id in asked && (asked[id].request.kind.Prompt? || asked[id].request.kind.Abort?)
     && id in v.answers && (v.answers[id].Cancelled? || v.answers[id].Unsupported?))
  }

  /** And nothing will be: it was never a mutation, was never sent, or was already dealt with. */
  predicate Clean(v: Server, asked: Asked, posted: set<nat>, id: nat) {
    && id in asked
    && (!asked[id].mutation || id !in posted || (id <= v.lastOrdinal && id !in v.active && NotDone(v, asked, id)))
  }

  ghost predicate BridgeInv(b: Bridge, asked: Asked, posted: set<nat>, connections: nat) {
    && (forall id :: id in asked ==> 1 <= id <= b.ordinal && (id in b.pending <==> id !in b.settled))
    && (forall id :: id in b.pending ==> id in asked && b.pending[id] == asked[id].(posted := id in posted))
    && (forall id :: id in b.settled ==> id in asked)
    && (forall id :: id in posted ==> id in asked)
    && (forall p, u :: p in posted && u in b.pending && u !in posted ==> p < u)
    && (b.terminal || b.closing ==> b.pending == map[])
    && (forall id :: id in asked && asked[id].request.resource.ConnectionResource? ==> asked[id].request.resource.connection <= connections)
  }

  ghost predicate SentInv(toServer: seq<ToServer>, lastOrdinal: nat, asked: Asked, posted: set<nat>) {
    && (forall i :: 0 <= i < |toServer| && toServer[i].RequestMessage? ==>
         && toServer[i].id in posted && toServer[i].id > lastOrdinal
         && toServer[i].id in asked && toServer[i].request == asked[toServer[i].id].request)
    && (forall i, j :: 0 <= i < j < |toServer| && toServer[i].RequestMessage? && toServer[j].RequestMessage? ==>
         toServer[i].id < toServer[j].id)
  }

  ghost predicate ServerInv(v: Server, asked: Asked, posted: set<nat>, connections: nat) {
    && (forall id :: id in v.active ==> id <= v.lastOrdinal && id in posted && id in asked && v.active[id] == asked[id].request)
    && (forall id :: id in v.invoked ==> id <= v.lastOrdinal && id in posted && id in asked && asked[id].mutation)
    && (forall id :: id in v.answers ==> id <= v.lastOrdinal && id !in v.active)
    && (forall c :: c in v.sessions ==> c <= connections)
    && (v.lastOrdinal == 0 || v.lastOrdinal in posted)
  }

  predicate IsPromotion(r: Request, c: nat) { r.kind.Promote? && r.resource == ConnectionResource(c) }

  /** A session is promoting while its one promotion runs. */
  ghost predicate PromotionInv(active: map<nat, Request>, sessions: map<nat, Session>) {
    && (forall id, c :: id in active && c in sessions && IsPromotion(active[id], c) ==> sessions[c].ownership.Promoting?)
    && (forall i, j, c :: i in active && j in active && c in sessions && IsPromotion(active[i], c) && IsPromotion(active[j], c) ==> i == j)
  }

  /** Executing it, now or later, starts no mutation. */
  predicate Harmless(sessions: map<nat, Session>, r: Request) {
    match r.kind
    case Query => true
    case ClientRequest(list) => list
    case Dispose => r.resource.ConnectionResource? && r.resource.connection in sessions ==> sessions[r.resource.connection].ownership.Resident?
    case _ => false
  }

  /** A proxy that no longer owns its session talks to one the server will not complete either. */
  ghost predicate OwnerInv(sessions: map<nat, Session>, owned: set<nat>, asked: Asked) {
    && (forall c :: c in sessions && c !in owned ==> sessions[c].ownership.Resident?)
    && (forall id :: id in asked && !asked[id].mutation ==> Harmless(sessions, asked[id].request))
  }

  predicate PromotedFine(sessions: map<nat, Session>, r: Response) {
    r.failure.None? && r.request.kind.Promote? && r.request.resource.ConnectionResource? && r.request.resource.connection in sessions
    ==> sessions[r.request.resource.connection].ownership.Resident?
  }

  predicate ResponseFine(v: Server, asked: Asked, posted: set<nat>, r: Response) {
    && r.id in posted && r.id in asked && r.request == asked[r.id].request
    && r.id <= v.lastOrdinal && r.id !in v.active
    && r.failure != Some(Fulfilled) && PromotedFine(v.sessions, r)
    && (r.failure == Some(Definitive) ==> NotDone(v, asked, r.id))
  }

  ghost predicate RepliedInv(toBridge: seq<ToBridge>, v: Server, asked: Asked, posted: set<nat>) {
    forall i :: 0 <= i < |toBridge| && toBridge[i].ResponseMessage? ==> ResponseFine(v, asked, posted, toBridge[i].response)
  }

  ghost predicate VerdictInv(settled: map<nat, Verdict>, v: Server, asked: Asked, posted: set<nat>) {
    forall id :: id in settled && settled[id].Definitive? ==> Clean(v, asked, posted, id)
  }

  ghost predicate Inv(s: State) {
    && BridgeInv(s.bridge, s.asked, s.posted, s.connections) && SentInv(s.toServer, s.server.lastOrdinal, s.asked, s.posted)
    && ServerInv(s.server, s.asked, s.posted, s.connections) && PromotionInv(s.server.active, s.server.sessions)
    && OwnerInv(s.server.sessions, s.bridge.owned, s.asked) && RepliedInv(s.toBridge, s.server, s.asked, s.posted)
    && VerdictInv(s.bridge.settled, s.server, s.asked, s.posted)
  }

  /** Every verdict given stays given. */
  ghost predicate SettledStays(s: State, t: State) {
    forall id :: id in s.bridge.settled ==> id in t.bridge.settled && t.bridge.settled[id] == s.bridge.settled[id]
  }

  ghost predicate Keeps(s: State, t: State) { Inv(t) && SettledStays(s, t) }

  // ---- The bridge's own steps ----

  /** Some pending requests are settled, definitively only when clean; nothing else changes
      but the bridge's modes. */
  ghost predicate GivesUp(s: State, b: Bridge) {
    && b.ordinal == s.bridge.ordinal && b.owned == s.bridge.owned
    && (b.terminal || b.closing ==> b.pending == map[])
    && (forall id :: id in b.pending ==> id in s.bridge.pending && b.pending[id] == s.bridge.pending[id])
    && (forall id :: id in b.settled <==> id in s.bridge.settled || (id in s.bridge.pending && id !in b.pending))
    && (forall id :: id in s.bridge.settled ==> b.settled[id] == s.bridge.settled[id])
    && (forall id :: id in b.settled && id !in s.bridge.settled && b.settled[id].Definitive? ==> Clean(s.server, s.asked, s.posted, id))
  }

  lemma GivingUpKeepsInv(s: State, b: Bridge)
    requires Inv(s) && GivesUp(s, b)
    ensures Keeps(s, s.(bridge := b))
  {
    hide Clean, SentInv, ServerInv, PromotionInv, OwnerInv, RepliedInv;
  }

  lemma LostIsClean(s: State, id: nat)
    requires Inv(s) && id in s.bridge.pending
    ensures LostVerdict(s.bridge.pending[id]).Definitive? ==> Clean(s.server, s.asked, s.posted, id)
  {
    hide SentInv, ServerInv, PromotionInv, OwnerInv, RepliedInv, VerdictInv;
  }

  lemma PendingIsUnsettled(s: State)
    requires Inv(s)
    ensures forall id :: id in s.bridge.settled ==> id !in s.bridge.pending
    ensures s.bridge.terminal || s.bridge.closing ==> s.bridge.pending == map[]
    ensures forall id :: id in s.bridge.pending ==> 1 <= id <= s.bridge.ordinal
    ensures forall id :: id in s.bridge.pending && !(s.bridge.pending[id].mutation && s.bridge.pending[id].posted) ==>
              Clean(s.server, s.asked, s.posted, id)
  {
    hide SentInv, ServerInv, PromotionInv, OwnerInv, RepliedInv, VerdictInv;
  }

  lemma GiveUpGivesUp(s: State, b: Bridge, only: Option<Resource>)
    requires Inv(s)
    requires b == s.bridge || (only.None? && (b == s.bridge.(terminal := true) || b == s.bridge.(closing := true)))
    ensures GivesUp(s, GiveUp(b, b.ordinal, only))
  {
    hide LostVerdict, Clean, Inv, GiveUp;
    PendingIsUnsettled(s);
    GiveUpFacts(b, b.ordinal, only);
    var t := GiveUp(b, b.ordinal, only);
    if only.None? {
      assert forall id :: id !in t.pending;
      assert t.pending == map[];
    }
    forall id | id in t.settled && id !in s.bridge.settled && t.settled[id].Definitive?
      ensures Clean(s.server, s.asked, s.posted, id)
    {
      assert id in b.pending && id !in t.pending;
    }
  }

  lemma SettleOneGivesUp(s: State, id: nat, v: Verdict)
    requires Inv(s) && id in s.bridge.pending && (v.Definitive? ==> Clean(s.server, s.asked, s.posted, id))
    ensures GivesUp(s, SettleOne(s.bridge, id, v))
  {
    hide Clean, Retire, SentInv, ServerInv, PromotionInv, OwnerInv, RepliedInv, VerdictInv;
  }

  lemma TimeOutKeepsInv(s: State, id: nat)
    requires Inv(s)
    ensures Keeps(s, s.(bridge := TimeOut(s.bridge, id)))
  {
    hide Inv, GivesUp, LostVerdict;
    if id in s.bridge.pending {
      LostIsClean(s, id);
      SettleOneGivesUp(s, id, LostVerdict(s.bridge.pending[id]));
      GivingUpKeepsInv(s, TimeOut(s.bridge, id));
    } else {
      assert s.(bridge := s.bridge) == s;
    }
  }

  lemma RejectKeepsInv(s: State, r: Resource)
    requires Inv(s)
    ensures Keeps(s, s.(bridge := RejectResource(s.bridge, r)))
  {
    hide Inv, GivesUp;
    GiveUpGivesUp(s, s.bridge, Some(r));
    GivingUpKeepsInv(s, RejectResource(s.bridge, r));
  }

  lemma FailTransportKeepsInv(s: State)
    requires Inv(s)
    ensures Keeps(s, s.(bridge := FailTransport(s.bridge)))
  {
    hide Inv, GivesUp;
    if s.bridge.terminal {
      assert s.(bridge := s.bridge) == s;
    } else {
      GiveUpGivesUp(s, s.bridge.(terminal := true), None);
      GivingUpKeepsInv(s, FailTransport(s.bridge));
    }
  }

  lemma CloseKeepsInv(s: State)
    requires Inv(s)
    ensures Keeps(s, Step(s, CloseEvent))
  {
    hide Inv, GivesUp;
    if !s.bridge.closing {
      var t := s.(bridge := Close(s.bridge));
      GiveUpGivesUp(s, s.bridge.(closing := true), None);
      GivingUpKeepsInv(s, Close(s.bridge));
      ControlMessageKeepsInv(t, ShutdownMessage);
    }
  }

  lemma ControlMessageKeepsInv(s: State, m: ToServer)
    requires Inv(s) && !m.RequestMessage?
    ensures Inv(s.(toServer := s.toServer + [m]))
  {
    hide BridgeInv, ServerInv, PromotionInv, OwnerInv, RepliedInv, VerdictInv;
  }

  lemma InvokeKeepsInv(s: State, r: Request)
    requires Inv(s)
    ensures Keeps(s, Step(s, InvokeEvent(r)))
  {
    hide BridgeInv, SentInv, ServerInv, RepliedInv, VerdictInv, PromotionInv, OwnerInv, IsMutation, MayInvoke;
    if MayInvoke(s.bridge) && (r.resource.ConnectionResource? ==> r.resource.connection <= s.connections) {
      var id := s.bridge.ordinal + 1;
      var p := Pending(r, IsMutation(s.bridge, r), false);
      InvokeKeepsBridge(s, r, p);
      InvokeKeepsOwner(s, r, p);
      NewIsUnasked(s);
      AskedGrows(s, id, p);
    }
  }

  lemma InvokeKeepsOwner(s: State, r: Request, p: Pending)
    requires Inv(s) && p == Pending(r, IsMutation(s.bridge, r), false)
    ensures OwnerInv(s.server.sessions, s.bridge.owned, s.asked[s.bridge.ordinal + 1 := p])
  {
    hide BridgeInv, SentInv, ServerInv, RepliedInv, VerdictInv, PromotionInv;
  }

  lemma NewIsUnasked(s: State)
    requires Inv(s)
    ensures s.bridge.ordinal + 1 !in s.asked
  {
    hide SentInv, ServerInv, RepliedInv, VerdictInv, PromotionInv, OwnerInv;
  }

  lemma InvokeKeepsBridge(s: State, r: Request, p: Pending)
    requires Inv(s) && MayInvoke(s.bridge) && p == Pending(r, IsMutation(s.bridge, r), false)
    requires r.resource.ConnectionResource? ==> r.resource.connection <= s.connections
    ensures BridgeInv(Invoke(s.bridge, r), s.asked[s.bridge.ordinal + 1 := p], s.posted, s.connections)
  {
    hide SentInv, ServerInv, RepliedInv, VerdictInv, PromotionInv, OwnerInv, IsMutation;
    NewIsUnasked(s);
  }

  /** One more registered request matters to nothing already sent. */
  lemma AskedGrows(s: State, id: nat, p: Pending)
    requires Inv(s) && id !in s.asked
    ensures var asked := s.asked[id := p];
            && SentInv(s.toServer, s.server.lastOrdinal, asked, s.posted)
            && ServerInv(s.server, asked, s.posted, s.connections)
            && RepliedInv(s.toBridge, s.server, asked, s.posted) && VerdictInv(s.bridge.settled, s.server, asked, s.posted)
  {
    var asked := s.asked[id := p];
    forall j | Clean(s.server, s.asked, s.posted, j) ensures Clean(s.server, asked, s.posted, j) {}
    forall r | ResponseFine(s.server, s.asked, s.posted, r) ensures ResponseFine(s.server, asked, s.posted, r) {}
    hide Clean, ResponseFine, BridgeInv, OwnerInv;
  }

  lemma PostKeepsInv(s: State, id: nat, sent: bool)
    requires Inv(s)
    ensures Keeps(s, Step(s, PostEvent(id, sent)))
  {
    if NextToPost(s.bridge, id) {
      if sent {
        SentKeepsInv(s, id);
      } else {
        UnsentIsClean(s, id);
        hide Inv, GivesUp, Clean;
        SettleOneGivesUp(s, id, Definitive);
        GivingUpKeepsInv(s, Post(s.bridge, id, false));
      }
    }
  }

  lemma UnsentIsClean(s: State, id: nat)
    requires Inv(s) && NextToPost(s.bridge, id)
    ensures Clean(s.server, s.asked, s.posted, id) && id !in s.posted && id in s.asked && s.asked[id].request == s.bridge.pending[id].request
  {
    hide SentInv, ServerInv, PromotionInv, OwnerInv, RepliedInv, VerdictInv;
  }

  lemma SentKeepsInv(s: State, id: nat)
    requires Inv(s) && NextToPost(s.bridge, id)
    ensures Keeps(s, Step(s, PostEvent(id, true)))
  {
    var t := Step(s, PostEvent(id, true));
    UnsentIsClean(s, id);
    PostKeepsBridge(s, id);
    PostKeepsSent(s, id);
    hide BridgeInv, SentInv, PromotionInv, OwnerInv;
    assert ServerInv(t.server, t.asked, t.posted, t.connections);
    PostedGrows(s, id);
  }

  lemma PostKeepsBridge(s: State, id: nat)
    requires Inv(s) && NextToPost(s.bridge, id)
    ensures BridgeInv(Post(s.bridge, id, true), s.asked, s.posted + {id}, s.connections)
  {
    hide SentInv, ServerInv, PromotionInv, OwnerInv, RepliedInv, VerdictInv;
  }

  lemma PostKeepsSent(s: State, id: nat)
    requires Inv(s) && NextToPost(s.bridge, id)
    ensures SentInv(s.toServer + [RequestMessage(id, s.bridge.pending[id].request)], s.server.lastOrdinal, s.asked, s.posted + {id})
  {
    UnsentIsClean(s, id);
    hide PromotionInv, OwnerInv, RepliedInv, VerdictInv, Clean;
  }

  lemma PostedGrows(s: State, id: nat)
    requires Inv(s) && id in s.bridge.pending
    ensures RepliedInv(s.toBridge, s.server, s.asked, s.posted + {id})
    ensures VerdictInv(s.bridge.settled, s.server, s.asked, s.posted + {id})
  {
    PendingIsUnsettled(s);
    forall j | j != id && Clean(s.server, s.asked, s.posted, j) ensures Clean(s.server, s.asked, s.posted + {id}, j) {}
    forall r | ResponseFine(s.server, s.asked, s.posted, r) ensures ResponseFine(s.server, s.asked, s.posted + {id}, r) {}
    hide Clean, ResponseFine, BridgeInv, SentInv, ServerInv, PromotionInv, OwnerInv;
  }

  // ---- The server's steps ----

  /** What a server step may do to the server: history only grows, and nothing dealt with is taken up again. */
  ghost predicate Progress(v: Server, w: Server) {
    && v.lastOrdinal <= w.lastOrdinal
    && (forall id :: id in w.active && id !in v.active ==> id > v.lastOrdinal)
    && (forall id :: id in w.invoked && id !in v.invoked ==> id > v.lastOrdinal)
    && (forall id :: id in v.answers ==> id in w.answers && w.answers[id] == v.answers[id])
    && (forall c :: c in w.sessions && c in v.sessions && v.sessions[c].ownership.Resident? ==> w.sessions[c].ownership.Resident?)
    && (forall c :: c in w.sessions ==> c in v.sessions)
  }

  lemma ProgressKeepsClean(v: Server, w: Server, asked: Asked, posted: set<nat>, id: nat)
    requires Progress(v, w) && Clean(v, asked, posted, id)
    ensures Clean(w, asked, posted, id)
  {}

  lemma ProgressKeepsFine(v: Server, w: Server, asked: Asked, posted: set<nat>, r: Response)
    requires Progress(v, w) && ResponseFine(v, asked, posted, r)
    ensures ResponseFine(w, asked, posted, r)
  {}

  /** The parts of the invariant that follow from progress. */
  lemma ProgressKeeps(s: State, w: Server)
    requires Inv(s) && Progress(s.server, w)
    ensures RepliedInv(s.toBridge, w, s.asked, s.posted) && VerdictInv(s.bridge.settled, w, s.asked, s.posted)
    ensures forall id :: id in s.asked && !s.asked[id].mutation ==> Harmless(w.sessions, s.asked[id].request)
  {
    forall j | Clean(s.server, s.asked, s.posted, j) ensures Clean(w, s.asked, s.posted, j) { ProgressKeepsClean(s.server, w, s.asked, s.posted, j); }
    forall r | ResponseFine(s.server, s.asked, s.posted, r) ensures ResponseFine(w, s.asked, s.posted, r) {
      ProgressKeepsFine(s.server, w, s.asked, s.posted, r);
    }
    hide Clean, ResponseFine, BridgeInv, SentInv, ServerInv, PromotionInv;
  }

  /** A server step: progress, its own invariants, the messages it consumed and posted. */
  lemma ServeKeepsInv(s: State, served: Served, rest: seq<ToServer>)
    requires Inv(s) && Progress(s.server, served.server)
    requires SentInv(rest, served.server.lastOrdinal, s.asked, s.posted)
    requires ServerInv(served.server, s.asked, s.posted, s.connections) && PromotionInv(served.server.active, served.server.sessions)
    requires forall c :: c in served.server.sessions && c !in s.bridge.owned ==> served.server.sessions[c].ownership.Resident?
    requires forall i :: 0 <= i < |served.posts| && served.posts[i].ResponseMessage? ==>
               ResponseFine(served.server, s.asked, s.posted, served.posts[i].response)
    ensures Keeps(s, Serve(s.(toServer := rest), served))
  {
    ProgressKeeps(s, served.server);
    hide SentInv, ServerInv, PromotionInv, BridgeInv, VerdictInv, ResponseFine, Harmless, Progress;
  }

  lemma FatalKeepsInv(s: State)
    requires Inv(s)
    ensures Keeps(s, Serve(s, Fatal(s.server)))
  {
    hide BridgeInv, VerdictInv, RepliedInv;
    ServeKeepsInv(s, Fatal(s.server), s.toServer);
  }

  /** The next message of the server, and what its place in order tells. */
  lemma NextMessage(s: State)
    requires Inv(s) && s.toServer != []
    ensures SentInv(s.toServer[1..], s.server.lastOrdinal, s.asked, s.posted)
    ensures s.toServer[0].RequestMessage? ==>
              var id := s.toServer[0].id;
              && id in s.posted && id in s.asked && s.asked[id].request == s.toServer[0].request && id > s.server.lastOrdinal
              && id !in s.server.active && id !in s.server.invoked && id !in s.server.answers
              && SentInv(s.toServer[1..], id, s.asked, s.posted)
  {
    hide BridgeInv, PromotionInv, OwnerInv, RepliedInv, VerdictInv;
  }

  /** A request whose mutation the server starts is one the host calls a mutation. */
  lemma MarksIsMutation(s: State, id: nat)
    requires Inv(s) && id in s.asked && Marks(s.server, s.asked[id].request)
    ensures s.asked[id].mutation
  {
    hide BridgeInv, SentInv, ServerInv, PromotionInv, RepliedInv, VerdictInv;
    assert !s.asked[id].mutation ==> Harmless(s.server.sessions, s.asked[id].request);
  }

  lemma LaunchProgress(s: State, id: nat, r: Request)
    requires Inv(s) && id > s.server.lastOrdinal && Available(s.server, r)
    ensures Progress(s.server, Launch(s.server.(lastOrdinal := id), id, r))
    ensures Launch(s.server.(lastOrdinal := id), id, r).lastOrdinal == id
  {
    hide Inv, Marks;
  }

  lemma LaunchKeepsServer(s: State, id: nat, r: Request)
    requires Inv(s) && id in s.asked && s.asked[id].request == r && id in s.posted && id > s.server.lastOrdinal
    ensures ServerInv(Launch(s.server.(lastOrdinal := id), id, r), s.asked, s.posted, s.connections)
  {
    hide BridgeInv, SentInv, PromotionInv, OwnerInv, RepliedInv, VerdictInv, Marks;
    if Marks(s.server, r) { MarksIsMutation(s, id); }
    MarksIgnoresOrdinal(s.server, id, r);
    LaunchOnly(s.server.(lastOrdinal := id), id, r);
    hide Launch;
  }

  /** What launching adds: one active request, perhaps one mutation, and no session. */
  lemma LaunchOnly(v: Server, id: nat, r: Request)
    ensures var w := Launch(v, id, r);
            && w.lastOrdinal == v.lastOrdinal && w.active == v.active[id := r] && w.answers == v.answers
            && w.invoked == (if Marks(v, r) then v.invoked + {id} else v.invoked) && w.sessions.Keys == v.sessions.Keys
  {}

  lemma MarksIgnoresOrdinal(v: Server, id: nat, r: Request)
    ensures Marks(v.(lastOrdinal := id), r) == Marks(v, r)
  {}

  lemma LaunchKeepsOwners(s: State, id: nat, r: Request)
    requires Inv(s) && Available(s.server, r)
    ensures var w := Launch(s.server.(lastOrdinal := id), id, r);
            forall c :: c in w.sessions && c !in s.bridge.owned ==> w.sessions[c].ownership.Resident?
  {
    hide BridgeInv, SentInv, ServerInv, PromotionInv, RepliedInv, VerdictInv, Marks, Harmless;
  }

  lemma LaunchKeepsPromotion(s: State, id: nat, r: Request)
    requires Inv(s) && id > s.server.lastOrdinal && Available(s.server, r)
    ensures var w := Launch(s.server.(lastOrdinal := id), id, r); PromotionInv(w.active, w.sessions)
  {
    hide BridgeInv, SentInv, OwnerInv, RepliedInv, VerdictInv;
  }

  lemma ExecuteKeepsInv(s: State, accepted: bool)
    requires Inv(s) && s.toServer != [] && s.toServer[0].RequestMessage? && s.toServer[0].id == s.server.lastOrdinal + 1
    ensures var id, r := s.toServer[0].id, s.toServer[0].request;
            Keeps(s, Serve(s.(toServer := s.toServer[1..]), Execute(s.server.(lastOrdinal := id), id, r, accepted)))
  {
    hide Inv, Progress, ServerInv, PromotionInv, Launch, Launches, SentInv;
    var id, r := s.toServer[0].id, s.toServer[0].request;
    var v := s.server.(lastOrdinal := id);
    var served := Execute(v, id, r, accepted);
    NextMessage(s);
    LaunchesWhen(s.server, id, r, accepted);
    if Launches(v, r, accepted) {
      LaunchProgress(s, id, r);
      LaunchKeepsServer(s, id, r);
      LaunchKeepsOwners(s, id, r);
      LaunchKeepsPromotion(s, id, r);
      ServeKeepsInv(s, served, s.toServer[1..]);
    } else {
      RespondKeepsInv(s, accepted);
    }
  }

  lemma LaunchesWhen(v: Server, id: nat, r: Request, accepted: bool)
    ensures Launches(v.(lastOrdinal := id), r, accepted) == Launches(v, r, accepted)
    ensures Launches(v, r, accepted) ==> Available(v, r)
  {}

  lemma RespondKeepsInv(s: State, accepted: bool)
    requires Inv(s) && s.toServer != [] && s.toServer[0].RequestMessage? && s.toServer[0].id == s.server.lastOrdinal + 1
    requires var id, r := s.toServer[0].id, s.toServer[0].request;
             !Launches(s.server.(lastOrdinal := id), r, accepted)
    ensures var id, r := s.toServer[0].id, s.toServer[0].request;
            Keeps(s, Serve(s.(toServer := s.toServer[1..]), Execute(s.server.(lastOrdinal := id), id, r, accepted)))
  {
    var id, r := s.toServer[0].id, s.toServer[0].request;
    var v := s.server.(lastOrdinal := id);
    var served := Execute(v, id, r, accepted);
    NextMessage(s);
    RespondedFine(s, id, r, accepted);
    RespondLeaves(v, id, r, accepted);
    var dropped := v.(sessions := served.server.sessions);
    hide BridgeInv, SentInv, RepliedInv, VerdictInv, Execute, Launch, Launches, ResponseFine;
    DroppingKeeps(s, dropped);
    hide Inv, Progress, ServerInv, PromotionInv;
    ServeKeepsInv(s, served, s.toServer[1..]);
  }

  /** A request answered at once changes nothing on the server but, perhaps, that its session is gone. */
  lemma RespondLeaves(v: Server, id: nat, r: Request, accepted: bool)
    requires !Launches(v, r, accepted)
    ensures var w := Execute(v, id, r, accepted).server;
            w == v.(sessions := w.sessions) && forall c :: c in w.sessions ==> c in v.sessions && w.sessions[c] == v.sessions[c]
  {
    hide Launch, Available;
  }

  lemma DroppingKeeps(s: State, w: Server)
    requires Inv(s) && w == s.server.(lastOrdinal := w.lastOrdinal, sessions := w.sessions)
    requires w.lastOrdinal == s.server.lastOrdinal || (w.lastOrdinal > s.server.lastOrdinal && w.lastOrdinal in s.posted)
    requires forall c :: c in w.sessions ==> c in s.server.sessions && w.sessions[c] == s.server.sessions[c]
    ensures Progress(s.server, w) && ServerInv(w, s.asked, s.posted, s.connections) && PromotionInv(w.active, w.sessions)
    ensures forall c :: c in w.sessions && c !in s.bridge.owned ==> w.sessions[c].ownership.Resident?
  {
    hide BridgeInv, SentInv, RepliedInv, VerdictInv, Harmless, IsPromotion;
  }

  lemma RespondedFine(s: State, id: nat, r: Request, accepted: bool)
    requires id in s.posted && id in s.asked && s.asked[id].request == r && id !in s.server.active && id !in s.server.invoked
    requires !Launches(s.server.(lastOrdinal := id), r, accepted)
    ensures var served := Execute(s.server.(lastOrdinal := id), id, r, accepted);
            forall i :: 0 <= i < |served.posts| && served.posts[i].ResponseMessage? ==>
              ResponseFine(served.server, s.asked, s.posted, served.posts[i].response)
  {
    hide Launch, Available;
  }

  lemma DeliverKeepsInv(s: State, accepted: bool)
    requires Inv(s) && s.toServer != []
    ensures Keeps(s, Serve(s.(toServer := s.toServer[1..]), Deliver(s.server, s.toServer[0], accepted)))
  {
    var m := s.toServer[0];
    var served := Deliver(s.server, m, accepted);
    NextMessage(s);
    if !s.server.closing && m.RequestMessage? && m.id == s.server.lastOrdinal + 1 && |s.server.active| < MAX_PENDING {
      hide Inv, Execute;
      ExecuteKeepsInv(s, accepted);
    } else {
      hide Execute, ServerInv, PromotionInv, Progress, SentInv, Inv;
      assert served.server == s.server.(closing := served.server.closing, fatalSent := served.server.fatalSent);
      ModesKeep(s, served.server);
      ServeKeepsInv(s, served, s.toServer[1..]);
    }
  }

  lemma ModesKeep(s: State, w: Server)
    requires Inv(s) && w == s.server.(closing := w.closing, fatalSent := w.fatalSent)
    ensures Progress(s.server, w) && ServerInv(w, s.asked, s.posted, s.connections) && PromotionInv(w.active, w.sessions)
    ensures forall c :: c in w.sessions && c !in s.bridge.owned ==> w.sessions[c].ownership.Resident?
  {
    hide BridgeInv, SentInv, RepliedInv, VerdictInv, Harmless, IsPromotion;
  }

  // ---- The end of an upstream call ----

  lemma ConcludeFacts(s: State, id: nat, a: Answer, w: Server)
    requires Inv(s) && id in s.server.active
    requires w == s.server.(active := s.server.active - {id}, answers := s.server.answers[id := a],
                            sessions := Concluded(s.server, s.server.active[id], a))
    ensures Progress(s.server, w) && ServerInv(w, s.asked, s.posted, s.connections)
    ensures forall c :: c in w.sessions && c !in s.bridge.owned ==> w.sessions[c].ownership.Resident?
  {
    hide BridgeInv, SentInv, PromotionInv, OwnerInv, RepliedInv, VerdictInv, Concluded, Progress;
    ConcludedFacts(s, id, a);
    ConcludeProgress(s, id, a, w);
  }

  lemma ConcludeProgress(s: State, id: nat, a: Answer, w: Server)
    requires Inv(s) && id in s.server.active
    requires w == s.server.(active := s.server.active - {id}, answers := s.server.answers[id := a],
                            sessions := Concluded(s.server, s.server.active[id], a))
    ensures Progress(s.server, w)
  {
    ConcludedFacts(s, id, a);
    hide BridgeInv, SentInv, PromotionInv, OwnerInv, RepliedInv, VerdictInv, Concluded;
  }

  /** The session of a finished promotion was promoting, and so owned by its proxy. */
  lemma ConcludedFacts(s: State, id: nat, a: Answer)
    requires Inv(s) && id in s.server.active
    ensures var sessions := Concluded(s.server, s.server.active[id], a);
            && (forall c :: c in sessions ==> c in s.server.sessions)
            && (forall c :: c in sessions && s.server.sessions[c].ownership.Resident? ==> sessions[c].ownership.Resident?)
            && (forall c :: c in sessions && c !in s.bridge.owned ==> sessions[c].ownership.Resident?)
  {
    var r := s.server.active[id];
    if r.resource.ConnectionResource? && r.kind.Promote? { assert IsPromotion(r, r.resource.connection); }
    hide BridgeInv, SentInv, ServerInv, RepliedInv, VerdictInv, Harmless;
  }

  lemma ConcludeKeepsPromotion(s: State, id: nat, a: Answer)
    requires Inv(s) && id in s.server.active
    ensures PromotionInv(s.server.active - {id}, Concluded(s.server, s.server.active[id], a))
  {
    hide BridgeInv, SentInv, ServerInv, OwnerInv, RepliedInv, VerdictInv;
    var r := s.server.active[id];
    var active := s.server.active - {id};
    assert forall i, c :: i in active && c in s.server.sessions && IsPromotion(active[i], c) ==> !IsPromotion(r, c);
    assert forall c :: r.kind.Promote? && r.resource == ConnectionResource(c) ==> IsPromotion(r, c);
  }

  lemma AnsweredFine(s: State, id: nat, a: Answer, w: Server)
    requires Inv(s) && id in s.server.active
    requires w == s.server.(active := s.server.active - {id}, answers := s.server.answers[id := a],
                            sessions := Concluded(s.server, s.server.active[id], a))
    ensures var r := s.server.active[id];
            ResponseFine(w, s.asked, s.posted,
              Response(id, r, if a.Succeeds? then None else Some(FailureOutcome(id in s.server.invoked, r.kind, a))))
  {
    hide BridgeInv, SentInv, PromotionInv, OwnerInv, RepliedInv, VerdictInv;
  }

  lemma ConcludeKeepsInv(s: State, id: nat, a: Answer, serializable: bool)
    requires Inv(s) && id in s.server.active
    ensures Keeps(s, Serve(s, Conclude(s.server, id, a, serializable)))
  {
    var w := s.server.(active := s.server.active - {id}, answers := s.server.answers[id := a],
                       sessions := Concluded(s.server, s.server.active[id], a));
    ConcludeFacts(s, id, a, w);
    ConcludeKeepsPromotion(s, id, a);
    AnsweredFine(s, id, a, w);
    SentStays(s);
    var served := Conclude(s.server, id, a, serializable);
    assert served.server == w || served.server == w.(closing := true, fatalSent := true);
    hide Inv, Concluded, PromotionInv, ResponseFine, FailureOutcome;
    FlagsAreFree(s, w);
    assert served.server == w || served == Served(w.(closing := true, fatalSent := true), [FatalMessage]);
    hide ServerInv, Progress;
    assert s.(toServer := s.toServer) == s;
    ServeKeepsInv(s, served, s.toServer);
  }

  lemma SentStays(s: State)
    requires Inv(s)
    ensures SentInv(s.toServer, s.server.lastOrdinal, s.asked, s.posted)
  {}

  lemma FlagsAreFree(s: State, w: Server)
    requires Progress(s.server, w) && ServerInv(w, s.asked, s.posted, s.connections)
    ensures var f := w.(closing := true, fatalSent := true); Progress(s.server, f) && ServerInv(f, s.asked, s.posted, s.connections)
  {}

  // ---- The remaining steps ----

  lemma AttachedKeepsInv(s: State, owned: bool)
    requires Inv(s)
    ensures Keeps(s, Step(s, AttachedEvent(owned)))
  {
    hide BridgeInv, SentInv, ServerInv, PromotionInv, OwnerInv, RepliedInv, VerdictInv;
    var o := Session(if owned then Owned else Resident, false);
    AttachedKeepsServer(s, o);
    AttachedKeepsPromotion(s, o);
    AttachedKeepsReplies(s, o);
    AttachedKeepsOwner(s, o);
    AttachedKeepsBridge(s, owned);
  }

  lemma AttachedKeepsBridge(s: State, owned: bool)
    requires Inv(s)
    ensures var t := Step(s, AttachedEvent(owned)); BridgeInv(t.bridge, t.asked, t.posted, t.connections) && SettledStays(s, t)
  {
    hide SentInv, ServerInv, PromotionInv, OwnerInv, RepliedInv, VerdictInv;
  }

  lemma AttachedKeepsServer(s: State, o: Session)
    requires Inv(s)
    ensures var c := s.connections + 1; ServerInv(s.server.(sessions := s.server.sessions[c := o]), s.asked, s.posted, c)
  {
    hide BridgeInv, SentInv, PromotionInv, OwnerInv, RepliedInv, VerdictInv;
  }

  lemma AttachedKeepsPromotion(s: State, o: Session)
    requires Inv(s)
    ensures PromotionInv(s.server.active, s.server.sessions[s.connections + 1 := o])
  {
    assert forall id :: id in s.server.active ==> !IsPromotion(s.server.active[id], s.connections + 1);
    hide BridgeInv, SentInv, ServerInv, OwnerInv, RepliedInv, VerdictInv;
  }

  lemma AttachedKeepsOwner(s: State, o: Session)
    requires Inv(s)
    ensures var c := s.connections + 1;
            && (o.ownership.Resident? ==> OwnerInv(s.server.sessions[c := o], s.bridge.owned, s.asked))
            && OwnerInv(s.server.sessions[c := o], s.bridge.owned + {c}, s.asked)
  {
    assert forall id :: id in s.asked && s.asked[id].request.resource.ConnectionResource? ==> s.asked[id].request.resource.connection <= s.connections;
    hide BridgeInv, SentInv, ServerInv, PromotionInv, RepliedInv, VerdictInv;
  }

  lemma AttachedKeepsReplies(s: State, o: Session)
    requires Inv(s)
    ensures var w := s.server.(sessions := s.server.sessions[s.connections + 1 := o]);
            RepliedInv(s.toBridge, w, s.asked, s.posted) && VerdictInv(s.bridge.settled, w, s.asked, s.posted)
  {
    var w := s.server.(sessions := s.server.sessions[s.connections + 1 := o]);
    hide SentInv, ServerInv, PromotionInv, OwnerInv;
    forall j | Clean(s.server, s.asked, s.posted, j) ensures Clean(w, s.asked, s.posted, j) {}
    forall r | ResponseFine(s.server, s.asked, s.posted, r) ensures ResponseFine(w, s.asked, s.posted, r) {}
    hide Clean, ResponseFine, BridgeInv;
  }

  lemma DropKeepsInv(s: State, c: nat)
    requires Inv(s)
    ensures Keeps(s, Step(s, SessionDropped(c)))
  {
    var w := s.server.(sessions := s.server.sessions - {c});
    hide Inv, Progress, ServerInv, PromotionInv;
    DroppingKeeps(s, w);
    SentStays(s);
    assert s.(toServer := s.toServer) == s;
    ServeKeepsInv(s, Served(w, []), s.toServer);
    assert s.toBridge + [] == s.toBridge;
  }

  lemma ShorterKeepsInv(s: State)
    requires Inv(s) && s.toBridge != []
    ensures Inv(s.(toBridge := s.toBridge[1..]))
    ensures s.toBridge[0].ResponseMessage? ==> ResponseFine(s.server, s.asked, s.posted, s.toBridge[0].response)
  {
    hide BridgeInv, SentInv, ServerInv, PromotionInv, OwnerInv, VerdictInv, ResponseFine;
  }

  lemma HearKeepsInv(s: State, m: ToBridge)
    requires Inv(s) && (m.ResponseMessage? ==> ResponseFine(s.server, s.asked, s.posted, m.response))
    ensures Keeps(s, s.(bridge := Hear(s.bridge, m)))
  {
    hide Inv, ResponseFine, ReceiveResponse;
    FailTransportKeepsInv(s);
    assert s.(bridge := s.bridge) == s;
    if m.ResponseMessage? { ReceiveKeepsInv(s, m.response); }
    if m.ReadyMessage? { ReadyKeepsInv(s); }
  }

  lemma ReadyKeepsInv(s: State)
    requires Inv(s)
    ensures Keeps(s, s.(bridge := s.bridge.(ready := true)))
  {
    hide SentInv, ServerInv, PromotionInv, OwnerInv, RepliedInv, VerdictInv;
  }

  lemma ReceiveKeepsInv(s: State, r: Response)
    requires Inv(s) && ResponseFine(s.server, s.asked, s.posted, r)
    ensures Keeps(s, s.(bridge := ReceiveResponse(s.bridge, r)))
  {
    hide BridgeInv, SentInv, ServerInv, PromotionInv, OwnerInv, RepliedInv, VerdictInv, FailTransport;
    FailTransportKeepsInv(s);
    assert s.(bridge := s.bridge) == s;
    if !s.bridge.terminal && r.id in s.bridge.pending && r.request == s.bridge.pending[r.id].request {
      var verdict := if r.failure.None? then Fulfilled else r.failure.value;
      var b := SettleOne(s.bridge, r.id, verdict);
      assert verdict.Definitive? ==> Clean(s.server, s.asked, s.posted, r.id);
      hide Inv, GivesUp, Clean, SettleOne;
      SettleOneGivesUp(s, r.id, verdict);
      GivingUpKeepsInv(s, b);
      if r.failure.None? && r.request.kind.Promote? && r.request.resource.ConnectionResource? {
        DisownKeepsInv(s.(bridge := b), r.request.resource.connection);
      }
    } else {
      hide Inv;
    }
  }

  /** The host proxy gives up ownership only of a session the server holds as resident. */
  lemma DisownKeepsInv(s: State, c: nat)
    requires Inv(s) && (c in s.server.sessions ==> s.server.sessions[c].ownership.Resident?)
    ensures Keeps(s, s.(bridge := s.bridge.(owned := s.bridge.owned - {c})))
  {
    hide SentInv, ServerInv, PromotionInv, RepliedInv, VerdictInv, Harmless;
  }

  lemma StepKeepsInv(s: State, e: Event)
    requires Inv(s)
    ensures Keeps(s, Step(s, e))
  {
    hide Inv, Invoke, Post, TimeOut, RejectResource, FailTransport, Close, Deliver, Conclude, Fatal, Hear, NextToPost, MayInvoke;
    match e
    case InvokeEvent(r) => InvokeKeepsInv(s, r);
    case PostEvent(id, sent) => PostKeepsInv(s, id, sent);
    case TimeOutEvent(id) => TimeOutKeepsInv(s, id);
    case CancelEvent(id) => ControlMessageKeepsInv(s, CancelMessage(id));
    case ResourceClosedEvent(r) => RejectKeepsInv(s, r);
    case TransportEvent => FailTransportKeepsInv(s);
    case CloseEvent => CloseKeepsInv(s);
    case AttachedEvent(owned) => AttachedKeepsInv(s, owned);
    case RuntimeLoaded => LoadedKeepsInv(s);
    case DeliverToServer(accepted) => if s.toServer != [] { DeliverKeepsInv(s, accepted); }
    case UpstreamAnswers(id, answer, serializable) => if id in s.server.active { ConcludeKeepsInv(s, id, answer, serializable); }
    case SessionDropped(c) => DropKeepsInv(s, c);
    case ServerFails => FatalKeepsInv(s);
    case DeliverToBridge =>
      if s.toBridge != [] {
        ShorterKeepsInv(s);
        HearKeepsInv(s.(toBridge := s.toBridge[1..]), s.toBridge[0]);
      }
  }

  lemma LoadedKeepsInv(s: State)
    requires Inv(s)
    ensures Inv(s.(toBridge := s.toBridge + [ReadyMessage]))
  {
    hide BridgeInv, SentInv, ServerInv, PromotionInv, OwnerInv, VerdictInv, ResponseFine;
  }

  lemma {:induction false} RunKeepsInv(s: State, events: seq<Event>)
    requires Inv(s)
    ensures Keeps(s, Run(s, events))
    decreases |events|
  {
    hide Inv, Step;
    if events != [] {
      StepKeepsInv(s, events[0]);
      RunKeepsInv(Step(s, events[0]), events[1..]);
    }
  }

  // ---- Results ----

  lemma BeginIsInv()
    ensures Inv(BEGIN)
  {}

  /** In every run: a mutation rejected as definitive was never started upstream and
      never will be, or upstream itself answered the prompt or stop as cancelled or
      unsupported. */
  lemma DefinitiveIsSound(events: seq<Event>, later: seq<Event>, id: nat)
    ensures var s := Run(BEGIN, events);
            var t := Run(s, later);
            id in s.bridge.settled && s.bridge.settled[id].Definitive? ==> NotDone(t.server, t.asked, id)
  {
    BeginIsInv();
    RunKeepsInv(BEGIN, events);
    var s := Run(BEGIN, events);
    RunKeepsInv(s, later);
    var t := Run(s, later);
    hide BridgeInv, SentInv, PromotionInv, OwnerInv, RepliedInv;
    if id in s.bridge.settled && s.bridge.settled[id].Definitive? { assert Clean(t.server, t.asked, t.posted, id); }
  }

  /** Each request settles at most once and keeps its verdict; while unsettled it is
      pending, and nothing is pending once the transport failed or the bridge closed. */
  lemma SettlesOnce(events: seq<Event>, later: seq<Event>)
    ensures var s := Run(BEGIN, events);
            var t := Run(s, later);
            && SettledStays(s, t)
            && (forall id :: id in s.asked ==> (id in s.bridge.pending <==> id !in s.bridge.settled))
            && (s.bridge.terminal || s.bridge.closing ==> s.bridge.pending == map[])
  {
    BeginIsInv();
    RunKeepsInv(BEGIN, events);
    RunKeepsInv(Run(BEGIN, events), later);
    hide SentInv, ServerInv, PromotionInv, OwnerInv, RepliedInv, VerdictInv;
  }
}
