/** What each verdict of the worker protocol says, by what was sent and what upstream answered. */
module WorkerVerdicts {
  import opened Outcomes
  import opened WorkerBridges
  import opened WorkerProtocols

  // ---- Verdicts by what happened ----

  /** The verdict of a request given up by the host alone. */
  function GivenUpVerdict(p: Pending, sent: bool): Verdict {
    if p.mutation && sent then Unknown else Definitive
  }

  /** The worker dealt with the request, and the verdict is what upstream made of it. A
      request without an upstream call changed nothing; only a disposal succeeds without one. */
  predicate Answered(v: Server, asked: Asked, id: nat, verdict: Verdict) {
    && id in asked && id <= v.lastOrdinal && id !in v.active
    && (if id !in v.answers then id !in v.invoked && (verdict.Definitive? || (verdict.Fulfilled? && asked[id].request.kind.Dispose?))
        else match v.answers[id]
             case Succeeds => verdict.Fulfilled?
             case FailsOtherwise => verdict == (if id in v.invoked then Unknown else Definitive)
             case _ =>
               verdict == (if id in v.invoked && !asked[id].request.kind.Prompt? && !asked[id].request.kind.Abort? then Unknown
                           else Definitive))
  }

  function VerdictOf(r: Response): Verdict {
    if r.failure.None? then Fulfilled else r.failure.value
  }

  predicate Grounded(v: Server, asked: Asked, posted: set<nat>, id: nat, verdict: Verdict) {
    id in asked && (verdict == GivenUpVerdict(asked[id], id in posted) || Answered(v, asked, id, verdict))
  }

  ghost predicate AllGrounded(s: State) {
    && (forall id :: id in s.bridge.settled ==> Grounded(s.server, s.asked, s.posted, id, s.bridge.settled[id]))
    && (forall i :: 0 <= i < |s.toBridge| && s.toBridge[i].ResponseMessage? ==>
          Answered(s.server, s.asked, s.toBridge[i].response.id, VerdictOf(s.toBridge[i].response)))
  }

  // ---- Giving up ----

  /** The pending requests this event makes the host give up. */
  ghost predicate GivesUpOn(s: State, e: Event, id: nat) {
    id in s.bridge.pending &&
    match e
    case TimeOutEvent(j) => id == j
    case ResourceClosedEvent(r) => s.bridge.pending[id].request.resource == r
    case TransportEvent => true
    case CloseEvent => true
    case PostEvent(j, sent) => id == j && !sent && NextToPost(s.bridge, j)
    case _ => false
  }

  lemma PendingAsAsked(s: State, id: nat)
    requires Inv(s) && id in s.bridge.pending
    ensures id in s.asked && s.bridge.pending[id] == s.asked[id].(posted := id in s.posted) && id !in s.bridge.settled
    ensures LostVerdict(s.bridge.pending[id]) == GivenUpVerdict(s.asked[id], id in s.posted)
  {
    hide SentInv, ServerInv, PromotionInv, OwnerInv, RepliedInv, VerdictInv;
  }

  /** Giving up in a loop. */
  lemma LoopGivesUp(s: State, b: Bridge, only: Option<Resource>)
    requires Inv(s) && b.pending == s.bridge.pending && b.settled == s.bridge.settled && b.ordinal == s.bridge.ordinal
    ensures var t := GiveUp(b, b.ordinal, only);
            && (forall id: nat :: id in t.settled && id !in s.bridge.settled <==>
                  id in s.bridge.pending && (only.None? || s.bridge.pending[id].request.resource == only.value))
            && (forall id: nat :: id in t.settled && id !in s.bridge.settled ==> id in s.asked && t.settled[id] == GivenUpVerdict(s.asked[id], id in s.posted))
            && (forall id: nat :: id in s.bridge.settled ==> id in t.settled && t.settled[id] == s.bridge.settled[id])
  {
    PendingIsUnsettled(s);
    GiveUpFacts(b, b.ordinal, only);
    forall id | id in s.bridge.pending
      ensures id in s.asked && LostVerdict(s.bridge.pending[id]) == GivenUpVerdict(s.asked[id], id in s.posted) && id !in s.bridge.settled
    {
      PendingAsAsked(s, id);
    }
    hide Inv, LostVerdict, GivenUpVerdict, GiveUp;
  }

  /** Whatever makes the host give up, it settles exactly the requests concerned:
      as unknown those it flagged as mutations and posted, as definitive all others. */
  lemma GivingUp(s: State, e: Event)
    requires Inv(s) && !e.DeliverToBridge?
    ensures var t := Step(s, e);
            && (forall id: nat :: id in t.bridge.settled && id !in s.bridge.settled <==> GivesUpOn(s, e, id))
            && (forall id: nat :: GivesUpOn(s, e, id) ==> id in s.asked && t.bridge.settled[id] == GivenUpVerdict(s.asked[id], id in s.posted))
            && (forall id: nat :: id in s.bridge.settled ==> id in t.bridge.settled && t.bridge.settled[id] == s.bridge.settled[id])
  {
    hide Inv, LostVerdict, GiveUp, NextToPost, IsMutation, Retire, MayInvoke, Deliver, Conclude, Fatal;
    PendingIsUnsettled(s);
    match e
    case TimeOutEvent(id) => if id in s.bridge.pending { PendingAsAsked(s, id); }
    case ResourceClosedEvent(r) => LoopGivesUp(s, s.bridge, Some(r));
    case TransportEvent => LoopGivesUp(s, s.bridge.(terminal := true), None);
    case CloseEvent => LoopGivesUp(s, s.bridge.(closing := true), None);
    case PostEvent(id, sent) => if NextToPost(s.bridge, id) { UnsentIsUnposted(s, id); }
    case _ =>
  }

  lemma UnsentIsUnposted(s: State, id: nat)
    requires Inv(s) && NextToPost(s.bridge, id)
    ensures id in s.bridge.pending && id !in s.posted && id in s.asked && id !in s.bridge.settled
  {
    PendingAsAsked(s, id);
    hide Inv;
  }

  // ---- Server steps ----

  /** History only grows, and what was dealt with stays as it was. */
  ghost predicate Later(v: Server, w: Server) {
    && v.lastOrdinal <= w.lastOrdinal
    && (forall id :: id in w.active && id !in v.active ==> id > v.lastOrdinal)
    && (forall id :: id in w.invoked <==> id in v.invoked || (id in w.invoked && id > v.lastOrdinal))
    && (forall id :: id in v.answers ==> id in w.answers && w.answers[id] == v.answers[id])
    && (forall id :: id in w.answers && id !in v.answers ==> id in v.active)
  }

  lemma LaterKeepsAnswered(v: Server, w: Server, asked: Asked, id: nat, verdict: Verdict)
    requires Later(v, w) && Answered(v, asked, id, verdict)
    ensures Answered(w, asked, id, verdict)
  {}

  /** A step of the server whose own responses say what upstream did. */
  lemma ServingKeepsGrounded(s: State, served: Served, rest: seq<ToServer>)
    requires AllGrounded(s) && Later(s.server, served.server)
    requires forall i :: 0 <= i < |served.posts| && served.posts[i].ResponseMessage? ==>
               Answered(served.server, s.asked, served.posts[i].response.id, VerdictOf(served.posts[i].response))
    ensures AllGrounded(Serve(s.(toServer := rest), served))
  {
    forall id, verdict | Answered(s.server, s.asked, id, verdict) ensures Answered(served.server, s.asked, id, verdict) {
      LaterKeepsAnswered(s.server, served.server, s.asked, id, verdict);
    }
    hide Answered, Later, VerdictOf;
  }

  lemma DeliveryIsLater(v: Server, m: ToServer, accepted: bool)
    ensures Later(v, Deliver(v, m, accepted).server)
  {
    hide Available, EndsHere, Marks;
  }

  lemma DeliveryIsAnswered(s: State, accepted: bool)
    requires Inv(s) && s.toServer != []
    ensures var served := Deliver(s.server, s.toServer[0], accepted);
            forall i :: 0 <= i < |served.posts| && served.posts[i].ResponseMessage? ==>
              Answered(served.server, s.asked, served.posts[i].response.id, VerdictOf(served.posts[i].response))
  {
    NextMessage(s);
    hide Inv, Marks, SentInv;
  }

  lemma ConclusionIsLater(v: Server, id: nat, a: Answer, serializable: bool)
    requires id in v.active && id !in v.answers
    ensures Later(v, Conclude(v, id, a, serializable).server)
  {
    hide Concluded;
  }

  lemma ActiveIsUnanswered(s: State, id: nat)
    requires Inv(s) && id in s.server.active
    ensures id !in s.server.answers && id <= s.server.lastOrdinal && id in s.asked && s.server.active[id] == s.asked[id].request
  {
    hide BridgeInv, SentInv, PromotionInv, OwnerInv, RepliedInv, VerdictInv;
  }

  lemma ConclusionIsAnswered(s: State, id: nat, a: Answer, serializable: bool)
    requires Inv(s) && id in s.server.active
    ensures var served := Conclude(s.server, id, a, serializable);
            forall i :: 0 <= i < |served.posts| && served.posts[i].ResponseMessage? ==>
              Answered(served.server, s.asked, served.posts[i].response.id, VerdictOf(served.posts[i].response))
  {
    ActiveIsUnanswered(s, id);
    hide Inv, Concluded;
  }

  lemma ServerStepsAreGrounded(s: State, e: Event)
    requires Inv(s) && AllGrounded(s)
    requires e.DeliverToServer? || e.UpstreamAnswers? || e.ServerFails? || e.SessionDropped?
    ensures AllGrounded(Step(s, e))
  {
    hide Inv, AllGrounded, Deliver, Conclude, Later, Answered;
    assert s.(toServer := s.toServer) == s;
    if e.DeliverToServer? {
      if s.toServer != [] {
        DeliveryIsLater(s.server, s.toServer[0], e.accepted);
        DeliveryIsAnswered(s, e.accepted);
        ServingKeepsGrounded(s, Deliver(s.server, s.toServer[0], e.accepted), s.toServer[1..]);
      }
    } else if e.UpstreamAnswers? {
      if e.id in s.server.active {
        ActiveIsUnanswered(s, e.id);
        ConclusionIsLater(s.server, e.id, e.answer, e.serializable);
        ConclusionIsAnswered(s, e.id, e.answer, e.serializable);
        ServingKeepsGrounded(s, Conclude(s.server, e.id, e.answer, e.serializable), s.toServer);
      }
    } else {
      var served := if e.ServerFails? then Fatal(s.server) else Served(s.server.(sessions := s.server.sessions - {e.connection}), []);
      ModesAreLater(s.server, served.server);
      ServingKeepsGrounded(s, served, s.toServer);
      assert s.toBridge + [] == s.toBridge;
    }
  }

  lemma ModesAreLater(v: Server, w: Server)
    requires w == v.(closing := w.closing, fatalSent := w.fatalSent, sessions := w.sessions)
    ensures Later(v, w)
  {}

  // ---- Bridge steps ----

  lemma BridgeStepsAreGrounded(s: State, e: Event)
    requires Inv(s) && AllGrounded(s)
    requires e.TimeOutEvent? || e.CancelEvent? || e.ResourceClosedEvent? || e.TransportEvent? || e.CloseEvent? || (e.PostEvent? && !e.sent)
    ensures AllGrounded(Step(s, e))
  {
    GivingUp(s, e);
    var t := Step(s, e);
    assert t.server == s.server && t.asked == s.asked && t.posted == s.posted && t.toBridge == s.toBridge
      by { hide GiveUp, NextToPost, Inv, AllGrounded; }
    hide Step, Inv, Answered, GivesUpOn, GivenUpVerdict, VerdictOf;
  }

  lemma GrowingKeepsGrounded(s: State, t: State)
    requires AllGrounded(s) && t.bridge.settled == s.bridge.settled && t.toBridge == s.toBridge
    requires t.server == s.server.(sessions := t.server.sessions)
    requires forall id :: id in s.asked ==> id in t.asked && t.asked[id] == s.asked[id]
    requires forall id :: id in s.bridge.settled ==> (id in t.posted <==> id in s.posted)
    ensures AllGrounded(t)
  {
    forall id, verdict | Answered(s.server, s.asked, id, verdict) ensures Answered(t.server, t.asked, id, verdict) {}
    hide Answered, VerdictOf, GivenUpVerdict;
  }

  lemma GrowthIsGrounded(s: State, e: Event)
    requires Inv(s) && AllGrounded(s)
    requires e.InvokeEvent? || e.AttachedEvent? || (e.PostEvent? && e.sent)
    ensures AllGrounded(Step(s, e))
  {
    NewIsUnasked(s);
    PendingIsUnsettled(s);
    hide Inv, AllGrounded, MayInvoke, IsMutation;
    GrowingKeepsGrounded(s, Step(s, e));
  }

  lemma HearingIsGrounded(s: State)
    requires Inv(s) && AllGrounded(s) && s.toBridge != []
    ensures AllGrounded(Step(s, DeliverToBridge))
  {
    var m := s.toBridge[0];
    var t := Step(s, DeliverToBridge);
    GivingUp(s, TransportEvent);
    var failed := Step(s, TransportEvent);
    assert failed == s.(bridge := FailTransport(s.bridge));
    SettledByMessage(s, m);
    hide Inv, Answered, FailTransport, Hear, GivesUpOn, GivenUpVerdict, VerdictOf;
    assert t == s.(bridge := Hear(s.bridge, m), toBridge := s.toBridge[1..]);
    hide Step;
  }

  /** A message fails the transport, settles the one request it answers, or settles nothing. */
  lemma SettledByMessage(s: State, m: ToBridge)
    ensures var b := Hear(s.bridge, m);
            || b == FailTransport(s.bridge)
            || b.settled == s.bridge.settled
            || (m.ResponseMessage? && m.response.id in s.bridge.pending && m.response.request == s.bridge.pending[m.response.id].request
                && b.settled == s.bridge.settled[m.response.id := VerdictOf(m.response)])
  {
    hide FailTransport, Retire;
  }

  lemma StepIsGrounded(s: State, e: Event)
    requires Inv(s) && AllGrounded(s)
    ensures AllGrounded(Step(s, e))
  {
    hide Inv, AllGrounded;
    if e.DeliverToServer? || e.UpstreamAnswers? || e.ServerFails? || e.SessionDropped? { ServerStepsAreGrounded(s, e); }
    else if e.InvokeEvent? || e.AttachedEvent? || (e.PostEvent? && e.sent) { GrowthIsGrounded(s, e); }
    else if e.DeliverToBridge? { if s.toBridge != [] { HearingIsGrounded(s); } }
    else if e.RuntimeLoaded? { LoadingIsGrounded(s); }
    else { BridgeStepsAreGrounded(s, e); }
  }

  lemma LoadingIsGrounded(s: State)
    requires AllGrounded(s)
    ensures AllGrounded(Step(s, RuntimeLoaded))
  {
    hide Answered, Grounded, VerdictOf;
  }

  lemma {:induction false} RunIsGrounded(s: State, events: seq<Event>)
    requires Inv(s) && AllGrounded(s)
    ensures AllGrounded(Run(s, events))
    decreases |events|
  {
    hide Inv, AllGrounded, Step;
    if events != [] {
      StepKeepsInv(s, events[0]);
      StepIsGrounded(s, events[0]);
      RunIsGrounded(Step(s, events[0]), events[1..]);
    }
  }

  // ---- Results ----

  /** In every run: a request settled as unknown is a mutation whose post completed; one
      settled as fulfilled was sent and upstream made it succeed, or it is a disposal of
      a session already disposed; and a definitive one was no posted mutation, or the
      worker itself answered that upstream did nothing, or cancelled or lacked a prompt or stop. */
  lemma VerdictMeans(events: seq<Event>, id: nat)
    ensures var s := Run(BEGIN, events);
            id in s.bridge.settled ==>
              && id in s.asked
              && (s.bridge.settled[id].Unknown? ==> s.asked[id].mutation && id in s.posted)
              && (s.bridge.settled[id].Fulfilled? ==>
                    if id in s.server.answers then s.server.answers[id].Succeeds?
                    else s.asked[id].request.kind.Dispose? && id !in s.server.invoked)
              && (s.bridge.settled[id].Definitive? ==>
                    || !s.asked[id].mutation || id !in s.posted || id !in s.server.invoked
                    || (id in s.server.answers && (s.server.answers[id].Cancelled? || s.server.answers[id].Unsupported?)
                        && (s.asked[id].request.kind.Prompt? || s.asked[id].request.kind.Abort?)))
  {
    BeginIsInv();
    RunKeepsInv(BEGIN, events);
    RunIsGrounded(BEGIN, events);
    var s := Run(BEGIN, events);
    hide Run;
    if id in s.bridge.settled {
      assert Grounded(s.server, s.asked, s.posted, id, s.bridge.settled[id]);
      hide BridgeInv, SentInv, PromotionInv, OwnerInv, RepliedInv, VerdictInv, AllGrounded;
    }
  }

  /** In every run: a timeout, a close, a lost transport or a failed post settles exactly
      the pending requests it concerns, as unknown when the request is a mutation whose
      post completed, and otherwise as definitive. */
  lemma GivenUpExactly(events: seq<Event>, e: Event, id: nat)
    requires !e.DeliverToBridge?
    ensures var s := Run(BEGIN, events);
            var t := Step(s, e);
            && (id in t.bridge.settled && id !in s.bridge.settled <==> GivesUpOn(s, e, id))
            && (GivesUpOn(s, e, id) ==>
                  && id in s.asked
                  && (t.bridge.settled[id].Unknown? <==> s.asked[id].mutation && id in s.posted)
                  && (t.bridge.settled[id].Definitive? <==> !s.asked[id].mutation || id !in s.posted))
  {
    BeginIsInv();
    RunKeepsInv(BEGIN, events);
    GivingUp(Run(BEGIN, events), e);
    hide Run, Step, Inv, GivesUpOn;
  }

  /** In every run: a message settles the one request it answers, with the verdict it
      carries, or it breaks the protocol and everything pending is given up. */
  lemma HeardExactly(events: seq<Event>, id: nat)
    requires Run(BEGIN, events).toBridge != []
    ensures var s := Run(BEGIN, events);
            var t := Step(s, DeliverToBridge);
            var m := s.toBridge[0];
            var answersIt := m.ResponseMessage? && m.response.id == id && id in s.asked && m.response.request == s.asked[id].request;
            && (id in s.bridge.pending && answersIt ==> id in t.bridge.settled && t.bridge.settled[id] == VerdictOf(m.response))
            && (id in t.bridge.settled && id !in s.bridge.settled && !answersIt ==>
                  && id in s.asked && t.bridge.terminal
                  && (t.bridge.settled[id].Unknown? <==> s.asked[id].mutation && id in s.posted)
                  && (t.bridge.settled[id].Definitive? <==> !s.asked[id].mutation || id !in s.posted))
  {
    BeginIsInv();
    RunKeepsInv(BEGIN, events);
    hide Run;
    Hearing(Run(BEGIN, events), id);
  }

  lemma Hearing(s: State, id: nat)
    requires Inv(s) && s.toBridge != []
    ensures var t := Step(s, DeliverToBridge);
            var m := s.toBridge[0];
            var answersIt := m.ResponseMessage? && m.response.id == id && id in s.asked && m.response.request == s.asked[id].request;
            && (id in s.bridge.pending && answersIt ==> id in t.bridge.settled && t.bridge.settled[id] == VerdictOf(m.response))
            && (id in t.bridge.settled && id !in s.bridge.settled && !answersIt ==>
                  id in s.asked && t.bridge.terminal && t.bridge.settled[id] == GivenUpVerdict(s.asked[id], id in s.posted))
  {
    hide Inv, FailTransport, Hear, GivesUpOn, VerdictOf, GivenUpVerdict;
    var m := s.toBridge[0];
    GivingUp(s, TransportEvent);
    PendingIsUnsettled(s);
    FailingIsTerminal(s.bridge);
    if id in s.bridge.pending { PendingAsAsked(s, id); }
    SettledByMessage(s, m);
    if m.ResponseMessage? && m.response.id in s.bridge.pending && m.response.request == s.bridge.pending[m.response.id].request {
      AnswerSettles(s, m);
    }
  }

  lemma FailingIsTerminal(b: Bridge)
    ensures FailTransport(b).terminal
  {
    if !b.terminal { GiveUpFacts(b.(terminal := true), b.ordinal, None); }
  }

  lemma AnswerSettles(s: State, m: ToBridge)
    requires s.bridge.terminal ==> s.bridge.pending == map[]
    requires m.ResponseMessage? && m.response.id in s.bridge.pending && m.response.request == s.bridge.pending[m.response.id].request
    ensures Hear(s.bridge, m).settled == s.bridge.settled[m.response.id := VerdictOf(m.response)]
  {
    hide Retire;
  }

  // ---- What the host flags as a mutation ----

  /** The connections that were attached as owned. */
  ghost function OwnedAttached(s: State, attached: set<nat>, events: seq<Event>): set<nat>
    decreases |events|
  {
    if events == [] then attached else OwnedAttached(Step(s, events[0]), AttachedAfter(s, attached, events[0]), events[1..])
  }

  function AttachedAfter(s: State, attached: set<nat>, e: Event): set<nat> {
    if e == AttachedEvent(true) then attached + {s.connections + 1} else attached
  }

  /** The host was told that this connection's promotion succeeded. */
  ghost predicate Promoted(s: State, c: nat) {
    exists id :: id in s.bridge.settled && id in s.asked && s.bridge.settled[id].Fulfilled? && s.asked[id].request == Request(Promote, ConnectionResource(c))
  }

  ghost predicate OwnersKnown(s: State, attached: set<nat>) {
    && (forall c :: c in attached ==> c <= s.connections)
    && (forall c :: c in s.bridge.owned <==> c in attached && !Promoted(s, c))
  }

  lemma SameOwnersKnown(s: State, t: State, attached: set<nat>)
    requires OwnersKnown(s, attached) && t.bridge.owned == s.bridge.owned && t.connections >= s.connections
    requires forall id :: id in s.asked && id in s.bridge.settled ==> id in t.asked && t.asked[id] == s.asked[id]
    requires forall id :: id in s.bridge.settled ==> id in t.bridge.settled && t.bridge.settled[id] == s.bridge.settled[id]
    requires forall id :: id in t.bridge.settled && t.bridge.settled[id].Fulfilled? && id in t.asked && t.asked[id].request.kind.Promote?
                            && t.asked[id].request.resource.ConnectionResource? ==>
               id in s.bridge.settled && id in s.asked && t.asked[id] == s.asked[id]
    ensures OwnersKnown(t, attached)
  {
    forall c ensures Promoted(t, c) <==> Promoted(s, c) {
      if Promoted(s, c) {
        var id :| id in s.bridge.settled && id in s.asked && s.bridge.settled[id].Fulfilled? && s.asked[id].request == Request(Promote, ConnectionResource(c));
        assert t.bridge.settled[id].Fulfilled? && t.asked[id].request == Request(Promote, ConnectionResource(c));
      }
      if Promoted(t, c) {
        var id :| id in t.bridge.settled && id in t.asked && t.bridge.settled[id].Fulfilled? && t.asked[id].request == Request(Promote, ConnectionResource(c));
        assert s.bridge.settled[id].Fulfilled? && s.asked[id].request == Request(Promote, ConnectionResource(c));
      }
    }
    hide Promoted;
  }

  lemma QuietOwners(s: State, e: Event, attached: set<nat>)
    requires Inv(s) && OwnersKnown(s, attached) && !e.DeliverToBridge? && e != AttachedEvent(true)
    ensures OwnersKnown(Step(s, e), attached)
  {
    hide Inv, Step, GivesUpOn, OwnersKnown;
    GivingUp(s, e);
    OwnedStays(s, e);
    SettledIsAsked(s);
    SameOwnersKnown(s, Step(s, e), attached);
  }

  lemma SettledIsAsked(s: State)
    requires Inv(s)
    ensures forall id :: id in s.bridge.settled ==> id in s.asked
  {
    hide SentInv, ServerInv, PromotionInv, OwnerInv, RepliedInv, VerdictInv;
  }

  lemma OwnedStays(s: State, e: Event)
    requires Inv(s) && !e.DeliverToBridge? && e != AttachedEvent(true)
    ensures var t := Step(s, e);
            && t.bridge.owned == s.bridge.owned && t.connections >= s.connections
            && forall id :: id in s.asked ==> id in t.asked && t.asked[id] == s.asked[id]
    ensures var t := Step(s, e); forall id :: id in t.asked && id !in s.asked ==> id !in s.bridge.settled
  {
    hide Inv, Invoke, Post, TimeOut, RejectResource, FailTransport, Close, NextToPost, IsMutation, MayInvoke, Deliver, Conclude, Fatal;
    NewIsUnasked(s);
    SettledIsAsked(s);
    BridgeKeepsOwned(s.bridge);
  }

  lemma BridgeKeepsOwned(b: Bridge)
    ensures forall r :: Invoke(b, r).owned == b.owned
    ensures forall id, sent :: Post(b, id, sent).owned == b.owned
    ensures forall id :: TimeOut(b, id).owned == b.owned
    ensures forall r :: RejectResource(b, r).owned == b.owned
    ensures FailTransport(b).owned == b.owned && Close(b).owned == b.owned
  {
    forall c: Bridge, only ensures GiveUp(c, c.ordinal, only).owned == c.owned { GiveUpLeaves(c, c.ordinal, only); }
    hide GiveUp, IsMutation, Retire;
  }

  lemma HearingOwners(s: State, attached: set<nat>)
    requires Inv(s) && OwnersKnown(s, attached) && s.toBridge != []
    ensures OwnersKnown(Step(s, DeliverToBridge), attached)
  {
    var m, t := s.toBridge[0], Step(s, DeliverToBridge);
    hide Inv, OwnersKnown, FailTransport, ReceiveResponse, GivesUpOn;
    SettledIsAsked(s);
    BridgeKeepsOwned(s.bridge);
    GivingUp(s, TransportEvent);
    assert Step(s, TransportEvent) == s.(bridge := FailTransport(s.bridge));
    assert t == s.(bridge := Hear(s.bridge, m), toBridge := s.toBridge[1..]);
    hide Step;
    if Hear(s.bridge, m) == FailTransport(s.bridge) || (Hear(s.bridge, m).settled == s.bridge.settled && Hear(s.bridge, m).owned == s.bridge.owned) {
      SameOwnersKnown(s, t, attached);
    } else {
      NextReply(s);
      AnsweredOwners(s, m, attached);
    }
  }

  lemma NextReply(s: State)
    requires Inv(s) && s.toBridge != []
    ensures s.toBridge[0].ResponseMessage? ==> s.toBridge[0].response.failure != Some(Fulfilled)
  {
    ShorterKeepsInv(s);
    hide Inv;
  }

  /** Only a promotion's success makes the host disown its session. */
  lemma AnsweredOwners(s: State, m: ToBridge, attached: set<nat>)
    requires Inv(s) && OwnersKnown(s, attached) && (m.ResponseMessage? ==> m.response.failure != Some(Fulfilled))
    requires Hear(s.bridge, m) != FailTransport(s.bridge) && !(Hear(s.bridge, m).settled == s.bridge.settled && Hear(s.bridge, m).owned == s.bridge.owned)
    ensures OwnersKnown(s.(bridge := Hear(s.bridge, m)), attached)
  {
    hide FailTransport, Retire, Inv;
    assert m.ResponseMessage? && m.response.id in s.bridge.pending && m.response.request == s.bridge.pending[m.response.id].request;
    var id := m.response.id;
    PendingAsAsked(s, id);
    var b := SettleOne(s.bridge, id, VerdictOf(m.response));
    SettledIsAsked(s);
    var promotes := m.response.failure.None? && m.response.request.kind.Promote? && m.response.request.resource.ConnectionResource?;
    var t := s.(bridge := Hear(s.bridge, m));
    assert t.bridge == if promotes then b.(owned := b.owned - {m.response.request.resource.connection}) else b;
    assert s.asked[id].request == m.response.request;
    hide Hear;
    if promotes { PromotedNow(s, t, id, m.response.request.resource.connection, attached); } else { SameOwnersKnown(s, t, attached); }
  }

  lemma PromotedNow(s: State, t: State, id: nat, c: nat, attached: set<nat>)
    requires OwnersKnown(s, attached) && id in s.asked && id !in s.bridge.settled && s.asked[id].request == Request(Promote, ConnectionResource(c))
    requires t.asked == s.asked && t.connections == s.connections && t.bridge.owned == s.bridge.owned - {c}
    requires t.bridge.settled == s.bridge.settled[id := Fulfilled]
    ensures OwnersKnown(t, attached)
  {
    forall d ensures Promoted(t, d) <==> Promoted(s, d) || d == c {
      if Promoted(s, d) {
        var j :| j in s.bridge.settled && j in s.asked && s.bridge.settled[j].Fulfilled? && s.asked[j].request == Request(Promote, ConnectionResource(d));
        assert t.bridge.settled[j].Fulfilled?;
      }
      assert t.bridge.settled[id].Fulfilled?;
    }
    hide Promoted;
  }

  lemma AttachedOwners(s: State, attached: set<nat>)
    requires Inv(s) && OwnersKnown(s, attached)
    ensures OwnersKnown(Step(s, AttachedEvent(true)), attached + {s.connections + 1})
  {
    var t, c := Step(s, AttachedEvent(true)), s.connections + 1;
    assert forall id :: id in s.asked && s.asked[id].request.resource.ConnectionResource? ==> s.asked[id].request.resource.connection <= s.connections
      by { hide SentInv, ServerInv, PromotionInv, OwnerInv, RepliedInv, VerdictInv; }
    assert forall d :: Promoted(t, d) <==> Promoted(s, d);
    assert !Promoted(s, c);
    hide Inv, Promoted;
  }

  lemma StepOwners(s: State, e: Event, attached: set<nat>)
    requires Inv(s) && OwnersKnown(s, attached)
    ensures OwnersKnown(Step(s, e), AttachedAfter(s, attached, e))
  {
    hide Inv, OwnersKnown;
    if e.DeliverToBridge? { if s.toBridge != [] { HearingOwners(s, attached); } }
    else if e == AttachedEvent(true) { AttachedOwners(s, attached); }
    else { QuietOwners(s, e, attached); }
  }

  lemma {:induction false} RunOwners(s: State, attached: set<nat>, events: seq<Event>)
    requires Inv(s) && OwnersKnown(s, attached)
    ensures Inv(Run(s, events)) && OwnersKnown(Run(s, events), OwnedAttached(s, attached, events))
    decreases |events|
  {
    hide Inv, OwnersKnown, Step, AttachedAfter;
    if events != [] {
      StepKeepsInv(s, events[0]);
      StepOwners(s, events[0], attached);
      RunOwners(Step(s, events[0]), AttachedAfter(s, attached, events[0]), events[1..]);
    }
  }

  /** In every run: a request is taken exactly while the bridge is open, whole and not full,
      and flagged as a mutation exactly when it is no query and no listing, and, for a
      disposal, when its connection was attached as owned and no promotion of it succeeded. */
  lemma FlaggedExactly(events: seq<Event>, r: Request)
    requires r.resource.ConnectionResource? ==> r.resource.connection <= Run(BEGIN, events).connections
    ensures var s := Run(BEGIN, events);
            var t, id := Step(s, InvokeEvent(r)), s.bridge.ordinal + 1;
            && id !in s.asked
            && (id in t.asked <==> !s.bridge.terminal && !s.bridge.closing && |s.bridge.pending| < MAX_PENDING)
            && (id in t.asked ==>
                  && t.asked[id].request == r && id in t.bridge.pending
                  && (t.asked[id].mutation <==>
                        && !r.kind.Query? && r.kind != ClientRequest(true)
                        && (r.kind.Dispose? ==>
                              && r.resource.ConnectionResource? && r.resource.connection in OwnedAttached(BEGIN, {}, events)
                              && !Promoted(s, r.resource.connection))))
  {
    BeginIsInv();
    RunOwners(BEGIN, {}, events);
    NewIsUnasked(Run(BEGIN, events));
    hide Run, Inv, OwnedAttached, Step;
    Flagging(Run(BEGIN, events), r, OwnedAttached(BEGIN, {}, events));
  }

  lemma Flagging(s: State, r: Request, attached: set<nat>)
    requires OwnersKnown(s, attached) && s.bridge.ordinal + 1 !in s.asked
    requires r.resource.ConnectionResource? ==> r.resource.connection <= s.connections
    ensures var t, id := Step(s, InvokeEvent(r)), s.bridge.ordinal + 1;
            && (id in t.asked <==> !s.bridge.terminal && !s.bridge.closing && |s.bridge.pending| < MAX_PENDING)
            && (id in t.asked ==>
                  && t.asked[id].request == r && id in t.bridge.pending
                  && (t.asked[id].mutation <==>
                        && !r.kind.Query? && r.kind != ClientRequest(true)
                        && (r.kind.Dispose? ==>
                              r.resource.ConnectionResource? && r.resource.connection in attached && !Promoted(s, r.resource.connection))))
  {
    hide Promoted;
  }

  /** In every run: an answer that comes after its request was given up or settled changes
      nothing, as long as the id is among those remembered, and all are until there are
      too many; an answer to a request never made fails the transport. */
  lemma LateAnswersAreIgnored(events: seq<Event>, r: Response)
    ensures var s := Run(BEGIN, events);
            && (r.id in s.bridge.settled && (r.id in s.bridge.retired || |s.bridge.settled| <= MAX_RETIRED) ==> ReceiveResponse(s.bridge, r) == s.bridge)
            && (r.id !in s.asked ==> ReceiveResponse(s.bridge, r) == FailTransport(s.bridge))
  {
    BeginIsInv();
    RunKeepsInv(BEGIN, events);
    RunRetires(BEGIN, events);
    var s := Run(BEGIN, events);
    PendingIsUnsettled(s);
    SettledIsAsked(s);
    PendingAreAsked(s);
    hide Run, Inv, FailTransport;
  }

  lemma PendingAreAsked(s: State)
    requires Inv(s)
    ensures forall id :: id in s.bridge.pending ==> id in s.asked
  {
    hide SentInv, ServerInv, PromotionInv, OwnerInv, RepliedInv, VerdictInv;
  }

  /** The retired ids are settled ones, each once, and all of them while they fit. */
  ghost predicate RetiredOk(b: Bridge) {
    && (forall id :: id in b.retired ==> id in b.settled)
    && (forall i, j :: 0 <= i < j < |b.retired| ==> b.retired[i] != b.retired[j])
    && (|b.settled| <= MAX_RETIRED ==> forall id :: id in b.settled ==> id in b.retired)
    && |b.retired| <= MAX_RETIRED
  }

  lemma SettlingRetires(b: Bridge, id: nat, v: Verdict)
    requires RetiredOk(b) && id !in b.settled
    ensures RetiredOk(SettleOne(b, id, v))
  {
    var t := SettleOne(b, id, v);
    assert t.settled.Keys == b.settled.Keys + {id} && |t.settled| == |t.settled.Keys| && |b.settled| == |b.settled.Keys|;
    if |t.settled| <= MAX_RETIRED {
      RetiredCount(b.retired, b.settled.Keys);
      assert |b.retired| < MAX_RETIRED;
    }
  }

  /** Distinct ids of a set are no more than its elements. */
  lemma {:induction false} RetiredCount(ids: seq<nat>, of: set<nat>)
    requires (forall i, j :: 0 <= i < j < |ids| ==> ids[i] != ids[j]) && forall id :: id in ids ==> id in of
    ensures |ids| <= |of|
    decreases |ids|
  {
    if ids != [] {
      var last := ids[|ids| - 1];
      assert last in ids;
      RetiredCount(ids[..|ids| - 1], of - {last});
    }
  }

  lemma {:induction false} GivingUpRetires(b: Bridge, n: nat, only: Option<Resource>)
    requires RetiredOk(b) && forall id :: id in b.pending ==> id !in b.settled
    ensures RetiredOk(GiveUp(b, n, only))
  {
    hide RetiredOk, SettleOne, Concerns, LostVerdict;
    if n > 0 {
      GivingUpRetires(b, n - 1, only);
      GiveUpFacts(b, n - 1, only);
      var before := GiveUp(b, n - 1, only);
      if n in before.pending { SettlingRetires(before, n, LostVerdict(before.pending[n])); }
    }
  }

  lemma BridgeRetires(s: State)
    requires Inv(s) && RetiredOk(s.bridge)
    ensures RetiredOk(FailTransport(s.bridge)) && RetiredOk(Close(s.bridge))
    ensures forall r :: RetiredOk(RejectResource(s.bridge, r))
    ensures forall id :: RetiredOk(TimeOut(s.bridge, id))
    ensures forall id, sent :: RetiredOk(Post(s.bridge, id, sent))
  {
    PendingIsUnsettled(s);
    var b := s.bridge;
    SameRetired(b, b.(terminal := true));
    SameRetired(b, b.(closing := true));
    hide Inv, RetiredOk, SettleOne;
    GivingUpRetires(b.(terminal := true), b.ordinal, None);
    GivingUpRetires(b.(closing := true), b.ordinal, None);
    forall r ensures RetiredOk(RejectResource(b, r)) { GivingUpRetires(b, b.ordinal, Some(r)); }
    forall id ensures RetiredOk(TimeOut(b, id)) { if id in b.pending { SettlingRetires(b, id, LostVerdict(b.pending[id])); } }
    forall id, sent ensures RetiredOk(Post(b, id, sent)) {
      if id in b.pending {
        SettlingRetires(b, id, Definitive);
        SameRetired(b, b.(pending := b.pending[id := b.pending[id].(posted := true)]));
      }
    }
  }

  lemma SameRetired(b: Bridge, t: Bridge)
    requires RetiredOk(b) && t.retired == b.retired && t.settled == b.settled
    ensures RetiredOk(t)
  {}

  lemma HearingRetires(s: State, m: ToBridge)
    requires Inv(s) && RetiredOk(s.bridge)
    ensures RetiredOk(Hear(s.bridge, m))
  {
    BridgeRetires(s);
    PendingIsUnsettled(s);
    if m.ResponseMessage? && m.response.id in s.bridge.pending { SettlingRetires(s.bridge, m.response.id, VerdictOf(m.response)); }
    hide Inv, SettleOne, FailTransport;
  }

  lemma StepRetires(s: State, e: Event)
    requires Inv(s) && RetiredOk(s.bridge)
    ensures RetiredOk(Step(s, e).bridge)
  {
    hide Inv, RetiredOk, Invoke, Post, TimeOut, RejectResource, FailTransport, Close, Deliver, Conclude, Fatal, Hear, NextToPost, MayInvoke;
    BridgeRetires(s);
    match e
    case InvokeEvent(r) => InvokingRetires(s.bridge, r);
    case AttachedEvent(owned) => SameRetired(s.bridge, Step(s, e).bridge);
    case DeliverToBridge => if s.toBridge != [] { HearingRetires(s, s.toBridge[0]); }
    case _ =>
  }

  lemma InvokingRetires(b: Bridge, r: Request)
    requires RetiredOk(b)
    ensures RetiredOk(Invoke(b, r))
  {
    hide IsMutation;
  }

  lemma {:induction false} RunRetires(s: State, events: seq<Event>)
    requires Inv(s) && RetiredOk(s.bridge)
    ensures RetiredOk(Run(s, events).bridge)
    decreases |events|
  {
    hide Inv, Step, RetiredOk;
    if events != [] {
      StepKeepsInv(s, events[0]);
      StepRetires(s, events[0]);
      RunRetires(Step(s, events[0]), events[1..]);
    }
  }
}
