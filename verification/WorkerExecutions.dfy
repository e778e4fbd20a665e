/** The worker server's side of the protocol, request by request, and what breaks the
    transport on the host's side. */
module WorkerExecutions {
  import opened Outcomes
  import opened ResidentSessions
  import opened WorkerBridges
  import opened WorkerProtocols

  /** A request goes upstream exactly when its local checks pass and its connection is there
      and fit: live for an operation, live and owned for a promotion, and live, owned or
      resident for a disposal. */
  lemma LaunchesExactly(v: Server, r: Request, accepted: bool)
    ensures Launches(v, r, accepted) <==>
              && accepted
              && (r.resource.ConnectionResource? && !r.kind.Query? ==>
                    && r.resource.connection in v.sessions
                    && var session := v.sessions[r.resource.connection];
                       && !session.disposed
                       && (r.kind.Promote? ==> session.ownership.Owned?)
                       && (r.kind.Dispose? ==> session.ownership.Owned? || session.ownership.Resident?))
  {}

  /** A request that does not go upstream is answered at once: a disposal made before
      succeeds, one that an unsettled promotion makes unsafe is refused, both giving the
      connection up, and everything else is refused without a change. */
  lemma AnsweredAtOnce(v: Server, id: nat, r: Request, accepted: bool)
    requires !v.closing && !Launches(v, r, accepted)
    ensures var served := Execute(v, id, r, accepted);
            var ends := accepted && r.kind.Dispose? && r.resource.ConnectionResource? && r.resource.connection in v.sessions;
            && |served.posts| == 1 && served.posts[0].ResponseMessage?
            && served.posts[0].response.id == id && served.posts[0].response.request == r
            && (served.posts[0].response.failure.None? <==> ends && v.sessions[r.resource.connection].disposed)
            && (served.posts[0].response.failure.Some? ==> served.posts[0].response.failure == Some(Definitive))
            && served.server == (if ends then v.(sessions := v.sessions - {r.resource.connection}) else v)
  {}

  /** What an upstream answer makes of the connection: a promotion leaves it resident or in
      doubt, a disposal that succeeded removes it, and nothing else changes it. */
  lemma ConcludesExactly(v: Server, id: nat, a: Answer, serializable: bool)
    requires id in v.active
    ensures var t, r := Conclude(v, id, a, serializable).server, v.active[id];
            && t.active == v.active - {id} && t.answers == v.answers[id := a] && t.invoked == v.invoked
            && forall c :: c in v.sessions ==>
                 var here := r.resource == ConnectionResource(c);
                 && (c !in t.sessions <==> here && r.kind.Dispose? && a.Succeeds?)
                 && (c in t.sessions ==>
                       && t.sessions[c].disposed == v.sessions[c].disposed
                       && t.sessions[c].ownership == (if here && r.kind.Promote? then if a.Succeeds? then Resident else PromotionUnknown
                                                      else v.sessions[c].ownership))
  {
    var t := Conclude(v, id, a, serializable);
    assert t.server.sessions == Concluded(v, v.active[id], a);
  }

  /** A server that is closing answers no request any more. */
  lemma ClosingIsSilent(s: State, e: Event)
    requires s.server.closing
    ensures var t := Step(s, e);
            && t.server.closing
            && forall i :: 0 <= i < |t.toBridge| && t.toBridge[i].ResponseMessage? ==> t.toBridge[i] in s.toBridge
  {
    hide Invoke, Post, TimeOut, RejectResource, FailTransport, Close, NextToPost, IsMutation, MayInvoke, Hear, Concluded, FailureOutcome;
  }

  /** The message breaks the protocol: the worker failed, closed unasked, became ready twice,
      answered a request that it was never sent, or answered another one in its place. */
  predicate BreaksProtocol(b: Bridge, m: ToBridge) {
    match m
    case FatalMessage => true
    case ClosedMessage => !b.closing
    case ReadyMessage => b.ready
    case ResponseMessage(r) => if r.id in b.pending then b.pending[r.id].request != r.request else r.id !in b.retired
  }

  /** The transport fails exactly on a message that breaks the protocol; after that, none
      changes anything; and the bridge is ready from the first readiness on. */
  lemma FailsOnBreach(b: Bridge, m: ToBridge)
    ensures !b.terminal ==> (Hear(b, m).terminal <==> BreaksProtocol(b, m))
    ensures !b.terminal && BreaksProtocol(b, m) ==> Hear(b, m) == FailTransport(b)
    ensures b.terminal ==> Hear(b, m) == b
    ensures Hear(b, m).ready <==> b.ready || (m.ReadyMessage? && !b.terminal)
  {
    GiveUpLeaves(b.(terminal := true), b.ordinal, None);
    hide GiveUp, Retire;
  }
}
