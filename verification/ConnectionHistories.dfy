/** The worker server's connections, attaches, clients and recoveries, by the history of
    the requests and upstream answers alone. */
module ConnectionHistories {
  import opened Outcomes
  import opened ResidentSessions
  import opened SessionOwnership

  /** What happened so far. */
  datatype Past = Past(
    owned: set<nat>,          // connections attached as owned
    promoted: set<nat>,       // promotions that went upstream,
    confirmed: set<nat>,      //   those upstream confirmed,
    doubted: set<nat>,        //   and those that failed
    abandoned: set<nat>,      // attaches whose client was closed while they ran
    fenced: set<nat>)         // clients that had a disposal complete

  const NOTHING := Past({}, {}, {}, {}, {}, {})

  /** A disposal of this connection completes at this step. */
  predicate Completes(s: State, e: Event, c: nat) {
    && c in s.records && s.records[c].disposed
    && match e
       case DisposeBegins(d) => d == c && !s.closing && c in s.connections
       case DisposeEnds(d, ok) => d == c && ok && c in s.calls && !s.calls[c].byShutdown
       case _ => false
  }

  predicate CompletesForShutdown(s: State, e: Event, c: nat) {
    e == ClosingDisposeEnds(c, true) && c in s.records && c in s.calls && s.calls[c].byShutdown
  }

  predicate Outstanding(p: Past, c: nat) {
    c in p.promoted && c !in p.confirmed && c !in p.doubted
  }

  function PastAfter(s: State, p: Past, e: Event): Past {
    match e
    case AttachBegins(c, _, owned) =>
      if owned && c !in s.attaching && c in Step(s, e).attaching then p.(owned := p.owned + {c}) else p
    case PromoteBegins(c) =>
      if !s.closing && Live(s, c) && c in p.owned && c !in p.promoted then p.(promoted := p.promoted + {c}) else p
    case PromoteEnds(c, ok) =>
      if !Outstanding(p, c) then p
      else if ok then p.(confirmed := p.confirmed + {c}) else p.(doubted := p.doubted + {c})
    case CloseClient(k) =>
      if s.closing || k !in s.clients then p else p.(abandoned := p.abandoned + AttachingOf(s.attaching, k))
    case DisposeBegins(c) => if Completes(s, e, c) then p.(fenced := p.fenced + {s.records[c].client}) else p
    case DisposeEnds(c, _) => if Completes(s, e, c) then p.(fenced := p.fenced + {s.records[c].client}) else p
    case ClosingDisposeEnds(c, _) =>
      if CompletesForShutdown(s, e, c) then p.(fenced := p.fenced + {s.records[c].client}) else p
    case _ => p
  }

  function PastOf(s: State, p: Past, events: seq<Event>): Past
    decreases |events|
  {
    if events == [] then p else PastOf(Step(s, events[0]), PastAfter(s, p, events[0]), events[1..])
  }

  /** The ownership the history of this connection gives it. */
  function OwnershipBy(p: Past, c: nat): Ownership {
    if c !in p.owned || c in p.confirmed then Resident
    else if c in p.doubted then PromotionUnknown
    else if c in p.promoted then Promoting
    else Owned
  }

  predicate PastOk(s: State, p: Past) {
    && p.confirmed <= p.promoted && p.doubted <= p.promoted && p.confirmed !! p.doubted
    && p.promoted <= p.owned && p.promoted <= s.records.Keys
    && (forall c :: c in p.owned ==> c <= s.lastConnection)
    && (forall c :: c in p.abandoned ==> c <= s.lastConnection)
    && (forall k :: k in s.clients ==> k <= s.lastClient)
    && (forall k :: k in p.fenced ==> k <= s.lastClient)
    && (forall c :: c in s.records ==> s.records[c].client <= s.lastClient)
    && (forall c :: c in s.attaching ==> s.attaching[c].client <= s.lastClient)
  }

  predicate Explained(s: State, p: Past) {
    && PastOk(s, p)
    && (forall c :: c in s.records ==> s.records[c].ownership == OwnershipBy(p, c))
    && (forall c :: c in s.attaching ==> s.attaching[c].ownership == OwnershipBy(p, c) && c !in p.promoted)
    && (forall c :: c in s.attaching ==> (s.attaching[c].abandoned <==> c in p.abandoned))
    && (forall k :: k in s.clients ==> (s.clients[k].locallyClosed <==> k in p.fenced))
  }

  // ---- Steps ----

  /** Steps that leave ids, owners and clients alone. */
  lemma SameTables(s: State, t: State, p: Past)
    requires Explained(s, p) && t.lastConnection >= s.lastConnection && t.lastClient >= s.lastClient
    requires t.attaching == s.attaching && t.records.Keys == s.records.Keys
    requires forall c :: c in t.records ==> t.records[c].ownership == s.records[c].ownership && t.records[c].client == s.records[c].client
    requires forall k :: k in t.clients ==> k in s.clients && t.clients[k].locallyClosed == s.clients[k].locallyClosed
    ensures Explained(t, p)
  {
    hide OwnershipBy;
  }

  lemma FailingIsExplained(s: State, p: Past)
    requires Explained(s, p)
    ensures Explained(FailFatal(s), p) && Explained(ShutDown(s), p)
  {
    MarkMoreKeys(s.records, s.connections);
    if !s.fatalSent { SameTables(s, FailFatal(s), p); }
    if !s.closing { SameTables(s, ShutDown(s), p); }
    hide Explained;
  }

  /** History that does not bear on owners. */
  lemma SameOwners(p: Past, q: Past)
    requires q == p.(abandoned := q.abandoned, fenced := q.fenced)
    ensures forall c :: OwnershipBy(q, c) == OwnershipBy(p, c)
  {}

  lemma CreateIsExplained(s: State, k: nat, p: Past)
    requires Explained(s, p)
    ensures Explained(ClientCreated(s, k), p)
  {
    hide FailFatal, OwnershipBy, ShutDown;
    FailingIsExplained(s, p);
    if k == s.lastClient + 1 {
      SameTables(s, s.(lastClient := k), p);
      FailingIsExplained(s.(lastClient := k), p);
      NewClient(s, k, p);
    }
    hide Explained;
  }

  lemma NewClient(s: State, k: nat, p: Past)
    requires Explained(s, p) && k == s.lastClient + 1
    ensures Explained(s.(lastClient := k, clients := s.clients[k := Client(0, false)]), p)
  {
    hide OwnershipBy;
    assert k !in p.fenced;
  }

  lemma CloseIsExplained(s: State, k: nat, p: Past)
    requires Inv(s) && Explained(s, p)
    ensures Explained(ClientClosed(s, k), PastAfter(s, p, CloseClient(k)))
  {
    if !s.closing && k in s.clients {
      var abandoned := AttachingOf(s.attaching, k);
      var q := p.(abandoned := p.abandoned + abandoned);
      SameOwners(p, q);
      assert forall c :: c in s.attaching ==> c <= s.lastConnection;
      var gone := ConnectionsOf(s.connections, s.records, k);
      RejectLeaves(s, RecoveriesOf(s.recoveries, gone + abandoned));
      MarkMoreKeys(s.records, gone);
      hide Inv, RejectAll, RecoveriesOf, OwnershipBy;
      assert Explained(AbandonClient(s, k), q);
    }
  }

  lemma ClientIsExplained(s: State, e: Event, p: Past)
    requires Inv(s) && Explained(s, p) && (e.CreateClient? || e.CloseClient?)
    ensures Explained(Step(s, e), PastAfter(s, p, e))
  {
    if e.CreateClient? { CreateIsExplained(s, e.client, p); } else { CloseIsExplained(s, e.client, p); }
    hide Explained, Inv, ClientCreated, ClientClosed;
  }

  lemma AttachBeginIsExplained(s: State, e: Event, p: Past)
    requires Inv(s) && Explained(s, p) && e.AttachBegins?
    ensures Explained(Step(s, e), PastAfter(s, p, e))
  {
    hide FailFatal, ShutDown, Inv, Explained;
    var c := e.connection;
    var later := s.(lastConnection := c);
    FailedTables(s);
    FailedTables(later);
    FailingIsExplained(s, p);
    NewConnection(s, p);
    if c == s.lastConnection + 1 {
      LaterIsExplained(s, p);
      FailingIsExplained(later, p);
      AttachIsNew(s, c, e.client, e.owned, p);
    }
    var t := AttachBegun(s, c, e.client, e.owned);
    assert Step(s, e) == t;
    assert PastAfter(s, p, e) == if e.owned && c !in s.attaching && c in t.attaching then p.(owned := p.owned + {c}) else p;
    hide Step, PastAfter;
    AttachCases(s, c, e.client, e.owned);
  }

  lemma AttachCases(s: State, c: nat, k: nat, owned: bool)
    ensures var t := AttachBegun(s, c, k, owned);
            || t == s || t == FailFatal(s)
            || (c == s.lastConnection + 1 && (t == s.(lastConnection := c) || t == FailFatal(s.(lastConnection := c))))
            || (c == s.lastConnection + 1 && k in s.clients
                && t == s.(lastConnection := c, attaching := s.attaching[c := Attaching(k, if owned then Owned else Resident, false)]))
  {
    hide FailFatal;
  }

  lemma LaterIsExplained(s: State, p: Past)
    requires Explained(s, p)
    ensures Explained(s.(lastConnection := s.lastConnection + 1), p)
  {
    SameTables(s, s.(lastConnection := s.lastConnection + 1), p);
    hide Explained;
  }

  lemma FailedTables(s: State)
    ensures FailFatal(s).attaching == s.attaching
  {}

  lemma NewConnection(s: State, p: Past)
    requires Inv(s) && Explained(s, p)
    ensures var c := s.lastConnection + 1;
            c !in s.attaching && c !in p.owned && c !in p.promoted && c !in p.abandoned && c !in s.records
  {}

  lemma AttachIsNew(s: State, c: nat, k: nat, owned: bool, p: Past)
    requires Inv(s) && Explained(s, p) && c == s.lastConnection + 1
    ensures k in s.clients ==>
              Explained(s.(lastConnection := c, attaching := s.attaching[c := Attaching(k, if owned then Owned else Resident, false)]),
                        if owned then p.(owned := p.owned + {c}) else p)
  {
    NewConnection(s, p);
    hide Inv;
    var q := p.(owned := p.owned + {c});
    assert forall d :: d != c ==> OwnershipBy(q, d) == OwnershipBy(p, d);
    assert OwnershipBy(p, c) == Resident && OwnershipBy(q, c) == Owned by { assert p.confirmed <= p.promoted && p.doubted <= p.promoted; }
    hide OwnershipBy;
  }

  lemma AttachEndIsExplained(s: State, c: nat, ok: bool, p: Past)
    requires Inv(s) && Explained(s, p)
    ensures Explained(AttachEnded(s, c, ok), p)
  {
    hide OwnershipBy, RejectAll, RecoveriesOf, Inv;
    if c in s.attaching { RejectLeaves(s, RecoveriesOf(s.recoveries, {c})); }
  }

  /** One connection's owner changes, as the history says. */
  lemma OwnerIsExplained(s: State, c: nat, o: Ownership, p: Past, q: Past)
    requires Explained(s, p) && c in s.records && c !in s.attaching && PastOk(s, q) && o == OwnershipBy(q, c)
    requires q == p.(promoted := q.promoted, confirmed := q.confirmed, doubted := q.doubted)
    requires forall d :: d != c ==> OwnershipBy(q, d) == OwnershipBy(p, d) && (d in q.promoted <==> d in p.promoted)
    ensures Explained(s.(records := s.records[c := s.records[c].(ownership := o)]), q)
  {
    hide OwnershipBy;
  }

  lemma PromotionIsExplained(s: State, e: Event, p: Past)
    requires Inv(s) && Explained(s, p) && (e.PromoteBegins? || e.PromoteEnds?)
    ensures Explained(Step(s, e), PastAfter(s, p, e))
  {
    var c, q := e.connection, PastAfter(s, p, e);
    assert c in s.records ==> c !in s.attaching by { hide CallsInv, RecoveryInv, Explained; }
    hide Inv;
    assert c in s.records ==> s.records[c].ownership == OwnershipBy(p, c);
    assert PastOk(s, q);
    hide Explained, FailFatal, ShutDown;
    if q != p {
      assert c in s.records;
      var o := if e.PromoteBegins? then Promoting else if e.ok then Resident else PromotionUnknown;
      assert o == OwnershipBy(q, c);
      OwnerIsExplained(s, c, o, p, q);
    }
  }

  lemma DoneIsExplained(s: State, c: nat, p: Past)
    requires Explained(s, p) && c in s.records
    ensures Explained(DisposeDone(s, c), p.(fenced := p.fenced + {s.records[c].client}))
  {
    hide OwnershipBy;
    assert forall d :: OwnershipBy(p.(fenced := p.fenced + {s.records[c].client}), d) == OwnershipBy(p, d) by { FencingChangesNoOwner(p, s.records[c].client); }
  }

  lemma FencingChangesNoOwner(p: Past, k: nat)
    ensures forall d :: OwnershipBy(p.(fenced := p.fenced + {k}), d) == OwnershipBy(p, d)
  {}

  lemma DisposalIsExplained(s: State, e: Event, p: Past)
    requires Inv(s) && Explained(s, p) && (e.DisposeBegins? || e.DisposeEnds?)
    ensures Explained(Step(s, e), PastAfter(s, p, e))
  {
    hide Explained, DisposeDone, CallAll, RejectAll, RecoveriesOf, Inv, FailFatal, ShutDown, OneLess;
    var c := e.connection;
    if c in s.records { DoneIsExplained(s, c, p); }
    if e.DisposeBegins? && !(c in s.records && s.records[c].disposed) {
      DisposalTables(s, c);
      if DisposalBegun(s, c) != s { SameTables(s, DisposalBegun(s, c), p); }
      hide DisposalBegun;
    }
  }

  lemma DisposalTables(s: State, c: nat)
    requires !(c in s.records && s.records[c].disposed)
    ensures var t := DisposalBegun(s, c);
            && t.attaching == s.attaching && t.lastConnection == s.lastConnection && t.lastClient == s.lastClient
            && t.records.Keys == s.records.Keys
            && (forall d :: d in t.records ==> t.records[d].ownership == s.records[d].ownership && t.records[d].client == s.records[d].client)
            && (forall k :: k in t.clients ==> k in s.clients && t.clients[k].locallyClosed == s.clients[k].locallyClosed)
  {
    RejectLeaves(s, RecoveriesOf(s.recoveries, {c}));
    hide RejectAll, RecoveriesOf, DisposeDone;
  }

  lemma ClosingDisposalIsExplained(s: State, e: Event, p: Past)
    requires Explained(s, p) && e.ClosingDisposeEnds?
    ensures Explained(Step(s, e), PastAfter(s, p, e))
  {
    if e.connection in s.records { FencingChangesNoOwner(p, s.records[e.connection].client); }
    hide OwnershipBy;
  }

  lemma RecoveryIsExplained(s: State, e: Event, p: Past)
    requires Explained(s, p) && (e.RequestRecovery? || e.RecoveryTimesOut? || e.RecoveryResponse? || e.CloseFinishes?)
    ensures Explained(Step(s, e), p)
  {
    hide FailFatal, ShutDown, RejectAll, MayRecover, Explained;
    if e.RecoveryResponse? {
      var leaked := s.(recoveries := s.recoveries - {e.recovery}, leaked := s.leaked + {e.recovery});
      SameTables(s, leaked, p);
      FailingIsExplained(leaked, p);
      RejectLeaves(s, {e.recovery});
      SameTables(s, RejectAll(s, {e.recovery}), p);
    } else if e.RecoveryTimesOut? {
      RejectLeaves(s, {e.recovery});
      SameTables(s, Step(s, e), p);
    } else {
      SameTables(s, Step(s, e), p);
    }
  }

  lemma StepIsExplained(s: State, e: Event, p: Past)
    requires Inv(s) && Explained(s, p)
    ensures Explained(Step(s, e), PastAfter(s, p, e))
  {
    hide Inv, Explained, FailFatal, ShutDown;
    match e
    case CreateClient(_) => ClientIsExplained(s, e, p);
    case CloseClient(_) => ClientIsExplained(s, e, p);
    case AttachBegins(_, _, _) => AttachBeginIsExplained(s, e, p);
    case AttachEnds(c, ok) => AttachEndIsExplained(s, c, ok, p);
    case PromoteBegins(_) => PromotionIsExplained(s, e, p);
    case PromoteEnds(_, _) => PromotionIsExplained(s, e, p);
    case DisposeBegins(_) => DisposalIsExplained(s, e, p);
    case DisposeEnds(_, _) => DisposalIsExplained(s, e, p);
    case ClosingDisposeEnds(_, _) => ClosingDisposalIsExplained(s, e, p);
    case Shutdown => FailingIsExplained(s, p);
    case Fail => FailingIsExplained(s, p);
    case _ => RecoveryIsExplained(s, e, p);
  }

  lemma {:induction false} RunIsExplained(s: State, p: Past, events: seq<Event>)
    requires Inv(s) && Explained(s, p)
    ensures Inv(Run(s, events)) && Explained(Run(s, events), PastOf(s, p, events))
    decreases |events|
  {
    hide Inv, Explained, Step, PastAfter;
    if events != [] {
      StepKeepsInv(s, events[0]);
      StepIsExplained(s, events[0], p);
      RunIsExplained(Step(s, events[0]), PastAfter(s, p, events[0]), events[1..]);
    }
  }

  // ---- Results ----

  /** In every interleaving: a connection attached as owned stays owned until its promotion
      goes upstream; from then on it is promoting until upstream answers, resident exactly
      if that answer was success, and in doubt for good if not; any other is resident.
      An attach is abandoned exactly when its client was closed while it ran, and a
      client is closed to new work exactly when a disposal of one of its connections completed. */
  lemma OwnershipIsCaused(events: seq<Event>)
    ensures var s, p := Run(FRESH, events), PastOf(FRESH, NOTHING, events);
            && (forall c :: c in s.records ==> s.records[c].ownership == OwnershipBy(p, c))
            && (forall c :: c in s.attaching ==> (s.attaching[c].abandoned <==> c in p.abandoned))
            && (forall k :: k in s.clients ==> (s.clients[k].locallyClosed <==> k in p.fenced))
  {
    FreshIsInv();
    RunIsExplained(FRESH, NOTHING, events);
    hide Inv, Run, PastOf, OwnershipBy;
  }

  // ---- Recoveries ----

  predicate Usable(s: State, c: nat) {
    (c in s.attaching && !s.attaching[c].abandoned) || Live(s, c)
  }

  /** Every waiting recovery is that of a connection or attach that can still use it. */
  ghost predicate AllHeld(s: State) {
    forall r :: r in s.recoveries ==> Usable(s, s.recoveries[r])
  }

  function ClientOf(s: State, c: nat): nat {
    if c in s.attaching then s.attaching[c].client else if c in s.records then s.records[c].client else 0
  }

  /** What ends this recovery at this step: its own answer or deadline, its connection or
      attach ending, its client closing, or the whole server closing. */
  predicate Ends(s: State, e: Event, t: State, r: nat) {
    r in s.recoveries &&
    (|| (!s.closing && t.closing)
     || match e
        case RecoveryTimesOut(q) => q == r
        case RecoveryResponse(q, _, _) => q == r
        case AttachEnds(c, ok) => c == s.recoveries[r] && c in s.attaching && !ok
        case DisposeBegins(c) => c == s.recoveries[r] && c in s.connections
        case CloseClient(k) => k in s.clients && ClientOf(s, s.recoveries[r]) == k
        case _ => false)
  }

  /** The recoveries after a step: those before, less the ones that ended, and perhaps one asked for. */
  ghost predicate EndsAre(s: State, e: Event, t: State) {
    && (forall r :: r in s.recoveries ==> (r !in t.recoveries <==> Ends(s, e, t, r)))
    && (forall r :: r in s.recoveries && r in t.recoveries ==> t.recoveries[r] == s.recoveries[r])
    && (forall r :: r in t.recoveries && r !in s.recoveries ==>
          r == s.recoveryOrdinal + 1 && e == RequestRecovery(t.recoveries[r]) && MayRecover(s, t.recoveries[r]))
  }

  lemma ClosingEndsAll(s: State)
    ensures FailFatal(s).closing || s.fatalSent
    ensures FailFatal(s) == s || FailFatal(s).recoveries == map[]
    ensures ShutDown(s) == s || (ShutDown(s).recoveries == map[] && ShutDown(s).closing)
  {
    assert s.recoveries - s.recoveries.Keys == map[];
  }

  /** The recoveries of these connections are gone; those of all others stay, and stay usable. */
  ghost predicate Drops(s: State, t: State, which: set<nat>) {
    && t.closing == s.closing
    && (forall r :: r in t.recoveries <==> r in s.recoveries && s.recoveries[r] !in which)
    && (forall r :: r in t.recoveries ==> t.recoveries[r] == s.recoveries[r])
    && (forall c :: c !in which && Usable(s, c) ==> Usable(t, c))
  }

  lemma DropsHold(s: State, e: Event, t: State, which: set<nat>)
    requires AllHeld(s) && Drops(s, t, which)
    requires forall r :: r in s.recoveries ==> (Ends(s, e, t, r) <==> s.recoveries[r] in which)
    ensures EndsAre(s, e, t) && AllHeld(t)
  {
    hide Usable, Ends, MayRecover;
  }

  lemma ClosedIsHeld(s: State, e: Event, t: State)
    requires t == Step(s, e) && t.closing && t.recoveries == map[] && (s.closing ==> s.recoveries == map[])
    ensures EndsAre(s, e, t) && AllHeld(t)
  {
    hide Step, MayRecover;
  }

  lemma ClosingMode(s: State)
    requires Inv(s)
    ensures s.closing ==> s.recoveries == map[]
    ensures s.fatalSent ==> s.closing
    ensures forall c :: c in s.attaching ==> c !in s.records && c <= s.lastConnection
  {
    hide CallsInv;
  }

  /** A step after which the server is closed, or nothing about recoveries changed. */
  lemma MayCloseHolds(s: State, e: Event, t: State)
    requires Inv(s) && AllHeld(s) && t == Step(s, e)
    requires e.CreateClient? || e.AttachBegins? || e.Shutdown? || e.Fail? || e.CloseFinishes?
    requires (t.closing && t.recoveries == map[]) || Drops(s, t, {})
    ensures EndsAre(s, e, t) && AllHeld(t)
  {
    hide Inv, EndsAre, AllHeld, Drops, Step;
    ClosingMode(s);
    if t.closing && t.recoveries == map[] { ClosedIsHeld(s, e, t); }
    else {
      assert Drops(s, t, {}) && t.closing == s.closing by { DropsLeaveMode(s, t); }
      DropsHold(s, e, t, {});
    }
  }

  lemma DropsLeaveMode(s: State, t: State)
    requires Drops(s, t, {})
    ensures t.closing == s.closing
  {}

  lemma FailedOrSame(s: State, later: State)
    requires Inv(s) && later == s.(lastClient := later.lastClient, lastConnection := later.lastConnection)
    ensures var t := FailFatal(later); t.closing && t.recoveries == map[]
  {
    ClosingMode(s);
    ClosingEndsAll(later);
    hide Inv, FailFatal;
  }

  lemma CreateEnds(s: State, k: nat)
    requires Inv(s) && AllHeld(s)
    ensures var t := ClientCreated(s, k); EndsAre(s, CreateClient(k), t) && AllHeld(t)
  {
    hide Inv, FailFatal, EndsAre, AllHeld;
    ClosingMode(s);
    FailedOrSame(s, s);
    FailedOrSame(s, s.(lastClient := k));
    MayCloseHolds(s, CreateClient(k), ClientCreated(s, k));
  }

  lemma AttachBeginEnds(s: State, c: nat, k: nat, owned: bool)
    requires Inv(s) && AllHeld(s)
    ensures var t := AttachBegun(s, c, k, owned); EndsAre(s, AttachBegins(c, k, owned), t) && AllHeld(t)
  {
    hide Inv, FailFatal, EndsAre, AllHeld;
    ClosingMode(s);
    FailedOrSame(s, s);
    FailedOrSame(s, s.(lastConnection := c));
    AttachCases(s, c, k, owned);
    var t := AttachBegun(s, c, k, owned);
    assert t == Step(s, AttachBegins(c, k, owned));
    hide AttachBegun, Step;
    MayCloseHolds(s, AttachBegins(c, k, owned), t);
  }

  lemma FailingEnds(s: State, e: Event)
    requires Inv(s) && AllHeld(s) && (e.Shutdown? || e.Fail? || e.CloseFinishes?)
    ensures EndsAre(s, e, Step(s, e)) && AllHeld(Step(s, e))
  {
    hide Inv, FailFatal, ShutDown, EndsAre, AllHeld;
    ClosingMode(s);
    ClosingEndsAll(s);
    FailedOrSame(s, s);
    ShutDownCloses(s);
    MayCloseHolds(s, e, Step(s, e));
  }

  lemma ShutDownCloses(s: State)
    ensures ShutDown(s).closing
  {}

  lemma PassingEnds(s: State, e: Event)
    requires Inv(s) && AllHeld(s) && (e.PromoteBegins? || e.PromoteEnds? || e.DisposeEnds? || e.ClosingDisposeEnds?)
    ensures EndsAre(s, e, Step(s, e)) && AllHeld(Step(s, e))
  {
    hide Inv, EndsAre, AllHeld, FailFatal, ShutDown, OneLess;
    DropsHold(s, e, Step(s, e), {});
  }

  lemma RejectedAre(s: State, which: set<nat>)
    ensures forall r :: r in RejectAll(s, RecoveriesOf(s.recoveries, which)).recoveries <==> r in s.recoveries && s.recoveries[r] !in which
    ensures forall r :: r in RejectAll(s, RecoveriesOf(s.recoveries, which)).recoveries ==>
              RejectAll(s, RecoveriesOf(s.recoveries, which)).recoveries[r] == s.recoveries[r]
  {}

  lemma AttachEndEnds(s: State, c: nat, ok: bool)
    requires Inv(s) && AllHeld(s)
    ensures var t := AttachEnded(s, c, ok); EndsAre(s, AttachEnds(c, ok), t) && AllHeld(t)
  {
    hide Inv, EndsAre, FailFatal, RejectAll, RecoveriesOf, AllHeld;
    ClosingMode(s);
    RejectedAre(s, {c});
    AttachEndLeaves(s, c, ok);
    var t := AttachEnded(s, c, ok);
    var ends := c in s.attaching && (!ok || s.attaching[c].abandoned);
    hide AttachEnded, Live;
    assert Drops(s, t, if ends then {c} else {});
    if c in s.attaching && s.attaching[c].abandoned { AbandonedHolds(s, c); }
    DropsHold(s, AttachEnds(c, ok), t, if ends then {c} else {});
  }

  lemma AttachEndLeaves(s: State, c: nat, ok: bool)
    requires Inv(s)
    ensures var t := AttachEnded(s, c, ok);
            && t.closing == s.closing
            && (forall d :: d != c && Usable(s, d) ==> Usable(t, d))
            && (if c in s.attaching && (!ok || s.attaching[c].abandoned) then
                  t.recoveries == RejectAll(s, RecoveriesOf(s.recoveries, {c})).recoveries
                else t.recoveries == s.recoveries && (Usable(s, c) ==> Usable(t, c)))
  {
    ClosingMode(s);
    RejectLeaves(s, RecoveriesOf(s.recoveries, {c}));
    hide Inv, RejectAll, RecoveriesOf, OneMore;
  }

  lemma AbandonedHolds(s: State, c: nat)
    requires Inv(s) && AllHeld(s) && c in s.attaching && s.attaching[c].abandoned
    ensures forall r :: r in s.recoveries ==> s.recoveries[r] != c
  {
    ClosingMode(s);
    hide Inv;
  }

  lemma DisposalEnds(s: State, c: nat)
    requires Inv(s) && AllHeld(s)
    ensures var t := DisposalBegun(s, c); EndsAre(s, DisposeBegins(c), t) && AllHeld(t)
  {
    hide Inv, EndsAre, FailFatal, RejectAll, RecoveriesOf, CallAll, OneLess;
    ClosingMode(s);
    RejectedAre(s, {c});
    RejectLeaves(s, RecoveriesOf(s.recoveries, {c}));
    var t := DisposalBegun(s, c);
    DisposalLeaves(s, c);
    assert t == Step(s, DisposeBegins(c));
    assert c in s.connections ==> c in s.records by { hide RecoveryInv, CallsInv; InTable(s); }
    var which := if !s.closing && c in s.connections then {c} else {};
    assert Drops(s, t, which);
    hide Step, DisposalBegun;
    DropsHold(s, DisposeBegins(c), t, which);
  }

  lemma InTable(s: State)
    requires Inv(s)
    ensures forall c :: c in s.connections ==> c in s.records
  {
    hide CallsInv, RecoveryInv;
  }

  lemma DisposalLeaves(s: State, c: nat)
    ensures var t := DisposalBegun(s, c);
            && t.closing == s.closing && t.attaching == s.attaching
            && (forall d :: d != c && Live(s, d) ==> Live(t, d))
            && (!s.closing && c in s.connections && c in s.records ==>
                  t.recoveries == if s.records[c].disposed then s.recoveries else RejectAll(s, RecoveriesOf(s.recoveries, {c})).recoveries)
            && (!(!s.closing && c in s.connections && c in s.records) ==> t == s)
  {
    RejectLeaves(s, RecoveriesOf(s.recoveries, {c}));
    hide RejectAll, RecoveriesOf, OneLess;
  }

  lemma CloseEnds(s: State, k: nat)
    requires Inv(s) && AllHeld(s)
    ensures var t := ClientClosed(s, k); EndsAre(s, CloseClient(k), t) && AllHeld(t)
  {
    hide Inv, EndsAre, RejectAll, RecoveriesOf, AllHeld;
    ClosingMode(s);
    var t := ClientClosed(s, k);
    if !s.closing && k in s.clients {
      var of := ConnectionsOf(s.connections, s.records, k) + AttachingOf(s.attaching, k);
      RejectedAre(s, of);
      RejectLeaves(s, RecoveriesOf(s.recoveries, of));
      HeldByClient(s, k);
      OthersStay(s, k);
      hide ClientClosed, Usable, ConnectionsOf, AttachingOf;
      DropsHold(s, CloseClient(k), t, of);
    } else {
      DropsHold(s, CloseClient(k), s, {});
    }
  }

  lemma OthersStay(s: State, k: nat)
    requires !s.closing && k in s.clients
    ensures var t := ClientClosed(s, k);
            var of := ConnectionsOf(s.connections, s.records, k) + AttachingOf(s.attaching, k);
            && t.closing == s.closing && t.recoveries == RejectAll(s, RecoveriesOf(s.recoveries, of)).recoveries
            && forall c :: c !in of && Usable(s, c) ==> Usable(t, c)
  {
    RejectLeaves(s, RecoveriesOf(s.recoveries, ConnectionsOf(s.connections, s.records, k) + AttachingOf(s.attaching, k)));
    hide RejectAll, RecoveriesOf;
  }

  lemma HeldByClient(s: State, k: nat)
    requires Inv(s) && AllHeld(s)
    ensures forall r :: r in s.recoveries ==>
              (ClientOf(s, s.recoveries[r]) == k <==> s.recoveries[r] in ConnectionsOf(s.connections, s.records, k) + AttachingOf(s.attaching, k))
  {
    ClosingMode(s);
    hide Inv;
  }

  lemma RequestEnds(s: State, c: nat)
    requires Inv(s) && AllHeld(s)
    ensures var t := RecoveryRequested(s, c); EndsAre(s, RequestRecovery(c), t) && AllHeld(t)
  {
    assert s.recoveryOrdinal + 1 !in s.recoveries by { hide TableInv, CallsInv; }
    hide Inv;
  }

  /** One recovery ends for itself. */
  lemma OneEnds(s: State, e: Event, r: nat)
    requires AllHeld(s) && r in s.recoveries && (e == RecoveryTimesOut(r) || (e.RecoveryResponse? && e.recovery == r))
    ensures EndsAre(s, e, RejectAll(s, {r})) && AllHeld(RejectAll(s, {r}))
  {
    assert forall c :: Usable(RejectAll(s, {r}), c) <==> Usable(s, c);
    hide Usable, MayRecover;
  }

  lemma ExpiryEnds(s: State, r: nat)
    requires Inv(s) && AllHeld(s)
    ensures var t := RecoveryExpired(s, r); EndsAre(s, RecoveryTimesOut(r), t) && AllHeld(t)
  {
    if r in s.recoveries { OneEnds(s, RecoveryTimesOut(r), r); } else { DropsHold(s, RecoveryTimesOut(r), s, {}); }
    hide Inv, EndsAre, AllHeld, RejectAll;
  }

  lemma ResponseEnds(s: State, r: nat, ok: bool, error: ErrorField)
    requires Inv(s) && AllHeld(s)
    ensures var t := RecoveryAnswered(s, r, ok, error); EndsAre(s, RecoveryResponse(r, ok, error), t) && AllHeld(t)
  {
    hide Inv, EndsAre, AllHeld, RejectAll, FailFatal, Drops, MayRecover;
    var e := RecoveryResponse(r, ok, error);
    var leaked := s.(recoveries := s.recoveries - {r}, leaked := s.leaked + {r});
    ClosingMode(s);
    ClosingEndsAll(leaked);
    assert Step(s, e) == RecoveryAnswered(s, r, ok, error);
    if r !in s.recoveries { NothingDrops(s); DropsHold(s, e, s, {}); }
    else if Malformed(ok, error) { ClosedIsHeld(s, e, FailFatal(leaked)); }
    else { OneEnds(s, e, r); }
  }

  lemma NothingDrops(s: State)
    ensures Drops(s, s, {})
  {}

  lemma StepEnds(s: State, e: Event)
    requires Inv(s) && AllHeld(s)
    ensures EndsAre(s, e, Step(s, e)) && AllHeld(Step(s, e))
  {
    hide Inv, AllHeld, EndsAre, FailFatal, ShutDown;
    match e
    case CreateClient(k) => CreateEnds(s, k);
    case CloseClient(k) => CloseEnds(s, k);
    case AttachBegins(c, k, owned) => AttachBeginEnds(s, c, k, owned);
    case AttachEnds(c, ok) => AttachEndEnds(s, c, ok);
    case DisposeBegins(c) => DisposalEnds(s, c);
    case RequestRecovery(c) => RequestEnds(s, c);
    case RecoveryTimesOut(r) => ExpiryEnds(s, r);
    case RecoveryResponse(r, ok, error) => ResponseEnds(s, r, ok, error);
    case Shutdown => FailingEnds(s, e);
    case Fail => FailingEnds(s, e);
    case CloseFinishes => FailingEnds(s, e);
    case _ => PassingEnds(s, e);
  }

  lemma {:induction false} RunHolds(s: State, events: seq<Event>)
    requires Inv(s) && AllHeld(s)
    ensures Inv(Run(s, events)) && AllHeld(Run(s, events))
    decreases |events|
  {
    hide Inv, AllHeld, Step, EndsAre;
    if events != [] {
      StepKeepsInv(s, events[0]);
      StepEnds(s, events[0]);
      RunHolds(Step(s, events[0]), events[1..]);
    }
  }

  /** In every interleaving: a waiting recovery belongs to a live connection or an attach
      whose client is open, it ends exactly when its own answer, its deadline, the end
      of that connection or attach, its client or the server ends it, and a new one
      starts only for a connection that may recover. */
  lemma RecoveriesEndExactly(events: seq<Event>, e: Event, r: nat)
    ensures var s := Run(FRESH, events);
            var t := Step(s, e);
            && (r in s.recoveries ==> Usable(s, s.recoveries[r]) && (r !in t.recoveries <==> Ends(s, e, t, r)))
            && (r in s.recoveries && r in t.recoveries ==> t.recoveries[r] == s.recoveries[r])
            && (r in t.recoveries && r !in s.recoveries ==>
                  && e == RequestRecovery(t.recoveries[r]) && Usable(s, t.recoveries[r])
                  && var k := ClientOf(s, t.recoveries[r]); k in s.clients && !s.clients[k].locallyClosed)
  {
    FreshIsInv();
    RunHolds(FRESH, events);
    var s := Run(FRESH, events);
    hide Run, Inv, Step;
    StepEnds(s, e);
    hide Ends;
  }

  /** A recovery is granted exactly to a live connection whose promotion is not in doubt, or
      to an attach still wanted, of a client that is there and open, while there is room. */
  lemma RecoveryGrantedExactly(s: State, c: nat)
    ensures var t := RecoveryRequested(s, c);
            && (t != s <==>
                  && !s.closing && |s.recoveries| < MAX_RECOVERIES && Usable(s, c)
                  && (c in s.attaching ==> !s.attaching[c].abandoned)
                  && (c !in s.attaching ==> !s.records[c].ownership.PromotionUnknown?)
                  && ClientOf(s, c) in s.clients && !s.clients[ClientOf(s, c)].locallyClosed)
            && (t != s ==> t.recoveries == s.recoveries[s.recoveryOrdinal + 1 := c])
  {}
}
