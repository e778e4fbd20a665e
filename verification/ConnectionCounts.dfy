/** The worker server's bookkeeping of clients: their connection counts, when they leave
    the table, and when a live connection is left without its client. */
module ConnectionCounts {
  import opened Outcomes
  import opened ResidentSessions
  import opened SessionOwnership
  import opened ConnectionHistories

  function Table(s: State, k: nat): set<nat> {
    ConnectionsOf(s.connections, s.records, k)
  }

  /** A disposal completes for a connection that has already left the table: an earlier
      request for it completed while this one's upstream call was in flight. */
  predicate Repeats(s: State, e: Event) {
    e.DisposeEnds? && Completes(s, e, e.connection) && e.connection !in s.connections
  }

  ghost predicate NeverRepeats(s: State, events: seq<Event>)
    decreases |events|
  {
    events == [] || (!Repeats(s, events[0]) && NeverRepeats(Step(s, events[0]), events[1..]))
  }

  /** An attach ends well for a client whose entry is gone. */
  predicate Late(s: State, e: Event) {
    e.AttachEnds? && e.ok && e.connection in s.attaching && !s.attaching[e.connection].abandoned
    && s.attaching[e.connection].client !in s.clients
  }

  function LateAfter(s: State, late: set<nat>, e: Event): set<nat> {
    if Late(s, e) then late + {e.connection} else late
  }

  function LateOf(s: State, late: set<nat>, events: seq<Event>): set<nat>
    decreases |events|
  {
    if events == [] then late
    else LateOf(Step(s, events[0]), LateAfter(s, late, events[0]), events[1..])
  }

  ghost predicate CountsExact(s: State) {
    forall k :: k in s.clients ==> s.clients[k].connectionCount == |Table(s, k)|
  }

  /** A live connection has its client exactly unless it was attached late. */
  ghost predicate ClientsHeld(s: State, late: set<nat>) {
    && (forall c :: Live(s, c) ==> (s.records[c].client in s.clients <==> c !in late))
    && late <= s.records.Keys
  }

  /** Ids are never used twice. */
  ghost predicate IdsOk(s: State) {
    && (forall k :: k in s.clients ==> k <= s.lastClient)
    && (forall c :: c in s.records ==> s.records[c].client <= s.lastClient)
    && (forall c :: c in s.attaching ==> s.attaching[c].client <= s.lastClient && c !in s.records)
    && s.connections <= s.records.Keys
  }

  lemma IdsHold(s: State, p: Past)
    requires Inv(s) && Explained(s, p)
    ensures IdsOk(s)
  {
    hide OwnershipBy, CallsInv, RecoveryInv;
  }

  ghost predicate Counted(s: State, late: set<nat>) {
    CountsExact(s) && ClientsHeld(s, late)
  }

  // ---- Steps ----

  /** Steps that leave the tables alone: nothing enters or leaves them, and nothing becomes live. */
  lemma SameTable(s: State, t: State, late: set<nat>)
    requires Counted(s, late) && t.clients.Keys == s.clients.Keys && t.connections == s.connections && t.records.Keys == s.records.Keys
    requires forall k :: k in s.clients ==> t.clients[k].connectionCount == s.clients[k].connectionCount
    requires forall c :: c in s.records ==> t.records[c].client == s.records[c].client && (s.records[c].disposed ==> t.records[c].disposed)
    ensures Counted(t, late)
  {
    assert forall k :: Table(t, k) == Table(s, k);
    hide ConnectionsOf;
  }

  lemma FailingIsCounted(s: State, late: set<nat>)
    requires Counted(s, late)
    ensures Counted(FailFatal(s), late) && Counted(ShutDown(s), late)
  {
    MarkMoreKeys(s.records, s.connections);
    SameTable(s, FailFatal(s), late);
    SameTable(s, ShutDown(s), late);
    hide Counted;
  }

  lemma CreateIsCounted(s: State, k: nat, late: set<nat>)
    requires IdsOk(s) && Counted(s, late)
    ensures Counted(ClientCreated(s, k), late)
  {
    hide FailFatal, ShutDown, Counted, IdsOk;
    FailingIsCounted(s, late);
    if k == s.lastClient + 1 {
      LaterIsCounted(s, s.(lastClient := k), late);
      FailingIsCounted(s.(lastClient := k), late);
      NewClientIsCounted(s, k, late);
    }
  }

  lemma LaterIsCounted(s: State, t: State, late: set<nat>)
    requires Counted(s, late) && t == s.(lastClient := t.lastClient, lastConnection := t.lastConnection, attaching := t.attaching)
    ensures Counted(t, late)
  {
    SameTable(s, t, late);
    hide Counted;
  }

  lemma NewClientIsCounted(s: State, k: nat, late: set<nat>)
    requires IdsOk(s) && Counted(s, late) && k == s.lastClient + 1
    ensures Counted(s.(lastClient := k, clients := s.clients[k := Client(0, false)]), late)
  {
    var t := s.(lastClient := k, clients := s.clients[k := Client(0, false)]);
    assert forall j :: Table(t, j) == Table(s, j);
    assert Table(s, k) == {};
    hide ConnectionsOf;
  }

  lemma CloseIsCounted(s: State, k: nat, late: set<nat>)
    requires IdsOk(s) && Counted(s, late)
    ensures Counted(ClientClosed(s, k), late)
  {
    var t := ClientClosed(s, k);
    if t != s {
      var gone := Table(s, k);
      RejectLeaves(s, RecoveriesOf(s.recoveries, gone + AttachingOf(s.attaching, k)));
      MarkMoreKeys(s.records, gone);
      hide RejectAll, RecoveriesOf, MarkAbandoned;
      forall j | j != k ensures Table(t, j) == Table(s, j) {}
    }
  }

  lemma AttachBeginIsCounted(s: State, c: nat, k: nat, owned: bool, late: set<nat>)
    requires Counted(s, late)
    ensures Counted(AttachBegun(s, c, k, owned), late)
  {
    hide FailFatal, ShutDown, Counted;
    FailingIsCounted(s, late);
    LaterIsCounted(s, s.(lastConnection := c), late);
    FailingIsCounted(s.(lastConnection := c), late);
    LaterIsCounted(s, s.(lastConnection := c, attaching := s.attaching[c := Attaching(k, if owned then Owned else Resident, false)]), late);
  }

  lemma AttachEndIsCounted(s: State, c: nat, ok: bool, late: set<nat>)
    requires IdsOk(s) && Counted(s, late)
    ensures Counted(AttachEnded(s, c, ok), if Late(s, AttachEnds(c, ok)) then late + {c} else late)
  {
    var t := AttachEnded(s, c, ok);
    if c in s.attaching {
      if !ok || s.attaching[c].abandoned {
        RejectLeaves(s, RecoveriesOf(s.recoveries, {c}));
        hide RejectAll, RecoveriesOf, Counted;
        SameTable(s, t, late);
      } else {
        NewConnectionIsCounted(s, c, late);
      }
    }
  }

  lemma NewConnectionTables(s: State, c: nat)
    requires IdsOk(s) && c in s.attaching && !s.attaching[c].abandoned
    ensures var t, k := AttachEnded(s, c, true), s.attaching[c].client;
            && c !in s.records && t.records == s.records[c := Connection(k, s.attaching[c].ownership, false)] && t.connections == s.connections + {c}
            && t.clients == OneMore(s.clients, k)
            && Table(t, k) == Table(s, k) + {c} && c !in Table(s, k) && forall j :: j != k ==> Table(t, j) == Table(s, j)
  {
    var t, k := AttachEnded(s, c, true), s.attaching[c].client;
    forall j | j != k ensures Table(t, j) == Table(s, j) {}
  }

  lemma NewConnectionIsCounted(s: State, c: nat, late: set<nat>)
    requires IdsOk(s) && Counted(s, late) && c in s.attaching && !s.attaching[c].abandoned
    ensures Counted(AttachEnded(s, c, true), if Late(s, AttachEnds(c, true)) then late + {c} else late)
  {
    hide Table, AttachEnded, Late, IdsOk, OneMore;
    NewConnectionTables(s, c);
    var t, k := AttachEnded(s, c, true), s.attaching[c].client;
    LateIs(s, c);
    assert CountsExact(t) by { NewCounts(s, t, c, k, late); }
    hide CountsExact;
  }

  lemma LateIs(s: State, c: nat)
    requires c in s.attaching && !s.attaching[c].abandoned
    ensures Late(s, AttachEnds(c, true)) <==> s.attaching[c].client !in s.clients
    ensures OneMore(s.clients, s.attaching[c].client).Keys == s.clients.Keys
  {}

  lemma NewCounts(s: State, t: State, c: nat, k: nat, late: set<nat>)
    requires Counted(s, late) && c !in Table(s, k) && Table(t, k) == Table(s, k) + {c} && t.clients == OneMore(s.clients, k)
    requires forall j :: j != k ==> Table(t, j) == Table(s, j)
    ensures CountsExact(t)
  {
    hide Table, ClientsHeld;
    assert |Table(s, k) + {c}| == |Table(s, k)| + 1;
  }

  lemma DoneIsCounted(s: State, c: nat, late: set<nat>)
    requires IdsOk(s) && Counted(s, late) && c in s.connections && c in s.records && s.records[c].disposed
    ensures Counted(DisposeDone(s, c), late)
    ensures var k := s.records[c].client; k in s.clients ==> (k !in DisposeDone(s, c).clients <==> Table(s, k) <= {c})
  {
    var t, k := DisposeDone(s, c), s.records[c].client;
    assert Table(t, k) == Table(s, k) - {c} && c in Table(s, k);
    forall j | j != k ensures Table(t, j) == Table(s, j) {}
    if |Table(s, k)| == 1 {
      assert |Table(s, k) - {c}| == 0;
      assert forall d :: d in s.connections && d in s.records && s.records[d].client == k ==> d in Table(s, k);
    }
    assert Table(s, k) <= {c} ==> Table(s, k) == {c};
    hide ConnectionsOf;
  }

  lemma AbandonIsCounted(s: State, c: nat, late: set<nat>)
    requires IdsOk(s) && Counted(s, late) && c in s.connections && c in s.records
    ensures Counted(AbandonConnection(s, c), late)
  {
    var t, k := AbandonConnection(s, c), s.records[c].client;
    RejectLeaves(s, RecoveriesOf(s.recoveries, {c}));
    hide RejectAll, RecoveriesOf;
    assert Table(t, k) == Table(s, k) - {c} && c in Table(s, k);
    forall j | j != k ensures Table(t, j) == Table(s, j) {}
    hide ConnectionsOf;
  }

  lemma DisposalIsCounted(s: State, c: nat, late: set<nat>)
    requires IdsOk(s) && Counted(s, late)
    ensures Counted(DisposalBegun(s, c), late)
  {
    hide DisposeDone, AbandonConnection, RejectAll, RecoveriesOf, CallAll, IdsOk, Counted;
    if !s.closing && c in s.connections && c in s.records {
      if s.records[c].disposed { DoneIsCounted(s, c, late); }
      else if s.records[c].ownership.Promoting? || s.records[c].ownership.PromotionUnknown? { AbandonIsCounted(s, c, late); }
      else { CalledIsCounted(s, c, late); }
    }
  }

  lemma CalledIsCounted(s: State, c: nat, late: set<nat>)
    requires Counted(s, late) && !s.closing && Live(s, c) && (s.records[c].ownership.Owned? || s.records[c].ownership.Resident?)
    ensures Counted(DisposalBegun(s, c), late)
  {
    RejectLeaves(s, RecoveriesOf(s.recoveries, {c}));
    hide RejectAll, RecoveriesOf, Counted;
    SameTable(s, DisposalBegun(s, c), late);
  }

  lemma EndedIsCounted(s: State, e: Event, late: set<nat>)
    requires IdsOk(s) && Counted(s, late) && (e.DisposeEnds? || e.ClosingDisposeEnds?) && !Repeats(s, e)
    ensures Counted(Step(s, e), late)
  {
    hide DisposeDone, IdsOk, Counted;
    var c := e.connection;
    if e.DisposeEnds? && Completes(s, e, c) { DoneIsCounted(s, c, late); }
    if e.ClosingDisposeEnds? { SameTable(s, Step(s, e), late); }
  }

  lemma OtherIsCounted(s: State, e: Event, late: set<nat>)
    requires Counted(s, late) && (e.PromoteBegins? || e.PromoteEnds? || e.RequestRecovery? || e.RecoveryTimesOut?)
    ensures Counted(Step(s, e), late)
  {
    hide Counted, FailFatal, ShutDown, MayRecover, RejectAll;
    if e.RecoveryTimesOut? { RejectLeaves(s, {e.recovery}); }
    SameTable(s, Step(s, e), late);
  }

  lemma ResponseIsCounted(s: State, r: nat, ok: bool, error: ErrorField, late: set<nat>)
    requires Counted(s, late)
    ensures Counted(RecoveryAnswered(s, r, ok, error), late)
  {
    hide Counted, FailFatal, ShutDown, RejectAll, Malformed;
    RejectLeaves(s, {r});
    var leaked := s.(recoveries := s.recoveries - {r}, leaked := s.leaked + {r});
    SameTable(s, leaked, late);
    FailingIsCounted(leaked, late);
    SameTable(s, RejectAll(s, {r}), late);
  }

  lemma FinishedIsCounted(s: State, late: set<nat>)
    requires Counted(s, late)
    ensures Counted(ClosingFinished(s), late)
  {}

  lemma StepIsCounted(s: State, e: Event, late: set<nat>)
    requires IdsOk(s) && Counted(s, late) && !Repeats(s, e)
    ensures Counted(Step(s, e), LateAfter(s, late, e))
  {
    hide IdsOk, Counted, FailFatal, ShutDown;
    match e
    case CreateClient(k) => CreateIsCounted(s, k, late);
    case CloseClient(k) => CloseIsCounted(s, k, late);
    case AttachBegins(c, k, owned) => AttachBeginIsCounted(s, c, k, owned, late);
    case AttachEnds(c, ok) => AttachEndIsCounted(s, c, ok, late);
    case DisposeBegins(c) => DisposalIsCounted(s, c, late);
    case DisposeEnds(_, _) => EndedIsCounted(s, e, late);
    case ClosingDisposeEnds(_, _) => EndedIsCounted(s, e, late);
    case Shutdown => FailingIsCounted(s, late);
    case Fail => FailingIsCounted(s, late);
    case CloseFinishes => FinishedIsCounted(s, late);
    case RecoveryResponse(r, ok, error) => ResponseIsCounted(s, r, ok, error, late);
    case _ => OtherIsCounted(s, e, late);
  }

  lemma {:induction false} RunIsCounted(s: State, p: Past, late: set<nat>, events: seq<Event>)
    requires Inv(s) && Explained(s, p) && Counted(s, late) && NeverRepeats(s, events)
    ensures Counted(Run(s, events), LateOf(s, late, events))
    decreases |events|
  {
    hide Inv, Explained, Counted, Step, Repeats, LateAfter;
    if events != [] {
      StepKeepsInv(s, events[0]);
      StepIsExplained(s, events[0], p);
      IdsHold(s, p);
      hide IdsOk;
      StepIsCounted(s, events[0], late);
      RunIsCounted(Step(s, events[0]), PastAfter(s, p, events[0]), LateAfter(s, late, events[0]), events[1..]);
    }
  }

  // ---- Results ----

  /** As long as no disposal completes for a connection already gone from the table: every
      client's count is the number of its connections, and a live connection has lost its
      client exactly when its attach ended after the client's entry was gone. */
  lemma LiveConnectionsHaveClients(events: seq<Event>)
    requires NeverRepeats(FRESH, events)
    ensures var s := Run(FRESH, events);
            && (forall k :: k in s.clients ==> s.clients[k].connectionCount == |Table(s, k)|)
            && (forall c :: Live(s, c) ==> (s.records[c].client in s.clients <==> c !in LateOf(FRESH, {}, events)))
  {
    FreshIsInv();
    RunIsCounted(FRESH, NOTHING, {}, events);
    hide Run, Live, Table, LateOf;
  }

  // ---- Two ways to strand a connection ----

  /** One client with these connections, none waiting for anything. */
  function OneClient(count: nat, closed: bool, attaching: map<nat, Attaching>, records: map<nat, Connection>,
                     connections: set<nat>, last: nat, calls: map<nat, Call>): State {
    FRESH.(clients := map[1 := Client(count, closed)], lastClient := 1, attaching := attaching, records := records,
           connections := connections, lastConnection := last, calls := calls)
  }

  const ATTACHING := Attaching(1, Owned, false)
  const ATTACHED := Connection(1, Owned, false)
  const GONE := Connection(1, Owned, true)
  const DISPOSAL := map[1 := Call(Owned, false)]

  /** A client with connection 1 attached and connection 2 attaching. */
  function SecondAttaching(): State {
    OneClient(1, false, map[2 := ATTACHING], map[1 := ATTACHED], {1}, 2, map[])
  }

  function AttachingRun(): seq<Event> {
    [CreateClient(1)] + ([AttachBegins(1, 1, true)] + ([AttachEnds(1, true)] + ([AttachBegins(2, 1, true)] + [])))
  }

  lemma AttachingRuns()
    ensures Run(FRESH, AttachingRun()) == SecondAttaching()
  {
    var s1 := OneClient(0, false, map[], map[], {}, 0, map[]);
    var s2 := OneClient(0, false, map[1 := ATTACHING], map[], {}, 1, map[]);
    var s3 := OneClient(1, false, map[], map[1 := ATTACHED], {1}, 1, map[]);
    AttachingSteps();
    hide Step;
    RunStep(FRESH, CreateClient(1), [AttachBegins(1, 1, true)] + ([AttachEnds(1, true)] + ([AttachBegins(2, 1, true)] + [])));
    RunStep(s1, AttachBegins(1, 1, true), [AttachEnds(1, true)] + ([AttachBegins(2, 1, true)] + []));
    RunStep(s2, AttachEnds(1, true), [AttachBegins(2, 1, true)] + []);
    RunStep(s3, AttachBegins(2, 1, true), []);
  }

  lemma AttachingSteps()
    ensures Step(FRESH, CreateClient(1)) == OneClient(0, false, map[], map[], {}, 0, map[])
    ensures Step(OneClient(0, false, map[], map[], {}, 0, map[]), AttachBegins(1, 1, true))
         == OneClient(0, false, map[1 := ATTACHING], map[], {}, 1, map[])
    ensures Step(OneClient(0, false, map[1 := ATTACHING], map[], {}, 1, map[]), AttachEnds(1, true))
         == OneClient(1, false, map[], map[1 := ATTACHED], {1}, 1, map[])
    ensures Step(OneClient(1, false, map[], map[1 := ATTACHED], {1}, 1, map[]), AttachBegins(2, 1, true)) == SecondAttaching()
  {
    hide FailFatal;
    assert map[1 := ATTACHING] - {1} == map[];
  }

  lemma NoRecoveries(s: State, c: nat)
    requires s.recoveries == map[] && s.settled == {} && s.settledAgain == {}
    ensures RejectAll(s, RecoveriesOf(s.recoveries, {c})) == s
  {
    assert RecoveriesOf(s.recoveries, {c}) == {};
    RejectNone(s);
  }

  lemma DisposingSteps(s: State)
    requires s.recoveries == map[] && s.settled == {} && s.settledAgain == {} && !s.closing && s.calls == map[] && s.repeatedCalls == {}
    requires 1 in s.connections && 1 in s.records && s.records[1] == ATTACHED
    ensures Step(s, DisposeBegins(1)) == s.(records := s.records[1 := GONE], calls := DISPOSAL)
  {
    NoRecoveries(s, 1);
    CallMore(s, {}, 1, false);
    CallNone(s, false);
    assert {} + {1} == {1};
    hide RejectAll, RecoveriesOf, CallAll, DisposeDone, AbandonConnection;
  }

  lemma LateSteps()
    ensures var t1 := OneClient(1, false, map[2 := ATTACHING], map[1 := GONE], {1}, 2, DISPOSAL);
            var t2 := OneClient(1, false, map[2 := ATTACHING], map[1 := GONE], {}, 2, DISPOSAL).(clients := map[]);
            && Step(t1, DisposeEnds(1, true)) == t2
            && Step(t2, AttachEnds(2, true)) == t2.(attaching := map[], records := map[1 := GONE, 2 := ATTACHED], connections := {2})
  {
    hide FailFatal, RejectAll;
    assert {1} - {1} == {} && map[1 := Client(1, false)] - {1} == map[];
    assert map[2 := ATTACHING] - {2} == map[] && map[1 := GONE][2 := ATTACHED] == map[1 := GONE, 2 := ATTACHED];
  }

  lemma RepeatSteps()
    ensures var t0 := OneClient(2, false, map[], map[1 := ATTACHED, 2 := ATTACHED], {1, 2}, 2, map[]);
            Step(SecondAttaching(), AttachEnds(2, true)) == t0
    ensures var t1 := OneClient(2, false, map[], map[1 := GONE, 2 := ATTACHED], {1, 2}, 2, DISPOSAL);
            var t2 := OneClient(1, true, map[], map[1 := GONE, 2 := ATTACHED], {2}, 2, DISPOSAL);
            && Step(t1, DisposeBegins(1)) == t2 && Step(t2, DisposeEnds(1, true)) == t2.(clients := map[])
  {
    hide FailFatal, RejectAll, CallAll, AbandonConnection;
    assert map[2 := ATTACHING] - {2} == map[] && map[1 := ATTACHED][2 := ATTACHED] == map[1 := ATTACHED, 2 := ATTACHED] && {1} + {2} == {1, 2};
    assert OneMore(map[1 := Client(1, false)], 1) == map[1 := Client(2, false)];
    assert {1, 2} - {1} == {2} && map[1 := Client(2, false)][1 := Client(1, true)] == map[1 := Client(1, true)];
    assert {2} - {1} == {2} && map[1 := Client(1, true)] - {1} == map[];
  }

  /** A disposal of a client's last connection that completes while another attach for that
      client runs takes the client away; the attach then leaves a live connection without one. */
  lemma DisposalDuringAttachStrands()
    ensures var t := Run(FRESH, AttachingRun() + ([DisposeBegins(1)] + ([DisposeEnds(1, true)] + ([AttachEnds(2, true)] + []))));
            Live(t, 2) && t.records[2].client == 1 && 1 !in t.clients
  {
    var s := SecondAttaching();
    var t1 := OneClient(1, false, map[2 := ATTACHING], map[1 := GONE], {1}, 2, DISPOSAL);
    var t2 := OneClient(1, false, map[2 := ATTACHING], map[1 := GONE], {}, 2, DISPOSAL).(clients := map[]);
    var t3 := t2.(attaching := map[], records := map[1 := GONE, 2 := ATTACHED], connections := {2});
    AttachingRuns();
    DisposingSteps(s);
    assert s.records[1 := GONE] == t1.records;
    LateSteps();
    hide Step;
    RunConcat(FRESH, AttachingRun(), [DisposeBegins(1)] + ([DisposeEnds(1, true)] + ([AttachEnds(2, true)] + [])));
    RunStep(s, DisposeBegins(1), [DisposeEnds(1, true)] + ([AttachEnds(2, true)] + []));
    RunStep(t1, DisposeEnds(1, true), [AttachEnds(2, true)] + []);
    RunStep(t2, AttachEnds(2, true), []);
  }

  /** A second request to dispose of a connection, made while the first one's upstream call
      runs, completes at once; when the first one completes too, the client of another
      live connection is gone. */
  lemma RepeatedDisposalStrands()
    ensures var t := Run(FRESH, AttachingRun() + ([AttachEnds(2, true)] + ([DisposeBegins(1)] + ([DisposeBegins(1)] + ([DisposeEnds(1, true)] + [])))));
            Live(t, 2) && t.records[2].client == 1 && 1 !in t.clients
  {
    var s := SecondAttaching();
    var t0 := OneClient(2, false, map[], map[1 := ATTACHED, 2 := ATTACHED], {1, 2}, 2, map[]);
    var t1 := OneClient(2, false, map[], map[1 := GONE, 2 := ATTACHED], {1, 2}, 2, DISPOSAL);
    var t2 := OneClient(1, true, map[], map[1 := GONE, 2 := ATTACHED], {2}, 2, DISPOSAL);
    var t3 := t2.(clients := map[]);
    AttachingRuns();
    RepeatSteps();
    DisposingSteps(t0);
    assert t0.records[1 := GONE] == t1.records;
    hide Step;
    RunConcat(FRESH, AttachingRun(), [AttachEnds(2, true)] + ([DisposeBegins(1)] + ([DisposeBegins(1)] + ([DisposeEnds(1, true)] + []))));
    RunStep(s, AttachEnds(2, true), [DisposeBegins(1)] + ([DisposeBegins(1)] + ([DisposeEnds(1, true)] + [])));
    RunStep(t0, DisposeBegins(1), [DisposeBegins(1)] + ([DisposeEnds(1, true)] + []));
    RunStep(t1, DisposeBegins(1), [DisposeEnds(1, true)] + []);
    RunStep(t2, DisposeEnds(1, true), []);
  }

  lemma {:induction false} RunConcat(s: State, first: seq<Event>, second: seq<Event>)
    ensures Run(s, first + second) == Run(Run(s, first), second)
    decreases |first|
  {
    hide Step;
    if first == [] {
      assert first + second == second;
    } else {
      assert (first + second)[1..] == first[1..] + second;
      RunConcat(Step(s, first[0]), first[1..], second);
    }
  }

  // ---- Clients, limits and protocol failures ----

  /** In every interleaving: a client leaves the table when it closes, when the server has
      closed, or when a disposal completes for its last connection; while no disposal
      repeats, exactly then. */
  lemma ClientsLeaveExactly(events: seq<Event>, e: Event, k: nat)
    requires NeverRepeats(FRESH, events) && !Repeats(Run(FRESH, events), e)
    ensures var s := Run(FRESH, events);
            k in s.clients ==>
              (k !in Step(s, e).clients <==>
                || (e == CloseClient(k) && !s.closing) || (e.CloseFinishes? && s.closing)
                || ((e.DisposeBegins? || e.DisposeEnds?) && Completes(s, e, e.connection) && s.records[e.connection].client == k
                    && Table(s, k) <= {e.connection}))
  {
    FreshIsInv();
    RunIsCounted(FRESH, NOTHING, {}, events);
    RunIsExplained(FRESH, NOTHING, events);
    var s := Run(FRESH, events);
    IdsHold(s, PastOf(FRESH, NOTHING, events));
    hide Run, Explained, Inv, PastOf, LateOf, Counted, IdsOk;
    if k in s.clients { ClientLeaves(s, e, k, LateOf(FRESH, {}, events)); }
  }

  lemma ClientLeaves(s: State, e: Event, k: nat, late: set<nat>)
    requires IdsOk(s) && Counted(s, late) && !Repeats(s, e) && k in s.clients
    ensures k !in Step(s, e).clients <==>
              || (e == CloseClient(k) && !s.closing) || (e.CloseFinishes? && s.closing)
              || ((e.DisposeBegins? || e.DisposeEnds?) && Completes(s, e, e.connection) && s.records[e.connection].client == k
                  && Table(s, k) <= {e.connection})
  {
    hide IdsOk, Counted, DisposeDone, AbandonConnection, RejectAll, RecoveriesOf, CallAll, Table, FailFatal, ShutDown, AbandonClient;
    if (e.DisposeBegins? || e.DisposeEnds?) && Completes(s, e, e.connection) {
      DoneIsCounted(s, e.connection, late);
      if s.records[e.connection].client != k { DoneLeaves(s, e.connection, k); }
      CompletionIs(s, e);
      hide Step;
    } else if e.CloseClient? {
      ClosedLeaves(s, e.client, k);
    } else if !e.CloseFinishes? {
      OthersKeepClients(s, e, k);
      hide Step;
    }
  }

  lemma CompletionIs(s: State, e: Event)
    requires (e.DisposeBegins? || e.DisposeEnds?) && Completes(s, e, e.connection)
    ensures Step(s, e) == DisposeDone(s, e.connection)
  {
    hide DisposeDone;
  }

  lemma ClosedLeaves(s: State, c: nat, k: nat)
    requires k in s.clients
    ensures k !in ClientClosed(s, c).clients <==> c == k && !s.closing
  {
    hide RejectAll, RecoveriesOf;
  }

  lemma FailingKeepsClients(s: State)
    ensures FailFatal(s).clients == s.clients && ShutDown(s).clients == s.clients
  {}

  /** No other step takes a client away. */
  lemma OthersKeepClients(s: State, e: Event, k: nat)
    requires k in s.clients && !e.CloseClient? && !e.CloseFinishes?
    requires !((e.DisposeBegins? || e.DisposeEnds?) && Completes(s, e, e.connection))
    ensures k in Step(s, e).clients
  {
    if e.CreateClient? || e.AttachBegins? || e.Shutdown? || e.Fail? || e.RecoveryResponse? { FailuresKeepClients(s, e, k); }
    else { AnswersKeepClients(s, e, k); }
    hide Step, Completes;
  }

  lemma FailuresKeepClients(s: State, e: Event, k: nat)
    requires k in s.clients && (e.CreateClient? || e.AttachBegins? || e.Shutdown? || e.Fail? || e.RecoveryResponse?)
    ensures k in Step(s, e).clients
  {
    hide FailFatal, ShutDown, RejectAll, Malformed;
    FailingKeepsClients(s);
    if e.CreateClient? { FailingKeepsClients(s.(lastClient := e.client)); }
    if e.AttachBegins? { FailingKeepsClients(s.(lastConnection := e.connection)); }
    if e.RecoveryResponse? {
      FailingKeepsClients(s.(recoveries := s.recoveries - {e.recovery}, leaked := s.leaked + {e.recovery}));
      RejectLeaves(s, {e.recovery});
    }
  }

  lemma AnswersKeepClients(s: State, e: Event, k: nat)
    requires k in s.clients && (e.AttachEnds? || e.PromoteBegins? || e.PromoteEnds? || e.DisposeBegins? || e.DisposeEnds?
                                || e.ClosingDisposeEnds? || e.RequestRecovery? || e.RecoveryTimesOut?)
    requires !((e.DisposeBegins? || e.DisposeEnds?) && Completes(s, e, e.connection))
    ensures k in Step(s, e).clients
  {
    hide DisposalBegun, DisposeDone, RejectAll, RecoveriesOf, MayRecover;
    if e.RecoveryTimesOut? { RejectLeaves(s, {e.recovery}); }
    if e.AttachEnds? { RejectLeaves(s, RecoveriesOf(s.recoveries, {e.connection})); }
    if e.DisposeBegins? { DisposalKeepsClients(s, e.connection); }
  }

  lemma DisposalKeepsClients(s: State, c: nat)
    requires !Completes(s, DisposeBegins(c), c)
    ensures s.clients.Keys <= DisposalBegun(s, c).clients.Keys
  {
    hide DisposalBegun;
    if c in s.records && s.records[c].disposed { RepeatedIsIgnored(s, c); } else { CallKeepsClients(s, c); }
  }

  lemma RepeatedIsIgnored(s: State, c: nat)
    requires !Completes(s, DisposeBegins(c), c) && c in s.records && s.records[c].disposed
    ensures DisposalBegun(s, c) == s
  {}

  lemma CallKeepsClients(s: State, c: nat)
    requires !(c in s.records && s.records[c].disposed)
    ensures s.clients.Keys <= DisposalBegun(s, c).clients.Keys
  {
    hide RejectAll, RecoveriesOf;
    RejectLeaves(s, RecoveriesOf(s.recoveries, {c}));
  }

  lemma DoneLeaves(s: State, c: nat, k: nat)
    requires c in s.records && k in s.clients && s.records[c].client != k
    ensures k in DisposeDone(s, c).clients
  {}

  /** The server fails exactly on its own failure, on a client or connection out of order or
      past its limit, and on a recovery response that is not a plain success or a well-formed failure. */
  lemma FailsExactly(s: State, e: Event)
    ensures Step(s, e).fatalSent && !s.fatalSent <==>
              !s.fatalSent &&
              (|| e.Fail?
               || (!s.closing && e.CreateClient? && (e.client != s.lastClient + 1 || |s.clients| >= MAX_CLIENTS))
               || (!s.closing && e.AttachBegins?
                   && (|| e.connection != s.lastConnection + 1
                       || (e.client in s.clients && !s.clients[e.client].locallyClosed
                           && |s.connections| + |s.attaching| >= MAX_CONNECTIONS)))
               || (!s.closing && e.RecoveryResponse? && e.recovery in s.recoveries
                   && !(e.ok && e.error.NoError?) && !(!e.ok && e.error.ValidError?)))
  {
    hide FailFatal, ShutDown, RejectAll;
    if e.CreateClient? || e.AttachBegins? || e.RecoveryResponse? || e.Fail? || e.Shutdown? {
      FailingFails(s);
      if e.CreateClient? { FailingFails(s.(lastClient := e.client)); }
      if e.AttachBegins? { FailingFails(s.(lastConnection := e.connection)); }
      if e.RecoveryResponse? {
        FailingFails(s.(recoveries := s.recoveries - {e.recovery}, leaked := s.leaked + {e.recovery}));
        RejectLeaves(s, {e.recovery});
      }
    } else {
      QuietFlags(s, e);
      hide Step;
    }
  }

  lemma QuietFlags(s: State, e: Event)
    requires !(e.CreateClient? || e.AttachBegins? || e.RecoveryResponse? || e.Fail? || e.Shutdown?)
    ensures Step(s, e).fatalSent == s.fatalSent && Step(s, e).closing == s.closing
  {
    hide RejectAll, RecoveriesOf, CallAll, MayRecover, OneLess, ConnectionsOf, AttachingOf, MarkDisposed, MarkAbandoned;
    if e.RecoveryTimesOut? { RejectLeaves(s, {e.recovery}); }
    if e.AttachEnds? || e.DisposeBegins? { RejectLeaves(s, RecoveriesOf(s.recoveries, {e.connection})); }
    if e.DisposeBegins? { CallLeaves(RejectAll(s, RecoveriesOf(s.recoveries, {e.connection})), {e.connection}, false); }
    if e.CloseClient? {
      RejectLeaves(s, RecoveriesOf(s.recoveries, ConnectionsOf(s.connections, s.records, e.client) + AttachingOf(s.attaching, e.client)));
    }
  }

  lemma CallLeaves(s: State, which: set<nat>, byShutdown: bool)
    ensures var t := CallAll(s, which, byShutdown); t == s.(calls := t.calls, repeatedCalls := t.repeatedCalls)
  {}

  lemma FailingFails(s: State)
    ensures FailFatal(s).fatalSent && (ShutDown(s).fatalSent <==> s.fatalSent)
  {}

  /** An attach starts exactly when its connection is next in order, its client is there and
      open, and there is room; it runs until upstream answers. */
  lemma AttachesExactly(s: State, e: Event, c: nat)
    ensures c !in s.attaching ==>
              (c in Step(s, e).attaching <==>
                && e.AttachBegins? && e.connection == c && !s.closing && c == s.lastConnection + 1
                && e.client in s.clients && !s.clients[e.client].locallyClosed && |s.connections| + |s.attaching| < MAX_CONNECTIONS)
    ensures c in s.attaching ==> (c !in Step(s, e).attaching <==> e.AttachEnds? && e.connection == c)
  {
    hide FailFatal, ShutDown, RejectAll;
    if e.CreateClient? || e.AttachBegins? || e.RecoveryResponse? || e.Fail? || e.Shutdown? {
      FailedTables(s);
      ClosedTables(s);
      if e.CreateClient? { FailedTables(s.(lastClient := e.client)); }
      if e.AttachBegins? { FailedTables(s.(lastConnection := e.connection)); }
      if e.RecoveryResponse? {
        FailedTables(s.(recoveries := s.recoveries - {e.recovery}, leaked := s.leaked + {e.recovery}));
        RejectLeaves(s, {e.recovery});
      }
    } else {
      QuietAttaches(s, e);
      hide Step;
    }
  }

  lemma ClosedTables(s: State)
    ensures ShutDown(s).attaching == s.attaching
  {}

  lemma QuietAttaches(s: State, e: Event)
    requires !(e.CreateClient? || e.AttachBegins? || e.RecoveryResponse? || e.Fail? || e.Shutdown?)
    ensures Step(s, e).attaching.Keys == if e.AttachEnds? then s.attaching.Keys - {e.connection} else s.attaching.Keys
  {
    hide RejectAll, RecoveriesOf, CallAll, MayRecover, OneLess, ConnectionsOf, AttachingOf, MarkDisposed;
    if e.RecoveryTimesOut? { RejectLeaves(s, {e.recovery}); }
    if e.AttachEnds? || e.DisposeBegins? { RejectLeaves(s, RecoveriesOf(s.recoveries, {e.connection})); }
    if e.DisposeBegins? { CallLeaves(RejectAll(s, RecoveriesOf(s.recoveries, {e.connection})), {e.connection}, false); }
    if e.CloseClient? {
      RejectLeaves(s, RecoveriesOf(s.recoveries, ConnectionsOf(s.connections, s.records, e.client) + AttachingOf(s.attaching, e.client)));
    }
  }

  lemma ResourcesClosed(s: State, c: nat)
    requires Inv(s)
    ensures var t := CloseResources(s);
            && !Live(t, c)
            && (c in t.calls <==> c in s.calls || (Live(s, c) && s.records[c].ownership.Resident?))
            && (c in t.calls && c !in s.calls ==> t.calls[c] == Call(Resident, true))
            && (c in s.calls ==> t.calls[c] == s.calls[c])
  {
    assert c in s.calls ==> c in s.records && s.records[c].disposed by { hide TableInv, RecoveryInv; }
    RejectLeaves(s, s.recoveries.Keys);
    hide Inv, RejectAll;
  }

  lemma FailingCloses(s: State, later: State, c: nat)
    requires Inv(s) && later == s.(lastClient := later.lastClient, lastConnection := later.lastConnection, recoveries := later.recoveries, leaked := later.leaked)
    ensures var t := FailFatal(later);
            && t.fatalSent && (s.fatalSent ==> t == later)
            && (!s.fatalSent ==>
                  && !Live(t, c)
                  && (c in t.calls <==> c in s.calls || (Live(s, c) && s.records[c].ownership.Resident?))
                  && (c in t.calls && c !in s.calls ==> t.calls[c] == Call(Resident, true))
                  && (c in s.calls ==> t.calls[c] == s.calls[c]))
  {
    ResourcesClosed(s, c);
    assert c in s.calls ==> c in s.records && s.records[c].disposed by { hide TableInv, RecoveryInv; }
    hide Inv;
  }

  /** What a step does to one connection and to the upstream disposals of it. */
  ghost predicate LifeStep(s: State, e: Event, t: State, c: nat) {
    var closes := (t.closing && !s.closing) || (t.fatalSent && !s.fatalSent);
    && (!Live(s, c) ==> (Live(t, c) <==> e == AttachEnds(c, true) && c in s.attaching && !s.attaching[c].abandoned))
    && (Live(s, c) ==>
          (!Live(t, c) <==>
            || closes || (e.CloseFinishes? && s.closing) || (e == DisposeBegins(c) && !s.closing)
            || (e.CloseClient? && e.client == s.records[c].client && !s.closing && e.client in s.clients)))
    && (c in s.calls ==> c in t.calls && t.calls[c] == s.calls[c])
    && (c !in s.calls ==>
          (c in t.calls <==>
            || (closes && Live(s, c) && s.records[c].ownership.Resident?)
            || (e == DisposeBegins(c) && !s.closing && Live(s, c) && (s.records[c].ownership.Resident? || s.records[c].ownership.Owned?))))
    && (c !in s.calls && c in t.calls ==> t.calls[c] == Call(s.records[c].ownership, closes))
  }

  /** A step that leaves connections and calls alone. */
  lemma SameLives(s: State, e: Event, t: State, c: nat)
    requires t.connections == s.connections && t.calls == s.calls && t.closing == s.closing && t.fatalSent == s.fatalSent
    requires t.records.Keys == s.records.Keys && forall d :: d in s.records ==> t.records[d].disposed == s.records[d].disposed
    requires !e.AttachEnds? && !e.DisposeBegins? && !e.CloseClient? && (e.CloseFinishes? ==> !s.closing)
    ensures LifeStep(s, e, t, c)
  {}

  /** A step that fails the server, after noting what it was about. */
  lemma FailedLives(s: State, e: Event, later: State, c: nat)
    requires Inv(s) && later == s.(lastClient := later.lastClient, lastConnection := later.lastConnection, recoveries := later.recoveries, leaked := later.leaked)
    requires e.CreateClient? || e.AttachBegins? || e.RecoveryResponse? || e.Fail?
    ensures LifeStep(s, e, FailFatal(later), c)
  {
    hide Inv, FailFatal;
    FailingCloses(s, later, c);
    if s.fatalSent { SameLives(s, e, later, c); }
  }

  lemma FailureLives(s: State, e: Event, c: nat)
    requires Inv(s) && (e.CreateClient? || e.AttachBegins? || e.RecoveryResponse? || e.Fail? || e.Shutdown?)
    ensures LifeStep(s, e, Step(s, e), c)
  {
    hide Inv, FailFatal, ShutDown, RejectAll, LifeStep;
    match e
    case CreateClient(k) =>
      FailedLives(s, e, s, c);
      FailedLives(s, e, s.(lastClient := k), c);
      if Step(s, e) != FailFatal(s) && Step(s, e) != FailFatal(s.(lastClient := k)) { SameLives(s, e, Step(s, e), c); }
    case AttachBegins(d, k, owned) =>
      FailedLives(s, e, s, c);
      FailedLives(s, e, s.(lastConnection := d), c);
      AttachCases(s, d, k, owned);
      if Step(s, e) != FailFatal(s) && Step(s, e) != FailFatal(s.(lastConnection := d)) { SameLives(s, e, AttachBegun(s, d, k, owned), c); }
    case RecoveryResponse(r, ok, error) =>
      var leaked := s.(recoveries := s.recoveries - {r}, leaked := s.leaked + {r});
      FailedLives(s, e, leaked, c);
      RejectLeaves(s, {r});
      if Step(s, e) != FailFatal(leaked) { SameLives(s, e, Step(s, e), c); }
    case Fail => FailedLives(s, e, s, c);
    case Shutdown => if s.closing { ShutIsShut(s); SameLives(s, e, s, c); } else { ShuttingCloses(s, c); }
  }

  lemma ShutIsShut(s: State)
    requires s.closing
    ensures ShutDown(s) == s
  {}

  lemma ShuttingCloses(s: State, c: nat)
    requires Inv(s) && !s.closing
    ensures LifeStep(s, Shutdown, ShutDown(s), c)
  {
    ResourcesClosed(s, c);
    assert !s.fatalSent by { ClosingMode(s); }
    assert c in s.calls ==> c in s.records && s.records[c].disposed by { hide TableInv, RecoveryInv; }
    hide Inv;
  }

  lemma DisposalLives(s: State, d: nat, c: nat)
    requires Inv(s)
    ensures LifeStep(s, DisposeBegins(d), DisposalBegun(s, d), c)
  {
    assert c in s.calls ==> c in s.records && s.records[c].disposed by { hide TableInv, RecoveryInv; }
    RejectLeaves(s, RecoveriesOf(s.recoveries, {d}));
    hide Inv, RejectAll, RecoveriesOf, OneLess;
  }

  lemma AttachEndLives(s: State, d: nat, ok: bool, c: nat)
    requires Inv(s)
    ensures LifeStep(s, AttachEnds(d, ok), AttachEnded(s, d, ok), c)
  {
    assert d in s.attaching ==> d !in s.records by { hide CallsInv, RecoveryInv; }
    RejectLeaves(s, RecoveriesOf(s.recoveries, {d}));
    hide Inv, RejectAll, RecoveriesOf, OneMore;
  }

  lemma CloseClientLives(s: State, k: nat, c: nat)
    ensures LifeStep(s, CloseClient(k), ClientClosed(s, k), c)
  {
    RejectLeaves(s, RecoveriesOf(s.recoveries, ConnectionsOf(s.connections, s.records, k) + AttachingOf(s.attaching, k)));
    hide RejectAll, RecoveriesOf, AttachingOf, MarkAbandoned;
  }

  lemma DoneLives(s: State, e: Event, c: nat)
    requires e.DisposeEnds? || e.ClosingDisposeEnds? || e.CloseFinishes?
    ensures LifeStep(s, e, Step(s, e), c)
  {
    hide OneLess;
  }

  lemma OtherLives(s: State, e: Event, c: nat)
    requires e.PromoteBegins? || e.PromoteEnds? || e.RequestRecovery? || e.RecoveryTimesOut?
    ensures LifeStep(s, e, Step(s, e), c)
  {
    hide RejectAll, MayRecover, LifeStep;
    if e.RecoveryTimesOut? { RejectLeaves(s, {e.recovery}); }
    SameLives(s, e, Step(s, e), c);
  }

  /** In every interleaving: a connection becomes live exactly when its attach ends well and
      was not abandoned, and stops being live exactly when its disposal is asked for, its
      client closes, or the server closes. Upstream disposal is called exactly for a
      disposal asked for a live connection that is owned or resident, in that ownership,
      and, when the server closes, for every live resident one. */
  lemma ConnectionsLiveExactly(events: seq<Event>, e: Event, c: nat)
    ensures var s := Run(FRESH, events); LifeStep(s, e, Step(s, e), c)
  {
    FreshIsInv();
    RunKeepsInv(FRESH, events);
    var s := Run(FRESH, events);
    hide Run, Inv, LifeStep;
    if e.CreateClient? || e.AttachBegins? || e.RecoveryResponse? || e.Fail? || e.Shutdown? { FailureLives(s, e, c); }
    else if e.DisposeBegins? { DisposalLives(s, e.connection, c); hide DisposalBegun; }
    else if e.AttachEnds? { AttachEndLives(s, e.connection, e.ok, c); hide AttachEnded; }
    else if e.CloseClient? { CloseClientLives(s, e.client, c); hide ClientClosed; }
    else if e.DisposeEnds? || e.ClosingDisposeEnds? || e.CloseFinishes? { DoneLives(s, e, c); }
    else { OtherLives(s, e, c); }
  }

  /** The tables stay within their limits. */
  ghost predicate WithinLimits(s: State) {
    |s.clients| <= MAX_CLIENTS && |s.recoveries| <= MAX_RECOVERIES && |s.connections| + |s.attaching| <= MAX_CONNECTIONS
  }

  lemma Smaller<T>(a: set<T>, b: set<T>)
    requires a <= b
    ensures |a| <= |b|
  {
    assert b == a + (b - a);
  }

  /** The tables hold no more than before. */
  ghost predicate Shrinks(s: State, t: State) {
    && t.clients.Keys <= s.clients.Keys && t.recoveries.Keys <= s.recoveries.Keys
    && t.connections <= s.connections && t.attaching.Keys <= s.attaching.Keys
  }

  lemma ShrinkingKeepsLimits(s: State, t: State)
    requires WithinLimits(s) && Shrinks(s, t)
    ensures WithinLimits(t)
  {
    Smaller(t.clients.Keys, s.clients.Keys);
    Smaller(t.recoveries.Keys, s.recoveries.Keys);
    Smaller(t.connections, s.connections);
    Smaller(t.attaching.Keys, s.attaching.Keys);
    assert |t.clients| == |t.clients.Keys| && |s.clients| == |s.clients.Keys|;
    assert |t.recoveries| == |t.recoveries.Keys| && |s.recoveries| == |s.recoveries.Keys|;
    assert |t.attaching| == |t.attaching.Keys| && |s.attaching| == |s.attaching.Keys|;
  }

  lemma FailingKeepsLimits(s: State, later: State)
    requires WithinLimits(s) && Shrinks(s, later)
    ensures WithinLimits(FailFatal(later)) && WithinLimits(ShutDown(later)) && WithinLimits(later)
  {
    assert Shrinks(s, FailFatal(later)) && Shrinks(s, ShutDown(later));
    hide FailFatal, ShutDown, WithinLimits, Shrinks;
    ShrinkingKeepsLimits(s, FailFatal(later));
    ShrinkingKeepsLimits(s, ShutDown(later));
    ShrinkingKeepsLimits(s, later);
  }

  lemma CreateKeepsLimits(s: State, k: nat)
    requires WithinLimits(s)
    ensures WithinLimits(ClientCreated(s, k))
  {
    hide FailFatal, ShutDown, WithinLimits;
    FailingKeepsLimits(s, s);
    FailingKeepsLimits(s, s.(lastClient := k));
    if |s.clients| < MAX_CLIENTS { OneMoreClient(s, k); }
  }

  lemma ResponseKeepsLimits(s: State, r: nat, ok: bool, error: ErrorField)
    requires WithinLimits(s)
    ensures WithinLimits(RecoveryAnswered(s, r, ok, error))
  {
    assert Shrinks(s, RejectAll(s, {r}));
    hide FailFatal, ShutDown, WithinLimits, RejectAll;
    FailingKeepsLimits(s, s.(recoveries := s.recoveries - {r}, leaked := s.leaked + {r}));
    ShrinkingKeepsLimits(s, RejectAll(s, {r}));
  }

  lemma OneMoreClient(s: State, k: nat)
    requires WithinLimits(s) && |s.clients| < MAX_CLIENTS
    ensures WithinLimits(s.(lastClient := k, clients := s.clients[k := Client(0, false)]))
  {
    var t := s.clients[k := Client(0, false)];
    assert t.Keys == s.clients.Keys + {k} && |t| == |t.Keys| && |s.clients| == |s.clients.Keys|;
  }

  lemma AttachKeepsLimits(s: State, c: nat, k: nat, owned: bool)
    requires WithinLimits(s)
    ensures WithinLimits(AttachBegun(s, c, k, owned))
  {
    hide FailFatal, ShutDown, WithinLimits;
    FailingKeepsLimits(s, s);
    FailingKeepsLimits(s, s.(lastConnection := c));
    if |s.connections| + |s.attaching| < MAX_CONNECTIONS { OneMoreAttach(s, c, Attaching(k, if owned then Owned else Resident, false)); }
  }

  lemma OneMoreAttach(s: State, c: nat, a: Attaching)
    requires WithinLimits(s) && |s.connections| + |s.attaching| < MAX_CONNECTIONS
    ensures WithinLimits(s.(lastConnection := c, attaching := s.attaching[c := a]))
  {
    var t := s.attaching[c := a];
    assert t.Keys == s.attaching.Keys + {c} && |t| == |t.Keys| && |s.attaching| == |s.attaching.Keys|;
  }

  lemma AttachEndKeepsLimits(s: State, c: nat, ok: bool)
    requires WithinLimits(s)
    ensures WithinLimits(AttachEnded(s, c, ok))
  {
    var t := AttachEnded(s, c, ok);
    if c in s.attaching && !(!ok || s.attaching[c].abandoned) {
      assert t.attaching.Keys == s.attaching.Keys - {c} && |t.attaching| == |t.attaching.Keys| && |s.attaching| == |s.attaching.Keys|;
      assert |s.attaching.Keys| == |s.attaching.Keys - {c}| + 1;
      assert OneMore(s.clients, s.attaching[c].client).Keys == s.clients.Keys && |t.clients| == |t.clients.Keys| && |s.clients| == |s.clients.Keys|;
    } else if c in s.attaching {
      RejectedAre(s, {c});
      RejectLeaves(s, RecoveriesOf(s.recoveries, {c}));
      hide RejectAll, RecoveriesOf, WithinLimits;
      ShrinkingKeepsLimits(s, t);
    }
  }

  lemma RequestKeepsLimits(s: State, c: nat)
    requires WithinLimits(s)
    ensures WithinLimits(RecoveryRequested(s, c))
  {
    var t := RecoveryRequested(s, c);
    if t != s { assert t.recoveries.Keys == s.recoveries.Keys + {s.recoveryOrdinal + 1} && |t.recoveries| == |t.recoveries.Keys| && |s.recoveries| == |s.recoveries.Keys|; }
  }

  lemma DisposalShrinks(s: State, c: nat)
    requires c in s.records
    ensures Shrinks(s, DisposeDone(s, c)) && Shrinks(s, AbandonConnection(s, c))
  {
    RejectedAre(s, {c});
    RejectLeaves(s, RecoveriesOf(s.recoveries, {c}));
    hide RejectAll, RecoveriesOf, OneLess;
  }

  lemma CallShrinks(s: State, c: nat)
    ensures var t := RejectAll(s, RecoveriesOf(s.recoveries, {c})); Shrinks(s, CallAll(t, {c}, false))
  {
    var t := RejectAll(s, RecoveriesOf(s.recoveries, {c}));
    RejectedAre(s, {c});
    RejectLeaves(s, RecoveriesOf(s.recoveries, {c}));
    CallLeaves(t, {c}, false);
    hide RejectAll, RecoveriesOf, CallAll;
  }

  lemma DisposalKeepsLimits(s: State, c: nat)
    requires WithinLimits(s)
    ensures WithinLimits(DisposalBegun(s, c))
  {
    CallShrinks(s, c);
    if c in s.records { DisposalShrinks(s, c); }
    assert Shrinks(s, s);
    var t := DisposalBegun(s, c);
    hide WithinLimits, RejectAll, RecoveriesOf, CallAll, DisposeDone, AbandonConnection;
    assert Shrinks(s, t);
    hide DisposalBegun;
    ShrinkingKeepsLimits(s, t);
  }

  lemma CloseKeepsLimits(s: State, k: nat)
    requires WithinLimits(s)
    ensures WithinLimits(ClientClosed(s, k))
  {
    var of := ConnectionsOf(s.connections, s.records, k) + AttachingOf(s.attaching, k);
    RejectedAre(s, of);
    RejectLeaves(s, RecoveriesOf(s.recoveries, of));
    hide WithinLimits, RejectAll, RecoveriesOf, ConnectionsOf, AttachingOf, MarkDisposed;
    assert Shrinks(s, ClientClosed(s, k));
    ShrinkingKeepsLimits(s, ClientClosed(s, k));
  }

  lemma OtherKeepsLimits(s: State, e: Event)
    requires WithinLimits(s)
    requires e.PromoteBegins? || e.PromoteEnds? || e.DisposeEnds? || e.ClosingDisposeEnds? || e.RecoveryTimesOut? || e.CloseFinishes?
    ensures WithinLimits(Step(s, e))
  {
    hide WithinLimits, OneLess;
    if e.RecoveryTimesOut? { assert Shrinks(s, RejectAll(s, {e.recovery})); }
    hide RejectAll;
    ShrinkingKeepsLimits(s, Step(s, e));
  }

  /** In every interleaving the tables of clients, connections and recoveries stay within their limits. */
  lemma {:induction false} RunKeepsLimits(s: State, events: seq<Event>)
    requires WithinLimits(s)
    ensures WithinLimits(Run(s, events))
    decreases |events|
  {
    hide WithinLimits, Step;
    if events != [] {
      StepKeepsLimits(s, events[0]);
      RunKeepsLimits(Step(s, events[0]), events[1..]);
    }
  }

  lemma StepKeepsLimits(s: State, e: Event)
    requires WithinLimits(s)
    ensures WithinLimits(Step(s, e))
  {
    hide WithinLimits;
    match e
    case AttachEnds(c, ok) => AttachEndKeepsLimits(s, c, ok); hide AttachEnded;
    case RequestRecovery(c) => RequestKeepsLimits(s, c); hide RecoveryRequested;
    case DisposeBegins(c) => DisposalKeepsLimits(s, c); hide DisposalBegun;
    case CloseClient(k) => CloseKeepsLimits(s, k); hide ClientClosed;
    case CreateClient(k) => CreateKeepsLimits(s, k); hide ClientCreated;
    case AttachBegins(c, k, owned) => AttachKeepsLimits(s, c, k, owned); hide AttachBegun;
    case RecoveryResponse(r, ok, error) => ResponseKeepsLimits(s, r, ok, error); hide RecoveryAnswered;
    case Fail => FailingKeepsLimits(s, s); hide FailFatal;
    case Shutdown => FailingKeepsLimits(s, s); hide ShutDown;
    case _ => OtherKeepsLimits(s, e); hide Step;
  }
}
