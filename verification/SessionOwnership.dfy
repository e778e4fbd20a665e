/** The worker server's connections: who may dispose of an upstream session, and
    how recovery promises end. Every method is one stretch of the server's code
    without an await, so any order of method calls is one interleaving. */
module SessionOwnership {
  import opened Outcomes
  import opened ResidentSessions

  const MAX_CLIENTS := 1_024
  const MAX_CONNECTIONS := 1_024
  const MAX_RECOVERIES := 1_024

  datatype Client = Client(connectionCount: nat, locallyClosed: bool)

  datatype Attaching = Attaching(client: nat, ownership: Ownership, abandoned: bool)

  /** A connection record; it outlives its entry in the connection table while calls on it are in flight. */
  datatype Connection = Connection(client: nat, ownership: Ownership, disposed: bool)

  /** An upstream disposal: in which ownership, and on whose behalf. */
  datatype Call = Call(ownership: Ownership, byShutdown: bool)

  /** The last fields are history: the upstream disposal of each connection and the
      connections disposed of again; recovery promises settled, settled again, and
      dropped without a settlement. */
  datatype State = State(
    clients: map<nat, Client>, attaching: map<nat, Attaching>, records: map<nat, Connection>, connections: set<nat>,
    recoveries: map<nat, nat>, lastClient: nat, lastConnection: nat, recoveryOrdinal: nat, closing: bool, fatalSent: bool,
    calls: map<nat, Call>, repeatedCalls: set<nat>, settled: set<nat>, settledAgain: set<nat>, leaked: set<nat>)

  const FRESH := State(map[], map[], map[], {}, map[], 0, 0, 0, false, false, map[], {}, {}, {}, {})

  datatype Event =
    | CreateClient(client: nat)
    | CloseClient(client: nat)
    | AttachBegins(connection: nat, client: nat, owned: bool)
    | AttachEnds(connection: nat, ok: bool)
    | PromoteBegins(connection: nat)
    | PromoteEnds(connection: nat, ok: bool)
    | DisposeBegins(connection: nat)
    | DisposeEnds(connection: nat, ok: bool)
    | ClosingDisposeEnds(connection: nat, ok: bool)
    | RequestRecovery(connection: nat)
    | RecoveryTimesOut(recovery: nat)
    | RecoveryResponse(recovery: nat, ok: bool, error: ErrorField)
    | Shutdown
    | Fail
    | CloseFinishes

  /** The error a recovery response carries: none, a well-formed one, or something else. */
  datatype ErrorField = NoError | ValidError | InvalidError

  // ---- Specification of each step ----

  function RejectAll(s: State, which: set<nat>): (t: State)
    ensures t.leaked == s.leaked
  {
    s.(recoveries := s.recoveries - which, settled := s.settled + which, settledAgain := s.settledAgain + which * s.settled)
  }

  /** The connections in `which` are disposed of upstream, each in its current ownership. */
  function CallAll(s: State, which: set<nat>, byShutdown: bool): (t: State)
    ensures t.leaked == s.leaked
  {
    s.(calls := s.calls + map c | c in which && c in s.records :: Call(s.records[c].ownership, byShutdown),
       repeatedCalls := s.repeatedCalls + which * s.calls.Keys)
  }

  /** The recoveries waiting for one of the connections. */
  function RecoveriesOf(recoveries: map<nat, nat>, of: set<nat>): set<nat> {
    set r | r in recoveries && recoveries[r] in of
  }

  /** A client's table entry after one of its connections is gone. */
  function OneLess(c: Client): Client { c.(connectionCount := if c.connectionCount > 0 then c.connectionCount - 1 else 0) }

  /** The connections of one client, or all of them. */
  function ConnectionsOf(connections: set<nat>, records: map<nat, Connection>, client: nat): set<nat> {
    set c | c in connections && c in records && records[c].client == client
  }

  function AttachingOf(attaching: map<nat, Attaching>, client: nat): set<nat> {
    set c | c in attaching && attaching[c].client == client
  }

  function MarkDisposed(records: map<nat, Connection>, which: set<nat>): map<nat, Connection> {
    map c | c in records :: if c in which then records[c].(disposed := true) else records[c]
  }

  function MarkAbandoned(attaching: map<nat, Attaching>, which: set<nat>): map<nat, Attaching> {
    map c | c in attaching :: if c in which then attaching[c].(abandoned := true) else attaching[c]
  }

  /** A client closes: its attaches are abandoned, its connections dropped without any upstream disposal. */
  function AbandonClient(s: State, client: nat): (t: State)
    ensures t.leaked == s.leaked
  {
    var gone := ConnectionsOf(s.connections, s.records, client);
    var abandoned := AttachingOf(s.attaching, client);
    RejectAll(s, RecoveriesOf(s.recoveries, gone + abandoned)).(attaching := MarkAbandoned(s.attaching, abandoned), records := MarkDisposed(s.records, gone),
                            connections := s.connections - gone, clients := s.clients - {client})
  }

  function AbandonConnection(s: State, c: nat): (t: State)
    requires c in s.records
    ensures t.leaked == s.leaked
  {
    var r := s.records[c];
    RejectAll(s, RecoveriesOf(s.recoveries, {c})).(
      records := s.records[c := r.(disposed := true)], connections := s.connections - {c},
      clients := if r.client in s.clients then s.clients[r.client := OneLess(s.clients[r.client])] else s.clients)
  }

  /** A disposal that returned: the connection leaves the table, and its client with the last one. */
  function DisposeDone(s: State, c: nat): (t: State)
    requires c in s.records
    ensures t.leaked == s.leaked
  {
    var k := s.records[c].client;
    s.(connections := s.connections - {c},
       clients := if k !in s.clients then s.clients
                  else
                    var left := OneLess(s.clients[k]).(locallyClosed := true);
                    if left.connectionCount == 0 then s.clients - {k} else s.clients[k := left])
  }

  function ResidentOf(connections: set<nat>, records: map<nat, Connection>): set<nat> {
    set c | c in connections && c in records && !records[c].disposed && records[c].ownership.Resident?
  }

  /** The await-free part of closing: recoveries rejected, resident sessions disposed, owned ones only fenced. */
  function CloseResources(s: State): (t: State)
    ensures t.leaked == s.leaked
  {
    CallAll(RejectAll(s, s.recoveries.Keys), ResidentOf(s.connections, s.records), true).(records := MarkDisposed(s.records, s.connections))
  }

  function FailFatal(s: State): (t: State)
    ensures t.leaked == s.leaked
  {
    if s.fatalSent then s else CloseResources(s.(fatalSent := true, closing := true))
  }

  /** A response that breaks the protocol: success with an error, or failure without a well-formed one. */
  predicate Malformed(ok: bool, error: ErrorField) {
    if ok then !error.NoError? else !error.ValidError?
  }

  /** Recovery needs a live connection or attach whose promotion is not in doubt. */
  predicate MayRecover(s: State, c: nat) {
    && !s.closing
    && (c in s.attaching || (c in s.connections && c in s.records && !s.records[c].disposed && !s.records[c].ownership.PromotionUnknown?))
    && (c in s.attaching ==> !s.attaching[c].abandoned)
    && (var k := if c in s.attaching then s.attaching[c].client else s.records[c].client;
        k in s.clients && !s.clients[k].locallyClosed)
    && |s.recoveries| < MAX_RECOVERIES
  }

  predicate Live(s: State, c: nat) { c in s.connections && c in s.records && !s.records[c].disposed }

  function ClientCreated(s: State, k: nat): State {
    if s.closing then s
    else if k != s.lastClient + 1 then FailFatal(s)
    else if |s.clients| >= MAX_CLIENTS then FailFatal(s.(lastClient := k))
    else s.(lastClient := k, clients := s.clients[k := Client(0, false)])
  }

  function ClientClosed(s: State, k: nat): State {
    if s.closing || k !in s.clients then s else AbandonClient(s, k)
  }

  function AttachBegun(s: State, c: nat, k: nat, owned: bool): State {
    if s.closing then s
    else if c != s.lastConnection + 1 then FailFatal(s)
    else if k !in s.clients || s.clients[k].locallyClosed then s.(lastConnection := c)
    else if |s.connections| + |s.attaching| >= MAX_CONNECTIONS then FailFatal(s.(lastConnection := c))
    else s.(lastConnection := c, attaching := s.attaching[c := Attaching(k, if owned then Owned else Resident, false)])
  }

  function OneMore(clients: map<nat, Client>, k: nat): map<nat, Client> {
    if k in clients then clients[k := clients[k].(connectionCount := clients[k].connectionCount + 1)] else clients
  }

  function AttachEnded(s: State, c: nat, ok: bool): State {
    if c !in s.attaching then s
    else if !ok || s.attaching[c].abandoned then
      RejectAll(s, RecoveriesOf(s.recoveries, {c})).(attaching := s.attaching - {c})
    else
      var a := s.attaching[c];
      s.(attaching := s.attaching - {c}, records := s.records[c := Connection(a.client, a.ownership, false)],
         connections := s.connections + {c}, clients := OneMore(s.clients, a.client))
  }

  function PromotionBegun(s: State, c: nat): State {
    if s.closing || !Live(s, c) || !s.records[c].ownership.Owned? then s
    else s.(records := s.records[c := s.records[c].(ownership := Promoting)])
  }

  function PromotionEnded(s: State, c: nat, ok: bool): State {
    if c !in s.records || !s.records[c].ownership.Promoting? then s
    else s.(records := s.records[c := s.records[c].(ownership := if ok then Resident else PromotionUnknown)])
  }

  function DisposalBegun(s: State, c: nat): State {
    if s.closing || c !in s.connections || c !in s.records then s
    else if s.records[c].disposed then DisposeDone(s, c)
    else if s.records[c].ownership.Promoting? || s.records[c].ownership.PromotionUnknown? then AbandonConnection(s, c)
    else CallAll(RejectAll(s, RecoveriesOf(s.recoveries, {c})), {c}, false).(
           records := s.records[c := s.records[c].(disposed := true)])
  }

  /** The upstream disposal of a request returns. */
  function DisposalEnded(s: State, c: nat, ok: bool): State {
    if c !in s.records || !s.records[c].disposed || c !in s.calls || s.calls[c].byShutdown || !ok then s
    else DisposeDone(s, c)
  }

  /** An upstream disposal made by shutdown returns: only its client is marked. */
  function ClosingDisposalEnded(s: State, c: nat, ok: bool): State {
    if c !in s.records || c !in s.calls || !s.calls[c].byShutdown || !ok then s
    else
      var k := s.records[c].client;
      s.(clients := if k in s.clients then s.clients[k := s.clients[k].(locallyClosed := true)] else s.clients)
  }

  function RecoveryRequested(s: State, c: nat): State {
    if !MayRecover(s, c) then s
    else s.(recoveryOrdinal := s.recoveryOrdinal + 1, recoveries := s.recoveries[s.recoveryOrdinal + 1 := c])
  }

  function RecoveryExpired(s: State, r: nat): State {
    if r in s.recoveries then RejectAll(s, {r}) else s
  }

  function RecoveryAnswered(s: State, r: nat, ok: bool, error: ErrorField): State {
    if s.closing || r !in s.recoveries then s
    else if Malformed(ok, error) then FailFatal(s.(recoveries := s.recoveries - {r}, leaked := s.leaked + {r}))
    else RejectAll(s, {r})
  }

  function ShutDown(s: State): State {
    if s.closing then s else CloseResources(s.(closing := true))
  }

  function ClosingFinished(s: State): State {
    if s.closing then s.(connections := {}, clients := map[]) else s
  }

  function Step(s: State, e: Event): State {
    match e
    case CreateClient(k) => ClientCreated(s, k)
    case CloseClient(k) => ClientClosed(s, k)
    case AttachBegins(c, k, owned) => AttachBegun(s, c, k, owned)
    case AttachEnds(c, ok) => AttachEnded(s, c, ok)
    case PromoteBegins(c) => PromotionBegun(s, c)
    case PromoteEnds(c, ok) => PromotionEnded(s, c, ok)
    case DisposeBegins(c) => DisposalBegun(s, c)
    case DisposeEnds(c, ok) => DisposalEnded(s, c, ok)
    case ClosingDisposeEnds(c, ok) => ClosingDisposalEnded(s, c, ok)
    case RequestRecovery(c) => RecoveryRequested(s, c)
    case RecoveryTimesOut(r) => RecoveryExpired(s, r)
    case RecoveryResponse(r, ok, error) => RecoveryAnswered(s, r, ok, error)
    case Shutdown => ShutDown(s)
    case Fail => FailFatal(s)
    case CloseFinishes => ClosingFinished(s)
  }

  function Run(s: State, events: seq<Event>): State
    decreases |events|
  {
    if events == [] then s else Run(Step(s, events[0]), events[1..])
  }

  // ---- One element at a time ----

  lemma RejectMore(s: State, done: set<nat>, r: nat)
    requires r !in done
    ensures var t := RejectAll(s, done);
            RejectAll(s, done + {r}) == t.(recoveries := t.recoveries - {r}, settled := t.settled + {r},
                                          settledAgain := t.settledAgain + {r} * t.settled)
  {
    assert s.recoveries - (done + {r}) == (s.recoveries - done) - {r};
    assert s.settledAgain + (done + {r}) * s.settled == (s.settledAgain + done * s.settled) + {r} * (s.settled + done);
    assert s.settled + (done + {r}) == (s.settled + done) + {r};
  }

  lemma RejectNone(s: State)
    ensures RejectAll(s, {}) == s
  {
    assert s.recoveries - {} == s.recoveries && s.settled + {} == s.settled && s.settledAgain + {} * s.settled == s.settledAgain;
  }

  lemma CallMore(s: State, done: set<nat>, c: nat, byShutdown: bool)
    requires c !in done && c in s.records
    ensures var t := CallAll(s, done, byShutdown);
            CallAll(s, done + {c}, byShutdown) ==
            t.(calls := t.calls[c := Call(s.records[c].ownership, byShutdown)], repeatedCalls := t.repeatedCalls + {c} * t.calls.Keys)
  {
    var t := CallAll(s, done, byShutdown);
    assert s.calls + (map d | d in done + {c} && d in s.records :: Call(s.records[d].ownership, byShutdown))
        == t.calls[c := Call(s.records[c].ownership, byShutdown)];
    assert c in t.calls.Keys <==> c in s.calls.Keys;
    assert s.repeatedCalls + (done + {c}) * s.calls.Keys == t.repeatedCalls + {c} * t.calls.Keys;
  }

  lemma CallNone(s: State, byShutdown: bool)
    ensures CallAll(s, {}, byShutdown) == s
  {
    var t := CallAll(s, {}, byShutdown);
    assert t.calls == s.calls && t.repeatedCalls == s.repeatedCalls;
  }

  lemma MarkMore(records: map<nat, Connection>, done: set<nat>, c: nat)
    requires c in records
    ensures MarkDisposed(records, done + {c}) == MarkDisposed(records, done)[c := records[c].(disposed := true)]
    ensures c !in done ==> MarkDisposed(records, done)[c] == records[c]
    ensures MarkDisposed(records, done).Keys == records.Keys
  {}

  lemma MarkMoreKeys(records: map<nat, Connection>, done: set<nat>)
    ensures MarkDisposed(records, done).Keys == records.Keys
  {}

  lemma MarkNone(records: map<nat, Connection>)
    ensures MarkDisposed(records, {}) == records
  {}

  /** What disposing of the connections seen so far amounts to. */
  function DisposedSoFar(s: State, seen: set<nat>): State {
    CallAll(s, seen * ResidentOf(s.connections, s.records), true).(records := MarkDisposed(s.records, seen))
  }

  lemma DisposeMore(s: State, seen: set<nat>, c: nat)
    requires c !in seen && c in s.connections && c in s.records
    ensures var t := DisposedSoFar(s, seen);
            var r := s.records[c];
            && c in t.records && t.records[c] == r
            && DisposedSoFar(s, seen + {c}) ==
                 if r.disposed then t
                 else if r.ownership.Resident? then
                   t.(records := t.records[c := r.(disposed := true)], calls := t.calls[c := Call(Resident, true)],
                      repeatedCalls := t.repeatedCalls + {c} * t.calls.Keys)
                 else t.(records := t.records[c := r.(disposed := true)])
  {
    var resident := ResidentOf(s.connections, s.records);
    MarkMore(s.records, seen, c);
    MarkMoreKeys(s.records, seen);
    if c in resident {
      assert (seen + {c}) * resident == seen * resident + {c};
      CallMore(s, seen * resident, c, true);
    } else {
      assert (seen + {c}) * resident == seen * resident;
    }
    hide CallAll;
    if s.records[c].disposed { assert MarkDisposed(s.records, seen + {c}) == MarkDisposed(s.records, seen); }
    hide MarkDisposed;
  }

  lemma DisposeNone(s: State)
    ensures DisposedSoFar(s, {}) == s
  {
    CallNone(s, true);
    MarkNone(s.records);
    assert {} * ResidentOf(s.connections, s.records) == {};
  }

  lemma DisposeEvery(s: State)
    ensures DisposedSoFar(s, s.connections)
         == CallAll(s, ResidentOf(s.connections, s.records), true).(records := MarkDisposed(s.records, s.connections))
  {
    assert s.connections * ResidentOf(s.connections, s.records) == ResidentOf(s.connections, s.records);
  }

  // ---- The server ----

  class ResidentRuntimeWorkerServer {
    var clients: map<nat, Client>
    var attachingConnections: map<nat, Attaching>
    var records: map<nat, Connection>
    var connections: set<nat>
    var recoveries: map<nat, nat>
    var lastClientOrdinal: nat
    var lastConnectionOrdinal: nat
    var recoveryOrdinal: nat
    var closing: bool
    var fatalSent: bool
    ghost var calls: map<nat, Call>
    ghost var repeatedCalls: set<nat>
    ghost var settled: set<nat>
    ghost var settledAgain: set<nat>
    ghost var leaked: set<nat>

    ghost function View(): State
      reads this
    {
      State(clients, attachingConnections, records, connections, recoveries, lastClientOrdinal, lastConnectionOrdinal,
            recoveryOrdinal, closing, fatalSent, calls, repeatedCalls, settled, settledAgain, leaked)
    }

    ghost predicate Valid()
      reads this
    {
      connections <= records.Keys
    }

    constructor ()
      ensures Valid() && View() == FRESH
    {
      clients, attachingConnections, records, connections, recoveries := map[], map[], map[], {}, map[];
      lastClientOrdinal, lastConnectionOrdinal, recoveryOrdinal, closing, fatalSent := 0, 0, 0, false, false;
      calls, repeatedCalls, settled, settledAgain, leaked := map[], {}, {}, {}, {};
    }

    /** Rejects the recoveries of the given connections, one by one. */
    method RejectConnectionRecoveries(of: set<nat>)
      modifies this`recoveries, this`settled, this`settledAgain
      ensures View() == RejectAll(old(View()), RecoveriesOf(old(recoveries), of))
    {
      ghost var all := RecoveriesOf(recoveries, of);
      ghost var done: set<nat> := {};
      var left := RecoveriesOf(recoveries, of);
      RejectNone(View());
      hide RejectAll, RecoveriesOf;
      while left != {}
        invariant left + done == all && left !! done
        invariant View() == RejectAll(old(View()), done)
        decreases left
      {
        var r :| r in left;
        RejectMore(old(View()), done, r);
        settledAgain := settledAgain + {r} * settled;
        recoveries, settled := recoveries - {r}, settled + {r};
        left, done := left - {r}, done + {r};
      }
      assert done == all;
    }

    method CreateClientRecord(k: nat)
      requires Valid()
      modifies this
      ensures Valid() && View() == ClientCreated(old(View()), k)
    {
      if closing { return; }
      if k != lastClientOrdinal + 1 {
        FailFatally();
        return;
      }
      lastClientOrdinal := k;
      if |clients| >= MAX_CLIENTS {
        FailFatally();
        return;
      }
      clients := clients[k := Client(0, false)];
    }

    /** A client closes with everything attached through it. */
    method CloseClientTransport(k: nat)
      requires Valid()
      modifies this
      ensures Valid() && View() == ClientClosed(old(View()), k)
    {
      if closing || k !in clients { return; }
      hide RejectAll, RecoveriesOf, ConnectionsOf, AttachingOf, MarkAbandoned, MarkDisposed;
      var gone := ConnectionsOf(connections, records, k);
      var abandoned := AttachingOf(attachingConnections, k);
      MarkMoreKeys(records, gone);
      RejectConnectionRecoveries(gone + abandoned);
      attachingConnections := MarkAbandoned(attachingConnections, abandoned);
      records, connections := MarkDisposed(records, gone), connections - gone;
      clients := clients - {k};
    }

    /** An attach request up to its upstream call; true when the call is made. */
    method BeginAttach(c: nat, k: nat, owned: bool) returns (upstream: bool)
      requires Valid()
      modifies this
      ensures Valid() && View() == AttachBegun(old(View()), c, k, owned)
    {
      if closing { return false; }
      if c != lastConnectionOrdinal + 1 {
        FailFatally();
        return false;
      }
      lastConnectionOrdinal := c;
      if k !in clients || clients[k].locallyClosed { return false; }
      if |connections| + |attachingConnections| >= MAX_CONNECTIONS {
        FailFatally();
        return false;
      }
      attachingConnections := attachingConnections[c := Attaching(k, if owned then Owned else Resident, false)];
      upstream := true;
    }

    /** The upstream attach ends; true when the connection becomes usable. */
    method EndAttach(c: nat, ok: bool) returns (attached: bool)
      requires Valid() && c in attachingConnections
      modifies this
      ensures Valid() && View() == AttachEnded(old(View()), c, ok)
    {
      hide RejectAll, RecoveriesOf;
      var a := attachingConnections[c];
      if !ok || a.abandoned {
        RejectConnectionRecoveries({c});
        attachingConnections := attachingConnections - {c};
        return false;
      }
      records, connections := records[c := Connection(a.client, a.ownership, false)], connections + {c};
      if a.client in clients {
        clients := clients[a.client := clients[a.client].(connectionCount := clients[a.client].connectionCount + 1)];
      }
      attachingConnections := attachingConnections - {c};
      attached := true;
    }

    /** A promotion is asked for; true when it goes upstream. */
    method BeginPromotion(c: nat) returns (upstream: bool)
      requires Valid()
      modifies this`records
      ensures Valid() && View() == PromotionBegun(old(View()), c)
      ensures upstream <==> !closing && Live(old(View()), c) && old(records)[c].ownership.Owned?
    {
      if closing || c !in connections || records[c].disposed || !records[c].ownership.Owned? { return false; }
      records := records[c := records[c].(ownership := Promoting)];
      upstream := true;
    }

    method EndPromotion(c: nat, ok: bool)
      requires Valid() && c in records && records[c].ownership.Promoting?
      modifies this`records
      ensures Valid() && View() == PromotionEnded(old(View()), c, ok)
    {
      records := records[c := records[c].(ownership := if ok then Resident else PromotionUnknown)];
    }

    method AbandonOne(c: nat)
      requires Valid() && c in connections
      modifies this`records, this`connections, this`clients, this`recoveries, this`settled, this`settledAgain
      ensures Valid() && View() == AbandonConnection(old(View()), c)
    {
      hide RejectAll, RecoveriesOf;
      var record := records[c];
      RejectConnectionRecoveries({c});
      records := records[c := record.(disposed := true)];
      connections := connections - {c};
      if record.client in clients { clients := clients[record.client := OneLess(clients[record.client])]; }
    }

    method FinishDisposal(c: nat)
      requires Valid() && c in records
      modifies this`connections, this`clients
      ensures Valid() && View() == DisposeDone(old(View()), c)
    {
      connections := connections - {c};
      var k := records[c].client;
      if k in clients {
        var left := OneLess(clients[k]).(locallyClosed := true);
        clients := if left.connectionCount == 0 then clients - {k} else clients[k := left];
      }
    }

    /** A disposal request up to its upstream call; true when the call is made. */
    method BeginDisposal(c: nat) returns (upstream: bool)
      requires Valid()
      modifies this
      ensures Valid() && View() == DisposalBegun(old(View()), c)
      ensures upstream ==> Live(old(View()), c) && (old(records)[c].ownership.Owned? || old(records)[c].ownership.Resident?)
      ensures !upstream ==> calls == old(calls)
    {
      if closing || c !in connections { return false; }
      if records[c].disposed {
        FinishDisposal(c);
        return false;
      }
      if records[c].ownership.Promoting? || records[c].ownership.PromotionUnknown? {
        AbandonOne(c);
        return false;
      }
      hide RejectAll, RecoveriesOf, CallAll;
      RejectConnectionRecoveries({c});
      CallNone(View(), false);
      CallMore(View(), {}, c, false);
      assert {} + {c} == {c};
      repeatedCalls := repeatedCalls + {c} * calls.Keys;
      calls := calls[c := Call(records[c].ownership, false)];
      records := records[c := records[c].(disposed := true)];
      upstream := true;
    }

    /** A disposal request resumes after its upstream call. */
    method EndDisposal(c: nat, ok: bool)
      requires Valid() && c in records && records[c].disposed && c in calls && !calls[c].byShutdown
      modifies this`connections, this`clients
      ensures Valid() && View() == DisposalEnded(old(View()), c, ok)
    {
      if ok { FinishDisposal(c); }
    }

    /** An upstream disposal made by closing resumes. */
    method EndClosingDisposal(c: nat, ok: bool)
      requires Valid() && c in records && c in calls && calls[c].byShutdown
      modifies this`clients
      ensures Valid() && View() == ClosingDisposalEnded(old(View()), c, ok)
    {
      var k := records[c].client;
      if ok && k in clients { clients := clients[k := clients[k].(locallyClosed := true)]; }
    }

    /** Fences every connection in the table and disposes of the resident ones. */
    method DisposeConnections()
      requires Valid()
      modifies this`records, this`calls, this`repeatedCalls
      ensures View() == DisposedSoFar(old(View()), connections)
    {
      ghost var seen: set<nat> := {};
      var left := connections;
      DisposeNone(View());
      hide DisposedSoFar;
      while left != {}
        invariant left + seen == connections && left !! seen && connections <= old(records).Keys
        invariant View() == DisposedSoFar(old(View()), seen)
        decreases left
      {
        var c :| c in left;
        DisposeMore(old(View()), seen, c);
        var record := records[c];
        if !record.disposed {
          records := records[c := record.(disposed := true)];
          if record.ownership.Resident? {
            repeatedCalls := repeatedCalls + {c} * calls.Keys;
            calls := calls[c := Call(Resident, true)];
          }
        }
        left, seen := left - {c}, seen + {c};
      }
      assert seen == connections;
    }

    /** The await-free part of closing. */
    method CloseAllResources()
      requires Valid()
      modifies this`recoveries, this`settled, this`settledAgain, this`records, this`calls, this`repeatedCalls
      ensures Valid() && View() == CloseResources(old(View()))
    {
      assert RecoveriesOf(recoveries, recoveries.Values) == recoveries.Keys;
      hide RejectAll, RecoveriesOf, CallAll, MarkDisposed, ResidentOf, DisposedSoFar;
      RejectConnectionRecoveries(recoveries.Values);
      MarkMoreKeys(records, connections);
      DisposeEvery(View());
      DisposeConnections();
    }

    method FailFatally()
      requires Valid()
      modifies this
      ensures Valid() && View() == FailFatal(old(View()))
    {
      hide CloseResources;
      if fatalSent { return; }
      fatalSent, closing := true, true;
      CloseAllResources();
    }

    method ShutDownServer()
      requires Valid()
      modifies this
      ensures Valid() && View() == ShutDown(old(View()))
    {
      hide CloseResources;
      if closing { return; }
      closing := true;
      CloseAllResources();
    }

    /** After the disposals settled or their deadline passed. */
    method FinishClosing()
      requires Valid() && closing
      modifies this`connections, this`clients
      ensures Valid() && View() == ClosingFinished(old(View()))
    {
      connections, clients := {}, map[];
    }

    /** The upstream asks for recovery; the promise returned is settled by one of the methods here. */
    method RequestHostRecovery(c: nat) returns (id: Option<nat>)
      requires Valid()
      modifies this`recoveries, this`recoveryOrdinal
      ensures Valid() && View() == RecoveryRequested(old(View()), c)
      ensures id.Some? <==> MayRecover(old(View()), c)
    {
      if closing { return None; }
      if c !in attachingConnections && (c !in connections || records[c].disposed) { return None; }
      var k := if c in attachingConnections then attachingConnections[c].client else records[c].client;
      if c in attachingConnections && attachingConnections[c].abandoned { return None; }
      if c !in attachingConnections && records[c].ownership.PromotionUnknown? { return None; }
      if k !in clients || clients[k].locallyClosed { return None; }
      if |recoveries| >= MAX_RECOVERIES { return None; }
      recoveryOrdinal := recoveryOrdinal + 1;
      recoveries := recoveries[recoveryOrdinal := c];
      id := Some(recoveryOrdinal);
    }

    method RecoveryTimedOut(r: nat)
      requires Valid()
      modifies this`recoveries, this`settled, this`settledAgain
      ensures Valid() && View() == RecoveryExpired(old(View()), r)
    {
      if r !in recoveries { return; }
      RejectNone(View());
      RejectMore(View(), {}, r);
      assert {} + {r} == {r};
      hide RejectAll;
      settledAgain := settledAgain + {r} * settled;
      recoveries, settled := recoveries - {r}, settled + {r};
    }

    /** The entry is taken out before the response is checked: a malformed one settles nothing. */
    method ReceiveRecoveryResponse(r: nat, ok: bool, error: ErrorField)
      requires Valid()
      modifies this
      ensures Valid() && View() == RecoveryAnswered(old(View()), r, ok, error)
    {
      if closing || r !in recoveries { return; }
      RejectNone(View());
      RejectMore(View(), {}, r);
      assert {} + {r} == {r};
      hide RejectAll, FailFatal;
      recoveries := recoveries - {r};
      if (ok && !error.NoError?) || (!ok && !error.ValidError?) {
        leaked := leaked + {r};
        FailFatally();
        return;
      }
      settledAgain := settledAgain + {r} * settled;
      settled := settled + {r};
    }
  }

  // ---- What every interleaving keeps ----

  /** Disposal history: one call per connection, in an ownership that no longer changes. */
  ghost predicate CallsInv(records: map<nat, Connection>, calls: map<nat, Call>, repeatedCalls: set<nat>) {
    && repeatedCalls == {}
    && (forall c :: c in calls ==>
         && c in records && records[c].disposed && records[c].ownership == calls[c].ownership
         && (calls[c].ownership.Owned? || calls[c].ownership.Resident?)
         && (calls[c].byShutdown ==> calls[c].ownership.Resident?))
  }

  ghost predicate TableInv(s: State) {
    && s.connections <= s.records.Keys
    && (forall c :: c in s.records ==> c <= s.lastConnection)
    && (forall c :: c in s.attaching ==> c <= s.lastConnection && c !in s.records && (s.attaching[c].ownership.Owned? || s.attaching[c].ownership.Resident?))
  }

  /** Every recovery ever asked for is waiting, settled once, or leaked. */
  ghost predicate RecoveryInv(s: State) {
    && s.settledAgain == {}
    && (forall r: nat :: 1 <= r <= s.recoveryOrdinal <==> r in s.recoveries || r in s.settled || r in s.leaked)
    && s.recoveries.Keys !! s.settled && s.recoveries.Keys !! s.leaked && s.settled !! s.leaked
    && (s.closing ==> s.recoveries == map[])
    && (s.fatalSent ==> s.closing)
  }

  ghost predicate Inv(s: State) {
    TableInv(s) && CallsInv(s.records, s.calls, s.repeatedCalls) && RecoveryInv(s)
  }

  lemma RejectKeepsRecoveries(s: State, which: set<nat>)
    requires RecoveryInv(s) && which <= s.recoveries.Keys
    ensures RecoveryInv(RejectAll(s, which))
  {}

  /** Marking connections disposed keeps the history of their disposals. */
  lemma MarkKeepsCalls(s: State, which: set<nat>)
    requires CallsInv(s.records, s.calls, s.repeatedCalls)
    ensures CallsInv(MarkDisposed(s.records, which), s.calls, s.repeatedCalls)
  {}

  /** Disposing of live, settled sessions, and fencing them. */
  lemma CallKeepsCalls(s: State, which: set<nat>, byShutdown: bool)
    requires CallsInv(s.records, s.calls, s.repeatedCalls)
    requires forall c :: c in which ==> c in s.records && !s.records[c].disposed
    requires forall c :: c in which ==> s.records[c].ownership.Resident? || (!byShutdown && s.records[c].ownership.Owned?)
    ensures var t := CallAll(s, which, byShutdown); CallsInv(MarkDisposed(s.records, which), t.calls, t.repeatedCalls)
  {
    assert which * s.calls.Keys == {};
  }

  lemma CloseKeepsInv(s: State)
    requires TableInv(s) && CallsInv(s.records, s.calls, s.repeatedCalls) && RecoveryInv(s.(closing := false, fatalSent := false))
    requires s.closing
    ensures Inv(CloseResources(s))
  {
    CloseKeepsCalls(s);
    CloseKeepsRecoveries(s);
    MarkMoreKeys(s.records, s.connections);
    hide CallsInv, RecoveryInv, MarkDisposed, RejectAll;
    RejectLeaves(s, s.recoveries.Keys);
  }

  lemma CloseKeepsCalls(s: State)
    requires CallsInv(s.records, s.calls, s.repeatedCalls)
    ensures var t := CloseResources(s); CallsInv(t.records, t.calls, t.repeatedCalls)
  {
    var resident := ResidentOf(s.connections, s.records);
    CallKeepsCalls(s, resident, true);
    var t := CallAll(s, resident, true);
    MarkKeepsCalls(s.(records := MarkDisposed(s.records, resident), calls := t.calls, repeatedCalls := t.repeatedCalls), s.connections);
    MarkTwice(s.records, resident, s.connections);
    hide CallsInv, MarkDisposed;
  }

  lemma CloseKeepsRecoveries(s: State)
    requires RecoveryInv(s.(closing := false, fatalSent := false)) && s.closing
    ensures RecoveryInv(CloseResources(s))
  {
    hide MarkDisposed;
    RejectKeepsRecoveries(s.(closing := false, fatalSent := false), s.recoveries.Keys);
    assert s.recoveries - s.recoveries.Keys == map[];
  }

  lemma MarkTwice(records: map<nat, Connection>, a: set<nat>, b: set<nat>)
    requires a <= b
    ensures MarkDisposed(MarkDisposed(records, a), b) == MarkDisposed(records, b)
  {}

  lemma FailKeepsInv(s: State)
    requires TableInv(s) && CallsInv(s.records, s.calls, s.repeatedCalls) && RecoveryInv(s)
    ensures Inv(FailFatal(s))
  {
    hide CloseResources, CallsInv;
    if !s.fatalSent { CloseKeepsInv(s.(fatalSent := true, closing := true)); }
  }

  lemma ClientStepKeepsInv(s: State, e: Event)
    requires Inv(s) && (e.CreateClient? || e.CloseClient?)
    ensures Inv(Step(s, e))
  {
    hide CallsInv, FailFatal, RejectAll, MarkDisposed, RecoveryInv;
    if e.CreateClient? {
      FailKeepsInv(s);
      LimitKeepsInv(s, s.(lastClient := e.client, clients := s.clients[e.client := Client(0, false)]));
      LimitKeepsInv(s, s.(lastClient := e.client));
      FailKeepsInv(s.(lastClient := e.client));
    } else if !s.closing && e.client in s.clients {
      var gone := ConnectionsOf(s.connections, s.records, e.client);
      var rejected := RecoveriesOf(s.recoveries, gone + AttachingOf(s.attaching, e.client));
      MarkKeepsCalls(s, gone);
      MarkMoreKeys(s.records, gone);
      RejectKeepsRecoveries(s, rejected);
      OnlyTables(RejectAll(s, rejected), Step(s, e));
      RejectLeaves(s, rejected);
    }
  }

  lemma RejectLeaves(s: State, which: set<nat>)
    ensures var t := RejectAll(s, which); t == s.(recoveries := t.recoveries, settled := t.settled, settledAgain := t.settledAgain)
  {}

  /** Recovery history does not depend on the tables. */
  lemma OnlyTables(s: State, t: State)
    requires RecoveryInv(s)
    requires t == s.(clients := t.clients, attaching := t.attaching, records := t.records, connections := t.connections,
                     lastClient := t.lastClient, lastConnection := t.lastConnection, calls := t.calls, repeatedCalls := t.repeatedCalls)
    ensures RecoveryInv(t)
  {}

  lemma LimitKeepsInv(s: State, t: State)
    requires Inv(s) && t == s.(clients := t.clients, lastClient := t.lastClient)
    ensures Inv(t)
  {
    hide CallsInv;
  }

  lemma LaterKeepsInv(s: State, t: State)
    requires Inv(s) && t == s.(lastConnection := t.lastConnection, attaching := t.attaching) && t.lastConnection == s.lastConnection + 1
    requires forall c :: c in t.attaching ==> c in s.attaching || c == t.lastConnection
    requires forall c :: c in t.attaching && c in s.attaching ==> t.attaching[c] == s.attaching[c]
    requires forall c :: c in t.attaching && c !in s.attaching ==> t.attaching[c].ownership.Owned? || t.attaching[c].ownership.Resident?
    ensures Inv(t)
  {
    OnlyTables(s, t);
    hide CallsInv, RecoveryInv;
  }

  lemma AttachBegunKeepsInv(s: State, c: nat, k: nat, owned: bool)
    requires Inv(s)
    ensures Inv(AttachBegun(s, c, k, owned))
  {
    var later := s.(lastConnection := c);
    var begun := later.(attaching := s.attaching[c := Attaching(k, if owned then Owned else Resident, false)]);
    if c == s.lastConnection + 1 {
      assert c !in s.attaching;
      hide TableInv, CallsInv, FailFatal, RecoveryInv;
      LaterKeepsInv(s, later);
      LaterKeepsInv(s, begun);
      FailKeepsInv(later);
    } else {
      hide TableInv, CallsInv, FailFatal, RecoveryInv;
      FailKeepsInv(s);
    }
  }

  lemma AttachEndedKeepsInv(s: State, c: nat, ok: bool)
    requires Inv(s)
    ensures Inv(AttachEnded(s, c, ok))
  {
    if c in s.attaching {
      var t := AttachEnded(s, c, ok);
      var rejected := RecoveriesOf(s.recoveries, {c});
      RejectKeepsRecoveries(s, rejected);
      RejectLeaves(s, rejected);
      hide RejectAll, RecoveryInv, OneMore;
      OnlyTables(RejectAll(s, rejected), RejectAll(s, rejected).(attaching := s.attaching - {c}));
      if ok && !s.attaching[c].abandoned { OnlyTables(s, t); }
    }
  }

  lemma PromotionKeepsInv(s: State, e: Event)
    requires Inv(s) && (e.PromoteBegins? || e.PromoteEnds?)
    ensures Inv(Step(s, e))
  {
    OnlyTables(s, Step(s, e));
    hide RecoveryInv;
  }

  lemma DisposeKeepsInv(s: State, c: nat)
    requires Inv(s)
    ensures Inv(DisposalBegun(s, c))
  {
    if !s.closing && c in s.connections && c in s.records {
      if s.records[c].disposed {
        hide Inv, DisposeDone;
        DoneKeepsInv(s, c);
      } else if s.records[c].ownership.Promoting? || s.records[c].ownership.PromotionUnknown? {
        hide Inv, AbandonConnection;
        AbandonKeepsInv(s, c);
      } else {
        CalledKeepsInv(s, c);
      }
    }
  }

  lemma AbandonKeepsInv(s: State, c: nat)
    requires Inv(s) && c in s.records && !s.records[c].disposed
    ensures Inv(AbandonConnection(s, c))
  {
    var rejected := RecoveriesOf(s.recoveries, {c});
    RejectKeepsRecoveries(s, rejected);
    RejectLeaves(s, rejected);
    OnlyTables(RejectAll(s, rejected), AbandonConnection(s, c));
    hide RejectAll, RecoveryInv;
  }

  lemma CalledKeepsInv(s: State, c: nat)
    requires Inv(s) && !s.closing && Live(s, c) && (s.records[c].ownership.Owned? || s.records[c].ownership.Resident?)
    ensures Inv(DisposalBegun(s, c))
  {
    var rejected := RecoveriesOf(s.recoveries, {c});
    RejectKeepsRecoveries(s, rejected);
    RejectLeaves(s, rejected);
    CallKeepsCalls(RejectAll(s, rejected), {c}, false);
    MarkMore(s.records, {}, c);
    MarkNone(s.records);
    assert {} + {c} == {c};
    hide RejectAll, RecoveryInv, CallsInv, MarkDisposed;
    OnlyTables(RejectAll(s, rejected), DisposalBegun(s, c));
  }

  lemma DoneKeepsInv(s: State, c: nat)
    requires Inv(s) && c in s.records && s.records[c].disposed
    ensures Inv(DisposeDone(s, c))
  {
    OnlyTables(s, DisposeDone(s, c));
    hide RecoveryInv, CallsInv;
  }

  lemma DisposedKeepsInv(s: State, c: nat, ok: bool)
    requires Inv(s)
    ensures Inv(DisposalEnded(s, c, ok)) && Inv(ClosingDisposalEnded(s, c, ok))
  {
    if c in s.records && s.records[c].disposed { DoneKeepsInv(s, c); }
    OnlyTables(s, ClosingDisposalEnded(s, c, ok));
    hide RecoveryInv, CallsInv, DisposeDone;
  }

  lemma RequestKeepsInv(s: State, c: nat)
    requires Inv(s)
    ensures Inv(RecoveryRequested(s, c))
  {
    hide CallsInv;
  }

  lemma ExpiryKeepsInv(s: State, r: nat)
    requires Inv(s)
    ensures Inv(RecoveryExpired(s, r))
  {
    hide CallsInv;
    if r in s.recoveries { RejectKeepsRecoveries(s, {r}); }
  }

  lemma AnswerKeepsInv(s: State, r: nat, ok: bool, error: ErrorField)
    requires Inv(s)
    ensures Inv(RecoveryAnswered(s, r, ok, error))
  {
    hide CallsInv, FailFatal;
    if r in s.recoveries {
      ExpiryKeepsInv(s, r);
      LeakKeepsRecoveries(s, r);
      hide RecoveryInv;
      FailKeepsInv(s.(recoveries := s.recoveries - {r}, leaked := s.leaked + {r}));
    }
  }

  lemma LeakKeepsRecoveries(s: State, r: nat)
    requires RecoveryInv(s) && r in s.recoveries
    ensures RecoveryInv(s.(recoveries := s.recoveries - {r}, leaked := s.leaked + {r}))
  {}

  lemma StepKeepsInv(s: State, e: Event)
    requires Inv(s)
    ensures Inv(Step(s, e))
  {
    hide TableInv, CallsInv, RecoveryInv, CloseResources, FailFatal, DisposalBegun, DisposalEnded, ClosingDisposalEnded, AttachBegun, AttachEnded,
         RecoveryRequested, RecoveryExpired, RecoveryAnswered;
    if e.CreateClient? || e.CloseClient? { ClientStepKeepsInv(s, e); }
    else if e.AttachBegins? { AttachBegunKeepsInv(s, e.connection, e.client, e.owned); }
    else if e.AttachEnds? { AttachEndedKeepsInv(s, e.connection, e.ok); }
    else if e.PromoteBegins? || e.PromoteEnds? { PromotionKeepsInv(s, e); }
    else if e.DisposeBegins? { DisposeKeepsInv(s, e.connection); }
    else if e.DisposeEnds? || e.ClosingDisposeEnds? { DisposedKeepsInv(s, e.connection, e.ok); }
    else if e.RequestRecovery? { RequestKeepsInv(s, e.connection); }
    else if e.RecoveryTimesOut? { ExpiryKeepsInv(s, e.recovery); }
    else if e.RecoveryResponse? { AnswerKeepsInv(s, e.recovery, e.ok, e.error); }
    else if e.Fail? { FailKeepsInv(s); }
    else { EndKeepsInv(s, e); }
  }

  lemma EndKeepsInv(s: State, e: Event)
    requires Inv(s) && (e.Shutdown? || e.CloseFinishes?)
    ensures Inv(Step(s, e))
  {
    hide CallsInv, CloseResources;
    if e.Shutdown? && !s.closing { CloseKeepsInv(s.(closing := true)); }
    if e.CloseFinishes? { OnlyTables(s, Step(s, e)); }
  }

  lemma {:induction false} RunKeepsInv(s: State, events: seq<Event>)
    requires Inv(s)
    ensures Inv(Run(s, events))
    decreases |events|
  {
    hide Inv, Step;
    if events != [] {
      StepKeepsInv(s, events[0]);
      RunKeepsInv(Step(s, events[0]), events[1..]);
    }
  }

  // ---- Results ----

  lemma FreshIsInv()
    ensures Inv(FRESH)
  {}

  /** In every interleaving upstream disposal is called at most once per connection,
      only on a session whose ownership is settled, and by shutdown only on a resident one. */
  lemma DisposedAtMostOnce(events: seq<Event>)
    ensures var s := Run(FRESH, events);
            && s.repeatedCalls == {}
            && forall c :: c in s.calls ==>
                 && c in s.records && s.records[c].ownership == s.calls[c].ownership
                 && (s.calls[c].ownership.Owned? || s.calls[c].ownership.Resident?)
                 && (s.calls[c].byShutdown ==> s.calls[c].ownership.Resident?)
  {
    FreshIsInv();
    RunKeepsInv(FRESH, events);
  }

  /** No recovery promise is settled twice; each is waiting, settled or leaked, and
      none is left waiting once the server closes. */
  lemma RecoveriesSettleOnce(events: seq<Event>)
    ensures var s := Run(FRESH, events);
            && s.settledAgain == {} && s.recoveries.Keys !! s.settled && s.settled !! s.leaked
            && (forall r: nat :: 1 <= r <= s.recoveryOrdinal <==> r in s.recoveries || r in s.settled || r in s.leaked)
            && (s.closing ==> s.recoveries == map[])
  {
    FreshIsInv();
    RunKeepsInv(FRESH, events);
    hide TableInv, CallsInv;
  }

  /** A malformed response to a recovery still waiting. */
  predicate Leaks(s: State, e: Event, r: nat) {
    e.RecoveryResponse? && e.recovery == r && Malformed(e.ok, e.error) && r in s.recoveries
  }

  ghost predicate MalformedAt(events: seq<Event>, i: nat, r: nat) {
    i < |events| && Leaks(Run(FRESH, events[..i]), events[i], r)
  }

  /** A recovery promise is never settled exactly when the response that answered it
      was malformed: success carrying an error, or failure without a well-formed one. */
  lemma {:induction false} LeakedExactly(events: seq<Event>, r: nat)
    ensures r in Run(FRESH, events).leaked <==> exists i: nat :: MalformedAt(events, i, r)
    decreases |events|
  {
    hide Step, Inv, Leaks;
    FreshIsInv();
    if events != [] {
      var n := |events| - 1;
      var before := events[..n];
      LeakedExactly(before, r);
      RunSplits(FRESH, events);
      RunKeepsInv(FRESH, before);
      StepLeaks(Run(FRESH, before), events[n], r);
      hide Run;
      forall i: nat | i < n ensures MalformedAt(events, i, r) <==> MalformedAt(before, i, r) {
        assert events[..i] == before[..i];
      }
      assert MalformedAt(events, n, r) <==> Leaks(Run(FRESH, before), events[n], r);
    }
  }

  lemma StepLeaks(s: State, e: Event, r: nat)
    requires Inv(s)
    ensures r in Step(s, e).leaked <==> r in s.leaked || Leaks(s, e, r)
  {
    hide TableInv, CallsInv, RejectAll, CallAll, AbandonClient, AbandonConnection, DisposeDone, CloseResources, FailFatal, MayRecover;
    hide MarkDisposed, RecoveriesOf, OneMore;
  }

  lemma {:induction false} RunSplits(s: State, events: seq<Event>)
    ensures events != [] ==> Run(s, events) == Step(Run(s, events[..|events| - 1]), events[|events| - 1])
    decreases |events|
  {
    hide Step;
    if |events| > 1 {
      RunSplits(Step(s, events[0]), events[1..]);
      assert events[1..][..|events| - 2] == events[..|events| - 1][1..];
    }
  }

  /** Such a response is accepted: the promise it answers is gone for good. */
  lemma MalformedResponseLeaks(s: State, r: nat, later: seq<Event>)
    requires Inv(s) && r in s.recoveries
    ensures var t := Run(Step(s, RecoveryResponse(r, true, ValidError)), later); r in t.leaked && r !in t.settled
  {
    hide TableInv, CallsInv, FailFatal;
    StepKeepsInv(s, RecoveryResponse(r, true, ValidError));
    StaysLeaked(Step(s, RecoveryResponse(r, true, ValidError)), r, later);
    RunKeepsInv(Step(s, RecoveryResponse(r, true, ValidError)), later);
  }

  lemma {:induction false} StaysLeaked(s: State, r: nat, later: seq<Event>)
    requires Inv(s) && r in s.leaked
    ensures r in Run(s, later).leaked
    decreases |later|
  {
    hide Inv, Step;
    if later != [] {
      StepKeepsInv(s, later[0]);
      StepLeaks(s, later[0], r);
      StaysLeaked(Step(s, later[0]), r, later[1..]);
    }
  }

  /** A recovery may well be waiting. */
  lemma RecoveryIsReached()
    ensures Run(FRESH, [CreateClient(1)] + ([AttachBegins(1, 1, true)] + ([RequestRecovery(1)] + []))).recoveries == map[1 := 1]
  {
    var s1 := FRESH.(lastClient := 1, clients := map[1 := Client(0, false)]);
    var s2 := s1.(lastConnection := 1, attaching := map[1 := Attaching(1, Owned, false)]);
    assert Step(FRESH, CreateClient(1)) == s1 && Step(s1, AttachBegins(1, 1, true)) == s2;
    assert Step(s2, RequestRecovery(1)).recoveries == map[1 := 1];
    hide Step;
    RunStep(FRESH, CreateClient(1), [AttachBegins(1, 1, true)] + ([RequestRecovery(1)] + []));
    RunStep(s1, AttachBegins(1, 1, true), [RequestRecovery(1)] + []);
    RunStep(s2, RequestRecovery(1), []);
  }

  lemma RunStep(s: State, e: Event, rest: seq<Event>)
    ensures Run(s, [e] + rest) == Run(Step(s, e), rest)
  {
    hide Step;
    assert ([e] + rest)[1..] == rest;
  }
}
