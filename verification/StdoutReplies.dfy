/** What the gateway tells its callers, effect by effect, from the lines its child
    wrote and the events around them. */
module StdoutReplies {
  import opened Outcomes
  import opened StdoutFraming

  /** What happened, in the order the callers learn of it. */
  datatype Heard =
    | Answer(id: Id, command: Command, success: bool)   // a well-formed response to the pending command
    | Event(payload: nat)                               // any other message
    | Broken(code: FailureCode)                         // the process failed, or the gateway closed
    | Entered(id: Id)
    | Expired(id: Id, late: bool)                       // its timer, or its write callback with an error

  /** The effect is the one that what happened calls for. */
  predicate Shows(e: Effect, h: Heard) {
    match h
    case Answer(id, command, success) =>
      if !success then e == Settled(id, CommandRejected)
      else
        (match command
         case Prompt => e == Settled(id, Admitted(Accepted))
         case Steer => e == Settled(id, Admitted(Queued))
         case FollowUp => e == Settled(id, Admitted(Queued))
         case Abort => e == Settled(id, Admitted(Handled)))
    case Event(payload) => e == Emitted(payload)
    case Broken(code) => e.AllRejected? && e.code == code
    case Entered(id) => e == Registered(id)
    case Expired(id, late) => e == Settled(id, if late then TimedOut else WriteFailed)
  }

  /** What one complete line says to a gateway with these requests pending. */
  function LineSays(c: Config, line: Bytes, pending: map<Id, Command>): seq<Heard> {
    if line == [] then []
    else if line[|line| - 1] == CARRIAGE_RETURN then [Broken(CrlfForbidden)]
    else
      match c.decode(line)
      case InvalidUtf8 => [Broken(Utf8Invalid)]
      case InvalidJson => [Broken(JsonInvalid)]
      case NotAnObject => [Broken(MessageInvalid)]
      case Decoded(Other(payload)) => [Event(payload)]
      case Decoded(Response(id, command, success)) =>
        if id.Some? && id.value !in pending then []
        else if id.Some? && command == Some(pending[id.value]) && success.Some? then [Answer(id.value, command.value, success.value)]
        else [Broken(ResponseInvalid)]
  }

  /** What one chunk says: its lines in turn, the first one continuing the record held
      so far, until one breaks a bound or the process. */
  function ChunkSays(c: Config, s: State, held: nat, bytes: Bytes): seq<Heard>
    decreases |bytes|
  {
    if s.process.None? || bytes == [] then []
    else
      var n := LineLength(bytes);
      var line := s.record + bytes[..n];
      if |line| > c.limit then [Broken(OutputTooLarge)]
      else if Pieces(held, bytes[..n]) > MAX_SEGMENTS then [Broken(OutputTooFragmented)]
      else if n == |bytes| then []
      else LineSays(c, line, s.pending) + ChunkSays(c, EndRecord(c, s.(record := line)), 0, bytes[n + 1..])
  }

  function EventSays(c: Config, g: Gateway, e: StdoutFraming.Event): seq<Heard> {
    var s := g.state;
    match e
    case Spawn(_) => []
    case Submit(id, _) =>
      if !g.closed && s.process.Some? && id !in s.pending && |s.pending| < MAX_PENDING then [Entered(id)] else []
    case TimeOut(id) => if id in s.pending then [Expired(id, true)] else []
    case WriteFails(id) => if id in s.pending then [Expired(id, false)] else []
    case Chunk(child, bytes) =>
      if s.process != Some(child) then [] else if bytes.None? then [Broken(ChunkInvalid)] else ChunkSays(c, s, g.held, bytes.value)
    case StdoutEnds(child) =>
      if s.process != Some(child) then [] else if s.record == [] then [Broken(StdoutClosed)] else [Broken(TruncatedRecord)]
    case ProcessFails(child) => if s.process != Some(child) then [] else [Broken(ProcessError)]
    case Close => [Broken(GatewayClosed)]
  }

  function RunSays(c: Config, g: Gateway, events: seq<StdoutFraming.Event>): seq<Heard>
    decreases |events|
  {
    if events == [] then [] else EventSays(c, g, events[0]) + RunSays(c, Step(c, g, events[0]), events[1..])
  }

  /** The log grew by one effect for each thing heard, in order. */
  ghost predicate Tells(log: seq<Effect>, later: seq<Effect>, heard: seq<Heard>) {
    && |later| == |log| + |heard| && later[..|log|] == log
    && forall k :: 0 <= k < |heard| ==> Shows(later[|log| + k], heard[k])
  }

  lemma TellsNothing(log: seq<Effect>)
    ensures Tells(log, log, [])
  {}

  lemma TellsOne(log: seq<Effect>, e: Effect, h: Heard)
    requires Shows(e, h)
    ensures Tells(log, log + [e], [h])
  {}

  lemma TellsTwice(log: seq<Effect>, middle: seq<Effect>, later: seq<Effect>, first: seq<Heard>, second: seq<Heard>)
    requires Tells(log, middle, first) && Tells(middle, later, second)
    ensures Tells(log, later, first + second)
  {
    hide Shows;
    assert later[..|log|] == later[..|middle|][..|log|];
    forall k | 0 <= k < |first + second| ensures Shows(later[|log| + k], (first + second)[k]) {
      if k < |first| { assert later[|log| + k] == later[..|middle|][|log| + k]; }
      else { assert Shows(later[|middle| + (k - |first|)], second[k - |first|]); }
    }
  }

  lemma LineTells(c: Config, s: State)
    requires s.process.Some?
    ensures Tells(s.log, EndRecord(c, s).log, LineSays(c, s.record, s.pending))
  {
    var said := LineSays(c, s.record, s.pending);
    TellsNothing(s.log);
    if said != [] {
      assert |said| == 1 && EndRecord(c, s).log == s.log + [EndRecord(c, s).log[|s.log|]];
      TellsOne(s.log, EndRecord(c, s).log[|s.log|], said[0]);
    }
    hide Tells, Shows;
  }

  lemma FailTells(s: State, code: FailureCode)
    requires s.process.Some?
    ensures Tells(s.log, Fail(s, code).log, [Broken(code)])
  {
    TellsOne(s.log, AllRejected(s.pending.Keys, code, s.pending != map[]), Broken(code));
  }

  lemma {:induction false} ChunkTells(c: Config, s: State, held: nat, bytes: Bytes)
    requires |s.record| <= c.limit
    ensures var r := FeedChunk(c, s, held, bytes).state;
            Tells(s.log, r.log, ChunkSays(c, s, held, bytes)) && |r.record| <= c.limit
    decreases |bytes|
  {
    hide Tells, EndRecord, Fail, LineSays, Feed;
    TellsNothing(s.log);
    if s.process.Some? && bytes != [] {
      var n := LineLength(bytes);
      var whole := s.(record := s.record + bytes[..n]);
      FeedPlain(c, s, bytes[..n]);
      FailedIsEmpty(s, OutputTooLarge);
      FailedIsEmpty(s, OutputTooFragmented);
      if |whole.record| > c.limit { FailTells(s, OutputTooLarge); }
      else if Pieces(held, bytes[..n]) > MAX_SEGMENTS { FailTells(s, OutputTooFragmented); }
      else if n < |bytes| {
        LineTells(c, whole);
        EndRecordShortens(c, whole);
        var next := EndRecord(c, whole);
        ChunkTells(c, next, 0, bytes[n + 1..]);
        TellsTwice(s.log, next.log, FeedChunk(c, next, 0, bytes[n + 1..]).state.log,
                   LineSays(c, whole.record, s.pending), ChunkSays(c, next, 0, bytes[n + 1..]));
      }
    }
  }

  lemma FailedIsEmpty(s: State, code: FailureCode)
    requires s.process.Some?
    ensures Fail(s, code).process.None? && Fail(s, code).record == []
  {}

  lemma EventTells(c: Config, g: Gateway, e: StdoutFraming.Event)
    requires |g.state.record| <= c.limit
    ensures var t := Step(c, g, e).state; Tells(g.state.log, t.log, EventSays(c, g, e)) && |t.record| <= c.limit
  {
    var s, t := g.state, Step(c, g, e).state;
    hide Tells, ChunkSays, FeedChunk;
    TellsNothing(s.log);
    match e
    case Spawn(_) =>
    case Submit(id, _) => TellsOne(s.log, Registered(id), Entered(id));
    case TimeOut(id) => TellsOne(s.log, Settled(id, TimedOut), Expired(id, true));
    case WriteFails(id) => TellsOne(s.log, Settled(id, WriteFailed), Expired(id, false));
    case Chunk(child, bytes) =>
      if s.process == Some(child) {
        if bytes.None? { FailTells(s, ChunkInvalid); } else { ChunkTells(c, s, g.held, bytes.value); }
      }
    case StdoutEnds(child) => if s.process == Some(child) { FailTells(s, if s.record == [] then StdoutClosed else TruncatedRecord); }
    case ProcessFails(child) => if s.process == Some(child) { FailTells(s, ProcessError); }
    case Close => TellsOne(s.log, AllRejected(s.pending.Keys, GatewayClosed, true), Broken(GatewayClosed));
  }

  lemma {:induction false} RunTells(c: Config, g: Gateway, events: seq<StdoutFraming.Event>)
    requires |g.state.record| <= c.limit
    ensures Tells(g.state.log, Run(c, g, events).state.log, RunSays(c, g, events))
    decreases |events|
  {
    hide Tells, Step, EventSays;
    TellsNothing(g.state.log);
    if events != [] {
      var next := Step(c, g, events[0]);
      EventTells(c, g, events[0]);
      RunTells(c, next, events[1..]);
      TellsTwice(g.state.log, next.state.log, Run(c, next, events[1..]).state.log,
                 EventSays(c, g, events[0]), RunSays(c, next, events[1..]));
    }
  }

  // ---- The command a response must name ----

  /** Reading only takes requests away. */
  ghost predicate OnlyTakes(pending: map<Id, Command>, after: map<Id, Command>) {
    forall id :: id in after ==> id in pending && after[id] == pending[id]
  }

  lemma LineOnlyTakes(c: Config, s: State)
    ensures OnlyTakes(s.pending, EndRecord(c, s).pending)
  {}

  lemma {:induction false} ChunkOnlyTakes(c: Config, s: State, held: nat, bytes: Bytes)
    requires |s.record| <= c.limit
    ensures OnlyTakes(s.pending, FeedChunk(c, s, held, bytes).state.pending)
    decreases |bytes|
  {
    hide EndRecord, Feed;
    if s.process.Some? && bytes != [] {
      var n := LineLength(bytes);
      FeedPlain(c, s, bytes[..n]);
      var read := Feed(c, s, bytes[..n]);
      if read.process.Some? && Pieces(held, bytes[..n]) <= MAX_SEGMENTS && n < |bytes| {
        LineOnlyTakes(c, read);
        EndRecordShortens(c, read);
        ChunkOnlyTakes(c, EndRecord(c, read), 0, bytes[n + 1..]);
      }
    }
  }

  lemma EventKeepsCommand(c: Config, g: Gateway, e: StdoutFraming.Event, id: Id)
    requires |g.state.record| <= c.limit
    ensures var t := Step(c, g, e).state;
            id in t.pending ==>
              if id in g.state.pending then t.pending[id] == g.state.pending[id]
              else e.Submit? && e.id == id && t.pending[id] == e.command && t.log == g.state.log + [Registered(id)]
  {
    if e.Chunk? && e.bytes.Some? { ChunkOnlyTakes(c, g.state, g.held, e.bytes.value); }
    hide FeedChunk;
  }

  lemma {:induction false} CommandStays(c: Config, g: Gateway, later: seq<StdoutFraming.Event>, id: Id)
    requires |g.state.record| <= c.limit && id in g.state.pending
    ensures var t := Run(c, g, later).state;
            && |t.log| >= |g.state.log|
            && (id in t.pending && Registered(id) !in t.log[|g.state.log|..] ==> t.pending[id] == g.state.pending[id])
    decreases |later|
  {
    hide Step;
    if later != [] {
      var next := Step(c, g, later[0]);
      EventTells(c, g, later[0]);
      EventKeepsCommand(c, g, later[0], id);
      RunTells(c, next, later[1..]);
      var t := Run(c, next, later[1..]).state;
      Grown(g.state.log, next.state.log, t.log, EventSays(c, g, later[0]), RunSays(c, next, later[1..]));
      if id in next.state.pending {
        CommandStays(c, next, later[1..], id);
      } else {
        Unregistered(c, next, later[1..], id);
      }
    }
  }

  lemma Grown(log: seq<Effect>, middle: seq<Effect>, later: seq<Effect>, first: seq<Heard>, second: seq<Heard>)
    requires Tells(log, middle, first) && Tells(middle, later, second)
    ensures |log| <= |middle| <= |later|
    ensures forall e :: e in later[|middle|..] ==> e in later[|log|..]
  {
    hide Shows;
  }

  /** A request that is not pending becomes so only by being registered. */
  lemma {:induction false} Unregistered(c: Config, g: Gateway, later: seq<StdoutFraming.Event>, id: Id)
    requires |g.state.record| <= c.limit && id !in g.state.pending
    ensures var t := Run(c, g, later).state;
            |t.log| >= |g.state.log| && (id in t.pending ==> Registered(id) in t.log[|g.state.log|..])
    decreases |later|
  {
    hide Step;
    if later != [] {
      var next := Step(c, g, later[0]);
      EventTells(c, g, later[0]);
      EventKeepsCommand(c, g, later[0], id);
      RunTells(c, next, later[1..]);
      var t := Run(c, next, later[1..]).state;
      Grown(g.state.log, next.state.log, t.log, EventSays(c, g, later[0]), RunSays(c, next, later[1..]));
      if id in next.state.pending {
        assert t.log[..|next.state.log|] == next.state.log;
        assert t.log[|g.state.log|] == Registered(id);
      } else {
        Unregistered(c, next, later[1..], id);
      }
    }
  }

  // ---- Results ----

  /** In every run the log holds one effect for each thing that happened, in order, and
      that effect is the one called for: so a request is admitted only by a well-formed
      response to its pending command with success true, accepted for a prompt, queued
      for steering and following up, handled for an abort, and rejected by the child only
      with success false; every other message is passed on, once; and every failure has
      the code of its cause. */
  lemma LogIsExact(c: Config, events: seq<StdoutFraming.Event>, k: nat)
    ensures var log, heard := Run(c, FRESH, events).state.log, RunSays(c, FRESH, events);
            && |log| == |heard|
            && (k < |log| ==>
                  && (log[k].Settled? && log[k].outcome.Admitted? <==> heard[k].Answer? && heard[k].success)
                  && (log[k].Settled? && log[k].outcome.CommandRejected? <==> heard[k].Answer? && !heard[k].success)
                  && (heard[k].Answer? ==> log[k].Settled? && log[k].id == heard[k].id)
                  && (heard[k].Answer? && heard[k].success ==>
                        && (heard[k].command.Prompt? <==> log[k].outcome == Admitted(Accepted))
                        && (heard[k].command.Abort? <==> log[k].outcome == Admitted(Handled))
                        && (heard[k].command.Steer? || heard[k].command.FollowUp? <==> log[k].outcome == Admitted(Queued)))
                  && (heard[k].Event? <==> log[k].Emitted?) && (heard[k].Event? ==> log[k].payload == heard[k].payload)
                  && (heard[k].Broken? <==> log[k].AllRejected?) && (heard[k].Broken? ==> log[k].code == heard[k].code))
  {
    RunTells(c, FRESH, events);
    var log, heard := Run(c, FRESH, events).state.log, RunSays(c, FRESH, events);
    hide Run, RunSays;
    assert k < |log| ==> Shows(log[0 + k], heard[k]);
  }

  /** In every run: until the request id is registered again, the command pending under
      it is the one it was submitted with. */
  lemma CommandIsSubmitted(c: Config, events: seq<StdoutFraming.Event>, id: Id, command: Command, later: seq<StdoutFraming.Event>)
    requires Admits(Run(c, FRESH, events), id)
    ensures var g := Step(c, Run(c, FRESH, events), Submit(id, command));
            var t := Run(c, g, later).state;
            && id in g.state.pending && |t.log| >= |g.state.log|
            && (id in t.pending && Registered(id) !in t.log[|g.state.log|..] ==> t.pending[id] == command)
  {
    RecordStays(c, FRESH, events);
    hide Run;
    CommandStays(c, Step(c, Run(c, FRESH, events), Submit(id, command)), later, id);
  }

  lemma {:induction false} RecordStays(c: Config, g: Gateway, events: seq<StdoutFraming.Event>)
    requires |g.state.record| <= c.limit
    ensures |Run(c, g, events).state.record| <= c.limit
    decreases |events|
  {
    hide Step;
    if events != [] {
      EventTells(c, g, events[0]);
      RecordStays(c, Step(c, g, events[0]), events[1..]);
    }
  }

  // ---- The child process ----

  /** Whatever the events: a closed gateway has no child and never gets one again. */
  lemma {:induction false} ClosedHasNoChild(c: Config, g: Gateway, events: seq<StdoutFraming.Event>)
    requires g.closed ==> g.state.process.None?
    ensures var t := Run(c, g, events); (t.closed ==> t.state.process.None?) && (g.closed ==> t.closed)
    decreases |events|
  {
    hide Step;
    if events != [] {
      ClosedStep(c, g, events[0]);
      ClosedHasNoChild(c, Step(c, g, events[0]), events[1..]);
    }
  }

  lemma ClosedStep(c: Config, g: Gateway, e: StdoutFraming.Event)
    requires g.closed ==> g.state.process.None?
    ensures var t := Step(c, g, e); (t.closed ==> t.state.process.None?) && (g.closed ==> t.closed)
  {
    hide FeedChunk;
  }

  /** A child starts exactly when the gateway is open and has none, with an empty record;
      the gateway loses its child exactly when something broke it. */
  lemma ChildrenExactly(c: Config, g: Gateway, e: StdoutFraming.Event)
    requires |g.state.record| <= c.limit
    ensures var t := Step(c, g, e).state;
            && (g.state.process.None? ==>
                  (t.process.Some? <==> e.Spawn? && !g.closed) && (t.process.Some? ==> t.process == Some(e.child) && t.record == []))
            && (g.state.process.Some? ==>
                  && (t.process.None? <==> exists h :: h in EventSays(c, g, e) && h.Broken?)
                  && (t.process.Some? ==> t.process == g.state.process))
  {
    if g.state.process.Some? {
      if e.Chunk? && e.child == g.state.process.value && e.bytes.Some? { ChunkBreaks(c, g.state, g.held, e.bytes.value); }
      if Step(c, g, e).state.process.None? && !(e.Chunk? && e.bytes.Some?) {
        assert |EventSays(c, g, e)| == 1 && EventSays(c, g, e)[0] in EventSays(c, g, e);
      }
    }
    hide FeedChunk, ChunkSays;
  }

  lemma LineBreaks(c: Config, s: State)
    requires s.process.Some?
    ensures EndRecord(c, s).process == s.process || EndRecord(c, s).process.None?
    ensures EndRecord(c, s).process.None? <==> exists h :: h in LineSays(c, s.record, s.pending) && h.Broken?
  {
    var said := LineSays(c, s.record, s.pending);
    if said != [] { assert said == [said[0]] && said[0] in said; }
  }

  lemma {:induction false} ChunkBreaks(c: Config, s: State, held: nat, bytes: Bytes)
    requires |s.record| <= c.limit && s.process.Some?
    ensures var t := FeedChunk(c, s, held, bytes).state;
            && (t.process == s.process || t.process.None?)
            && (t.process.None? <==> exists h :: h in ChunkSays(c, s, held, bytes) && h.Broken?)
    decreases |bytes|
  {
    hide EndRecord, Feed, LineSays;
    if bytes != [] {
      var n := LineLength(bytes);
      var whole := s.(record := s.record + bytes[..n]);
      FeedPlain(c, s, bytes[..n]);
      FailedIsEmpty(s, OutputTooLarge);
      FailedIsEmpty(s, OutputTooFragmented);
      if |whole.record| > c.limit { assert Broken(OutputTooLarge) in ChunkSays(c, s, held, bytes); }
      else if Pieces(held, bytes[..n]) > MAX_SEGMENTS { assert Broken(OutputTooFragmented) in ChunkSays(c, s, held, bytes); }
      else if n < |bytes| {
        LineBreaks(c, whole);
        EndRecordShortens(c, whole);
        var next := EndRecord(c, whole);
        var first, rest := LineSays(c, whole.record, s.pending), ChunkSays(c, next, 0, bytes[n + 1..]);
        assert ChunkSays(c, s, held, bytes) == first + rest;
        assert forall h :: h in first + rest <==> h in first || h in rest;
        if next.process.Some? { ChunkBreaks(c, next, 0, bytes[n + 1..]); } else { assert rest == []; DeadChunk(c, next, bytes[n + 1..]); }
      }
    }
  }

  lemma DeadChunk(c: Config, s: State, bytes: Bytes)
    requires s.process.None?
    ensures FeedChunk(c, s, 0, bytes).state == s
  {}
}
