/** The JSONL gateway to an RPC child process: its stdout arrives in arbitrary
    chunks, is cut into LF-ended records, and settles pending requests. Decoding
    a record (UTF-8, then JSON, then an object) is a parameter. */
module StdoutFraming {
  import opened Outcomes

  type Byte = b: int | 0 <= b < 256
  type Bytes = seq<Byte>
  type Id = string

  const LINE_FEED: Byte := 0x0A
  const CARRIAGE_RETURN: Byte := 0x0D
  const MAX_SEGMENTS := 4_096
  const MAX_PENDING := 256

  datatype Command = Prompt | Steer | FollowUp | Abort

  /** A response's fields as far as they have the expected type, or any other message. */
  datatype Message = Response(id: Option<Id>, command: Option<Command>, success: Option<bool>) | Other(payload: nat)

  datatype Decoding = InvalidUtf8 | InvalidJson | NotAnObject | Decoded(message: Message)

  datatype FailureCode =
    | OutputTooLarge | OutputTooFragmented | CrlfForbidden | Utf8Invalid | JsonInvalid | MessageInvalid
    | ResponseInvalid | ChunkInvalid | TruncatedRecord | StdoutClosed | ProcessError | GatewayClosed

  datatype Disposition = Accepted | Queued | Handled

  datatype Outcome = Admitted(disposition: Disposition) | CommandRejected | TimedOut | WriteFailed

  /** What the gateway does to its callers. */
  datatype Effect =
    | Registered(id: Id)
    | Settled(id: Id, outcome: Outcome)
    | Emitted(payload: nat)
    | AllRejected(ids: set<Id>, code: FailureCode, uncertain: bool)

  datatype State = State(process: Option<nat>, record: Bytes, pending: map<Id, Command>, log: seq<Effect>)

  /** `limit` is the largest record; it may be lowered below the eight-MiB default. */
  datatype Config = Config(decode: Bytes -> Decoding, limit: nat)

  // ---- The one-pass reading of a byte stream ----

  function Fail(s: State, code: FailureCode): State {
    if s.process.None? then s
    else State(None, [], map[], s.log + [AllRejected(s.pending.Keys, code, s.pending != map[])])
  }

  function DispositionOf(c: Command): Disposition {
    match c case Prompt => Accepted case Steer => Queued case FollowUp => Queued case Abort => Handled
  }

  function Settle(s: State, id: Id, outcome: Outcome): State {
    s.(pending := s.pending - {id}, log := s.log + [Settled(id, outcome)])
  }

  function Receive(s: State, m: Message): State {
    match m
    case Other(payload) => s.(log := s.log + [Emitted(payload)])
    case Response(id, command, success) =>
      if id.None? then Fail(s, ResponseInvalid)
      else if id.value !in s.pending then s
      else if command != Some(s.pending[id.value]) || success.None? then Fail(s, ResponseInvalid)
      else Settle(s, id.value, if success.value then Admitted(DispositionOf(s.pending[id.value])) else CommandRejected)
  }

  /** The end of a record: blank ones are dropped, bad ones fail the process. */
  function EndRecord(c: Config, s: State): State {
    if s.record == [] then s
    else if s.record[|s.record| - 1] == CARRIAGE_RETURN then Fail(s, CrlfForbidden)
    else
      match c.decode(s.record)
      case InvalidUtf8 => Fail(s, Utf8Invalid)
      case InvalidJson => Fail(s, JsonInvalid)
      case NotAnObject => Fail(s, MessageInvalid)
      case Decoded(message) => Receive(s.(record := []), message)
  }

  function FeedByte(c: Config, s: State, b: Byte): State {
    if s.process.None? then s
    else if b == LINE_FEED then EndRecord(c, s)
    else if |s.record| + 1 > c.limit then Fail(s, OutputTooLarge)
    else s.(record := s.record + [b])
  }

  function Feed(c: Config, s: State, bytes: Bytes): State
    decreases |bytes|
  {
    if bytes == [] then s else Feed(c, FeedByte(c, s, bytes[0]), bytes[1..])
  }

  // ---- The chunked reading: also limits the pieces a record is kept in ----

  function LineLength(bytes: Bytes): (n: nat)
    ensures n <= |bytes| && (n < |bytes| ==> bytes[n] == LINE_FEED)
    ensures LINE_FEED !in bytes[..n]
  {
    if bytes == [] || bytes[0] == LINE_FEED then 0
    else
      var n := 1 + LineLength(bytes[1..]);
      assert bytes[..n] == [bytes[0]] + bytes[1..][..n - 1];
      n
  }

  function Pieces(held: nat, piece: Bytes): nat {
    if piece == [] then held else held + 1
  }

  datatype Chunked = Chunked(state: State, held: nat)

  /** Reads one chunk into a record already held in `held` pieces. */
  function FeedChunk(c: Config, s: State, held: nat, bytes: Bytes): Chunked
    decreases |bytes|
  {
    if s.process.None? || bytes == [] then Chunked(s, held)
    else
      var n := LineLength(bytes);
      var read := Feed(c, s, bytes[..n]);
      if read.process.None? then Chunked(read, 0)
      else if Pieces(held, bytes[..n]) > MAX_SEGMENTS then Chunked(Fail(s, OutputTooFragmented), 0)
      else if n == |bytes| then Chunked(read, Pieces(held, bytes[..n]))
      else FeedChunk(c, EndRecord(c, read), 0, bytes[n + 1..])
  }

  function FeedChunks(c: Config, s: State, held: nat, chunks: seq<Bytes>): Chunked
    decreases |chunks|
  {
    if chunks == [] then Chunked(s, held)
    else
      var next := FeedChunk(c, s, held, chunks[0]);
      FeedChunks(c, next.state, next.held, chunks[1..])
  }

  function Joined(chunks: seq<Bytes>): Bytes {
    if chunks == [] then [] else chunks[0] + Joined(chunks[1..])
  }

  // ---- Facts about the one-pass reading ----

  lemma {:induction false} FeedAppend(c: Config, s: State, a: Bytes, b: Bytes)
    ensures Feed(c, s, a + b) == Feed(c, Feed(c, s, a), b)
    decreases |a|
  {
    if a == [] {
      assert a + b == b;
    } else {
      assert (a + b)[1..] == a[1..] + b;
      FeedAppend(c, FeedByte(c, s, a[0]), a[1..], b);
    }
  }

  lemma {:induction false} FeedDead(c: Config, s: State, bytes: Bytes)
    requires s.process.None?
    ensures Feed(c, s, bytes) == s
    decreases |bytes|
  {
    if bytes != [] { FeedDead(c, s, bytes[1..]); }
  }

  /** A stretch without a line end just grows the record, up to the limit. */
  lemma {:induction false} FeedPlain(c: Config, s: State, piece: Bytes)
    requires s.process.Some? && LINE_FEED !in piece && |s.record| <= c.limit
    ensures Feed(c, s, piece)
         == if |s.record| + |piece| > c.limit then Fail(s, OutputTooLarge) else s.(record := s.record + piece)
    decreases |piece|
  {
    if piece == [] {
      assert s.record + piece == s.record;
    } else {
      assert piece[0] in piece;
      var next := FeedByte(c, s, piece[0]);
      if next.process.Some? {
        FeedPlain(c, next, piece[1..]);
        assert s.record + piece == next.record + piece[1..];
      } else {
        FeedDead(c, next, piece[1..]);
      }
    }
  }

  /** One line, its end included. */
  lemma FeedLine(c: Config, s: State, bytes: Bytes)
    requires LineLength(bytes) < |bytes|
    ensures var n := LineLength(bytes);
            var read := Feed(c, s, bytes[..n]);
            Feed(c, s, bytes) == Feed(c, if read.process.None? then read else EndRecord(c, read), bytes[n + 1..])
  {
    var n := LineLength(bytes);
    var read := Feed(c, s, bytes[..n]);
    assert bytes == bytes[..n] + ([LINE_FEED] + bytes[n + 1..]);
    FeedAppend(c, s, bytes[..n], [LINE_FEED] + bytes[n + 1..]);
    assert ([LINE_FEED] + bytes[n + 1..])[1..] == bytes[n + 1..];
  }

  ghost predicate Extends(log: seq<Effect>, later: seq<Effect>) {
    |log| <= |later| && later[..|log|] == log
  }

  /** Effects are only ever added, and none after the process has failed. */
  lemma {:induction false} FeedOnlyAdds(c: Config, s: State, bytes: Bytes)
    ensures Extends(s.log, Feed(c, s, bytes).log)
    ensures s.process.None? ==> Feed(c, s, bytes) == s
    decreases |bytes|
  {
    if bytes != [] { FeedOnlyAdds(c, FeedByte(c, s, bytes[0]), bytes[1..]); }
  }

  // ---- Chunking does not matter ----

  /** The chunked reading gave up because of the chunking alone. */
  ghost predicate GaveUp(s: State, log: seq<Effect>) {
    && s.process.None? && s.record == [] && s.pending == map[]
    && |s.log| > 0 && s.log[|s.log| - 1].AllRejected? && s.log[|s.log| - 1].code == OutputTooFragmented
    && Extends(s.log[..|s.log| - 1], log)
  }

  /** What reading a chunk amounts to: the one-pass result, or giving up with
      every earlier effect as in the one-pass reading. */
  lemma {:induction false} ChunkAgrees(c: Config, s: State, held: nat, bytes: Bytes)
    ensures var r := FeedChunk(c, s, held, bytes).state;
            r == Feed(c, s, bytes) || (s.process.Some? && GaveUp(r, Feed(c, s, bytes).log))
    decreases |bytes|
  {
    if s.process.None? {
      FeedDead(c, s, bytes);
    } else if bytes != [] {
      var n := LineLength(bytes);
      var read := Feed(c, s, bytes[..n]);
      assert bytes == bytes[..n] + bytes[n..];
      FeedAppend(c, s, bytes[..n], bytes[n..]);
      if read.process.None? {
        FeedDead(c, read, bytes[n..]);
      } else if Pieces(held, bytes[..n]) > MAX_SEGMENTS {
        FeedOnlyAdds(c, s, bytes);
      } else if n < |bytes| {
        FeedLine(c, s, bytes);
        ChunkAgrees(c, EndRecord(c, read), 0, bytes[n + 1..]);
      }
    }
  }

  /** However the stream is cut, the chunked reading equals the one-pass reading of
      the joined bytes, or it gave up over fragmentation with the effects so far a
      prefix of the one-pass ones. */
  lemma {:induction false} ChunkingAgrees(c: Config, s: State, held: nat, chunks: seq<Bytes>)
    ensures var r := FeedChunks(c, s, held, chunks).state;
            r == Feed(c, s, Joined(chunks)) || (s.process.Some? && GaveUp(r, Feed(c, s, Joined(chunks)).log))
    decreases |chunks|
  {
    if chunks != [] {
      hide FeedChunk, Feed;
      var next := FeedChunk(c, s, held, chunks[0]);
      var rest := Joined(chunks[1..]);
      ChunkAgrees(c, s, held, chunks[0]);
      FeedAppend(c, s, chunks[0], rest);
      ChunkingAgrees(c, next.state, next.held, chunks[1..]);
      FeedOnlyAdds(c, Feed(c, s, chunks[0]), rest);
      FeedOnlyAdds(c, next.state, rest);
    } else {
      assert Feed(c, s, Joined(chunks)) == s;
    }
  }

  /** No record of the cut stream spans more pieces than the limit. */
  predicate WithinLimit(held: nat, bytes: Bytes)
    decreases |bytes|
  {
    bytes != [] ==>
      var n := LineLength(bytes);
      Pieces(held, bytes[..n]) <= MAX_SEGMENTS && (n < |bytes| ==> WithinLimit(0, bytes[n + 1..]))
  }

  /** The pieces of the unfinished record after one more chunk. */
  function HeldAfter(held: nat, bytes: Bytes): nat
    decreases |bytes|
  {
    if bytes == [] then held
    else
      var n := LineLength(bytes);
      if n == |bytes| then Pieces(held, bytes) else HeldAfter(0, bytes[n + 1..])
  }

  predicate AllWithinLimit(held: nat, chunks: seq<Bytes>)
    decreases |chunks|
  {
    chunks != [] ==> WithinLimit(held, chunks[0]) && AllWithinLimit(HeldAfter(held, chunks[0]), chunks[1..])
  }

  lemma {:induction false} WithinLimitAgrees(c: Config, s: State, held: nat, bytes: Bytes)
    requires WithinLimit(held, bytes)
    ensures var r := FeedChunk(c, s, held, bytes);
            r.state == Feed(c, s, bytes) && (r.state.process.Some? ==> r.held == HeldAfter(held, bytes))
    decreases |bytes|
  {
    if s.process.None? {
      FeedDead(c, s, bytes);
    } else if bytes != [] {
      var n := LineLength(bytes);
      var read := Feed(c, s, bytes[..n]);
      if n < |bytes| {
        FeedLine(c, s, bytes);
        if read.process.Some? {
          WithinLimitAgrees(c, EndRecord(c, read), 0, bytes[n + 1..]);
        } else {
          FeedDead(c, read, bytes[n + 1..]);
        }
      } else {
        assert bytes[..n] == bytes;
      }
    }
  }

  /** Chunking does not matter as long as no record spans more pieces than the
      limit: messages, settlements and the first failure are the one-pass ones. */
  lemma {:induction false} ChunkingDoesNotMatter(c: Config, s: State, held: nat, chunks: seq<Bytes>)
    requires AllWithinLimit(held, chunks)
    ensures FeedChunks(c, s, held, chunks).state == Feed(c, s, Joined(chunks))
    decreases |chunks|
  {
    if chunks != [] {
      hide FeedChunk, Feed, WithinLimit, HeldAfter;
      var next := FeedChunk(c, s, held, chunks[0]);
      WithinLimitAgrees(c, s, held, chunks[0]);
      FeedAppend(c, s, chunks[0], Joined(chunks[1..]));
      if next.state.process.Some? {
        ChunkingDoesNotMatter(c, next.state, next.held, chunks[1..]);
      } else {
        DeadIgnoresChunks(c, next.state, next.held, chunks[1..]);
        FeedDead(c, next.state, Joined(chunks[1..]));
      }
    } else {
      assert Feed(c, s, Joined(chunks)) == s;
    }
  }

  lemma {:induction false} DeadIgnoresChunks(c: Config, s: State, held: nat, chunks: seq<Bytes>)
    requires s.process.None?
    ensures FeedChunks(c, s, held, chunks).state == s
    decreases |chunks|
  {
    if chunks != [] { DeadIgnoresChunks(c, s, held, chunks[1..]); }
  }

  // ---- What the one-pass reading means, line by line ----

  /** Every complete line in turn, then the unfinished rest. */
  function ReadLines(c: Config, s: State, bytes: Bytes): State
    decreases |bytes|
  {
    if s.process.None? then s
    else
      var n := LineLength(bytes);
      var line := s.record + bytes[..n];
      if |line| > c.limit then Fail(s, OutputTooLarge)
      else if n == |bytes| then s.(record := line)
      else ReadLines(c, EndRecord(c, s.(record := line)), bytes[n + 1..])
  }

  lemma EndRecordShortens(c: Config, s: State)
    ensures |EndRecord(c, s).record| <= |s.record|
  {}

  lemma {:induction false} FeedReadsLines(c: Config, s: State, bytes: Bytes)
    requires |s.record| <= c.limit
    ensures Feed(c, s, bytes) == ReadLines(c, s, bytes)
    decreases |bytes|
  {
    hide Feed, EndRecord;
    if s.process.None? {
      FeedDead(c, s, bytes);
    } else {
      var n := LineLength(bytes);
      FeedPlain(c, s, bytes[..n]);
      assert bytes == bytes[..n] + bytes[n..];
      FeedAppend(c, s, bytes[..n], bytes[n..]);
      var read := Feed(c, s, bytes[..n]);
      if read.process.None? {
        FeedDead(c, read, bytes[n..]);
      } else if n < |bytes| {
        FeedLine(c, s, bytes);
        EndRecordShortens(c, read);
        FeedReadsLines(c, EndRecord(c, read), bytes[n + 1..]);
      } else {
        assert bytes[..n] == bytes;
      }
    }
  }

  // ---- Requests ----

  datatype Event =
    | Spawn(child: nat)
    | Submit(id: Id, command: Command)
    | TimeOut(id: Id)
    | WriteFails(id: Id)
    | Chunk(child: nat, bytes: Option<Bytes>)   // None: neither bytes nor a string
    | StdoutEnds(child: nat)
    | ProcessFails(child: nat)
    | Close

  datatype Gateway = Gateway(state: State, held: nat, closed: bool)

  const FRESH := Gateway(State(None, [], map[], []), 0, false)

  predicate Admits(g: Gateway, id: Id) {
    !g.closed && g.state.process.Some? && id !in g.state.pending && |g.state.pending| < MAX_PENDING
  }

  function Step(c: Config, g: Gateway, e: Event): Gateway {
    var s := g.state;
    match e
    case Spawn(child) => if g.closed || s.process.Some? then g else g.(state := s.(process := Some(child), record := []), held := 0)
    case Submit(id, command) =>
      if Admits(g, id) then g.(state := s.(pending := s.pending[id := command], log := s.log + [Registered(id)])) else g
    case TimeOut(id) => if id in s.pending then g.(state := Settle(s, id, TimedOut)) else g
    case WriteFails(id) => if id in s.pending then g.(state := Settle(s, id, WriteFailed)) else g
    case Chunk(child, bytes) =>
      if s.process != Some(child) then g
      else if bytes.None? then g.(state := Fail(s, ChunkInvalid), held := 0)
      else
        var r := FeedChunk(c, s, g.held, bytes.value);
        g.(state := r.state, held := r.held)
    case StdoutEnds(child) =>
      if s.process != Some(child) then g
      else g.(state := Fail(s, if s.record != [] then TruncatedRecord else StdoutClosed), held := 0)
    case ProcessFails(child) => if s.process != Some(child) then g else g.(state := Fail(s, ProcessError), held := 0)
    case Close =>
      Gateway(State(None, [], map[], s.log + [AllRejected(s.pending.Keys, GatewayClosed, true)]), 0, true)
  }

  function Run(c: Config, g: Gateway, events: seq<Event>): Gateway
    decreases |events|
  {
    if events == [] then g else Run(c, Step(c, g, events[0]), events[1..])
  }

  /** Registrations of a request id that are still unsettled. */
  function Open(log: seq<Effect>, id: Id): int {
    if log == [] then 0
    else
      var last := log[|log| - 1];
      Open(log[..|log| - 1], id)
      + (if last == Registered(id) then 1
         else if last.Settled? && last.id == id then -1
         else if last.AllRejected? && id in last.ids then -1 else 0)
  }

  /** Requests are conserved, and whoever is rejected with the process is told the outcome is uncertain. */
  ghost predicate Conserved(s: State) {
    && (forall id :: Open(s.log, id) == if id in s.pending then 1 else 0)
    && (forall k :: 0 <= k < |s.log| && s.log[k].AllRejected? && s.log[k].ids != {} ==> s.log[k].uncertain)
  }

  lemma OpenAfter(log: seq<Effect>, e: Effect, id: Id)
    ensures Open(log + [e], id) == Open(log, id)
            + (if e == Registered(id) then 1
               else if e.Settled? && e.id == id then -1
               else if e.AllRejected? && id in e.ids then -1 else 0)
  {
    assert (log + [e])[..|log|] == log;
  }

  lemma FailConserves(s: State, code: FailureCode)
    requires Conserved(s)
    ensures Conserved(Fail(s, code))
  {
    if s.process.Some? {
      forall id ensures Open(Fail(s, code).log, id) == 0 {
        OpenAfter(s.log, AllRejected(s.pending.Keys, code, s.pending != map[]), id);
      }
      assert s.pending.Keys != {} ==> s.pending != map[];
    }
    hide Open;
  }

  lemma SettleConserves(s: State, id: Id, outcome: Outcome)
    requires Conserved(s) && id in s.pending
    ensures Conserved(Settle(s, id, outcome))
  {
    forall q ensures Open(Settle(s, id, outcome).log, q) == if q in Settle(s, id, outcome).pending then 1 else 0 {
      OpenAfter(s.log, Settled(id, outcome), q);
    }
    hide Open;
  }

  lemma EndRecordConserves(c: Config, s: State)
    requires Conserved(s)
    ensures Conserved(EndRecord(c, s))
  {
    hide Conserved;
    assert Conserved(s.(record := [])) by { ConservedIgnoresRecord(s, []); }
    FailConserves(s, CrlfForbidden);
    FailConserves(s, Utf8Invalid);
    FailConserves(s, JsonInvalid);
    FailConserves(s, MessageInvalid);
    if s.record != [] && c.decode(s.record).Decoded? { ReceiveConserves(s.(record := []), c.decode(s.record).message); }
  }

  lemma ConservedIgnoresRecord(s: State, record: Bytes)
    requires Conserved(s)
    ensures Conserved(s.(record := record))
  {}

  lemma ReceiveConserves(s: State, m: Message)
    requires Conserved(s)
    ensures Conserved(Receive(s, m))
  {
    FailConserves(s, ResponseInvalid);
    if m.Response? && m.id.Some? && m.id.value in s.pending {
      SettleConserves(s, m.id.value, Admitted(DispositionOf(s.pending[m.id.value])));
      SettleConserves(s, m.id.value, CommandRejected);
    }
    if m.Other? {
      forall id ensures Open(Receive(s, m).log, id) == Open(s.log, id) { OpenAfter(s.log, Emitted(m.payload), id); }
    }
    hide Open, Fail, Settle;
  }

  lemma {:induction false} FeedConserves(c: Config, s: State, bytes: Bytes)
    requires Conserved(s)
    ensures Conserved(Feed(c, s, bytes))
    decreases |bytes|
  {
    hide Conserved, Fail, EndRecord;
    if bytes != [] {
      EndRecordConserves(c, s);
      FailConserves(s, OutputTooLarge);
      ConservedIgnoresRecord(s, s.record + [bytes[0]]);
      FeedConserves(c, FeedByte(c, s, bytes[0]), bytes[1..]);
    }
  }

  lemma {:induction false} ChunkConserves(c: Config, s: State, held: nat, bytes: Bytes)
    requires Conserved(s)
    ensures Conserved(FeedChunk(c, s, held, bytes).state)
    decreases |bytes|
  {
    hide Conserved, Feed, Fail, EndRecord;
    if s.process.Some? && bytes != [] {
      var n := LineLength(bytes);
      FeedConserves(c, s, bytes[..n]);
      FailConserves(s, OutputTooFragmented);
      EndRecordConserves(c, Feed(c, s, bytes[..n]));
      if n < |bytes| { ChunkConserves(c, EndRecord(c, Feed(c, s, bytes[..n])), 0, bytes[n + 1..]); }
    }
  }

  lemma StepConserves(c: Config, g: Gateway, e: Event)
    requires Conserved(g.state)
    ensures Conserved(Step(c, g, e).state)
  {
    var s, t := g.state, Step(c, g, e).state;
    if e.Chunk? && e.bytes.Some? { ChunkConserves(c, s, g.held, e.bytes.value); }
    if (e.TimeOut? || e.WriteFails?) && e.id in s.pending {
      SettleConserves(s, e.id, if e.TimeOut? then TimedOut else WriteFailed);
    }
    FailConserves(s, ChunkInvalid);
    FailConserves(s, TruncatedRecord);
    FailConserves(s, StdoutClosed);
    FailConserves(s, ProcessError);
    hide Open, FeedChunk, Fail, Settle;
    if e.Submit? {
      forall id ensures Open(t.log, id) == if id in t.pending then 1 else 0 {
        OpenAfter(s.log, Registered(e.id), id);
      }
    }
    if e.Close? {
      forall id ensures Open(t.log, id) == 0 { OpenAfter(s.log, AllRejected(s.pending.Keys, GatewayClosed, true), id); }
    }
  }

  /** In every run each request registered is settled exactly once or still pending,
      never twice, and a request lost with the process is always reported uncertain. */
  lemma {:induction false} RunConserves(c: Config, g: Gateway, events: seq<Event>)
    requires Conserved(g.state)
    ensures Conserved(Run(c, g, events).state)
    decreases |events|
  {
    hide Conserved, Step;
    if events != [] {
      StepConserves(c, g, events[0]);
      RunConserves(c, Step(c, g, events[0]), events[1..]);
    }
  }

  // ---- The gateway ----

  class RpcGateway {
    const config: Config
    var process: Option<nat>
    var stdoutSegments: seq<Bytes>
    var stdoutRecordBytes: nat
    var pending: map<Id, Command>
    var closed: bool
    ghost var log: seq<Effect>

    ghost predicate Valid()
      reads this
    {
      && stdoutRecordBytes == |Joined(stdoutSegments)| <= config.limit
      && (forall i :: 0 <= i < |stdoutSegments| ==> stdoutSegments[i] != [])
      && |stdoutSegments| <= MAX_SEGMENTS
      && (process.None? ==> stdoutSegments == [])
    }

    ghost function View(): State
      reads this
    {
      State(process, Joined(stdoutSegments), pending, log)
    }

    ghost function Whole(): Gateway
      reads this
    {
      Gateway(View(), |stdoutSegments|, closed)
    }

    constructor (config: Config)
      ensures Valid() && Whole() == FRESH && this.config == config
    {
      this.config := config;
      process, stdoutSegments, stdoutRecordBytes, pending, closed, log := None, [], 0, map[], false, [];
    }

    /** Starts a child unless one is live; a new child starts with an empty record. */
    method EnsureStarted(child: nat) returns (ok: bool)
      requires Valid()
      modifies this
      ensures Valid() && Whole() == Step(config, old(Whole()), Spawn(child))
      ensures ok <==> process.Some? && !closed
    {
      if closed { return false; }
      if process.None? {
        ResetStdoutRecord();
        process := Some(child);
      }
      ok := true;
    }

    method ResetStdoutRecord()
      modifies this`stdoutSegments, this`stdoutRecordBytes
      ensures stdoutSegments == [] && stdoutRecordBytes == 0
    {
      stdoutSegments, stdoutRecordBytes := [], 0;
    }

    method RejectAll(code: FailureCode, uncertain: bool)
      modifies this`pending, this`log
      ensures pending == map[] && log == old(log) + [AllRejected(old(pending).Keys, code, uncertain)]
    {
      log := log + [AllRejected(pending.Keys, code, uncertain)];
      pending := map[];
    }

    /** Every protocol failure of the live process ends here. */
    method FailProcess(code: FailureCode)
      requires Valid()
      modifies this
      ensures Valid() && closed == old(closed) && View() == Fail(old(View()), code)
      ensures old(process).Some? ==> stdoutSegments == []
      ensures old(process).None? ==> stdoutSegments == old(stdoutSegments)
    {
      if process.None? { return; }
      var uncertain := pending != map[];
      process := None;
      ResetStdoutRecord();
      RejectAll(code, uncertain);
    }

    method AppendStdoutSegment(segment: Bytes) returns (ok: bool)
      requires Valid() && process.Some? && LINE_FEED !in segment
      modifies this
      ensures Valid() && closed == old(closed)
      ensures ok ==> View() == Feed(config, old(View()), segment) && process == old(process)
      ensures ok ==> |stdoutSegments| == Pieces(|old(stdoutSegments)|, segment) && process.Some?
      ensures ok <==> Feed(config, old(View()), segment).process.Some? && Pieces(|old(stdoutSegments)|, segment) <= MAX_SEGMENTS
      ensures !ok && Feed(config, old(View()), segment).process.None? ==> View() == Feed(config, old(View()), segment)
      ensures !ok && Feed(config, old(View()), segment).process.Some? ==> View() == Fail(old(View()), OutputTooFragmented)
      ensures !ok ==> stdoutSegments == []
    {
      FeedPlain(config, View(), segment);
      hide Feed;
      if segment == [] {
        assert Joined(stdoutSegments) + segment == Joined(stdoutSegments);
        return true;
      }
      if stdoutRecordBytes + |segment| > config.limit {
        FailProcess(OutputTooLarge);
        return false;
      }
      if |stdoutSegments| >= MAX_SEGMENTS {
        FailProcess(OutputTooFragmented);
        return false;
      }
      JoinedAppend(stdoutSegments, segment);
      stdoutSegments := stdoutSegments + [segment];
      stdoutRecordBytes := stdoutRecordBytes + |segment|;
      ok := true;
    }

    method OnRpcMessage(m: Message)
      requires Valid() && process.Some? && stdoutSegments == []
      modifies this
      ensures Valid() && closed == old(closed) && View() == Receive(old(View()), m) && stdoutSegments == []
      ensures m.Response? && m.id.Some? && m.id.value in old(pending) && m.success.Some? && m.command == Some(old(pending)[m.id.value]) ==>
                && pending == old(pending) - {m.id.value} && process == old(process)
                && log == old(log) + [Settled(m.id.value,
                     if !m.success.value then CommandRejected
                     else match m.command.value
                          case Prompt => Admitted(Accepted)
                          case Abort => Admitted(Handled)
                          case _ => Admitted(Queued))]
    {
      match m
      case Other(payload) => log := log + [Emitted(payload)];
      case Response(id, command, success) =>
        if id.None? {
          FailProcess(ResponseInvalid);
          return;
        }
        if id.value !in pending { return; }
        var expected := pending[id.value];
        if command != Some(expected) || success.None? {
          FailProcess(ResponseInvalid);
          return;
        }
        pending := pending - {id.value};
        log := log + [Settled(id.value, if success.value then Admitted(DispositionOf(expected)) else CommandRejected)];
    }

    method EmitStdoutRecord() returns (ok: bool)
      requires Valid() && process.Some?
      modifies this
      ensures Valid() && closed == old(closed) && View() == EndRecord(config, old(View()))
      ensures stdoutSegments == [] && (ok <==> process.Some?)
    {
      if stdoutRecordBytes == 0 {
        EmptyJoined(stdoutSegments);
        ResetStdoutRecord();
        return true;
      }
      LastOfJoined(stdoutSegments);
      var final := stdoutSegments[|stdoutSegments| - 1];
      if final[|final| - 1] == CARRIAGE_RETURN {
        FailProcess(CrlfForbidden);
        return false;
      }
      var record := Joined(stdoutSegments);
      ResetStdoutRecord();
      match config.decode(record)
      case InvalidUtf8 => FailProcess(Utf8Invalid); return false;
      case InvalidJson => FailProcess(JsonInvalid); return false;
      case NotAnObject => FailProcess(MessageInvalid); return false;
      case Decoded(message) =>
        OnRpcMessage(message);
        ok := process.Some?;
    }

    /** One stdout chunk; a chunk of a child that is no longer the process is ignored. */
    method OnStdout(child: nat, chunk: Option<Bytes>)
      requires Valid()
      modifies this
      ensures Valid() && Whole() == Step(config, old(Whole()), Chunk(child, chunk))
    {
      if process != Some(child) { return; }
      if chunk.None? {
        FailProcess(ChunkInvalid);
        return;
      }
      var bytes := chunk.value;
      hide Feed, EndRecord, Fail;
      ghost var target := FeedChunk(config, View(), |stdoutSegments|, bytes);
      var offset := 0;
      while offset < |bytes| && process.Some?
        invariant Valid() && closed == old(closed) && offset <= |bytes|
        invariant FeedChunk(config, View(), |stdoutSegments|, bytes[offset..]) == target
      {
        var n := LineLength(bytes[offset..]);
        assert bytes[offset..][..n] == bytes[offset..offset + n];
        var ok := AppendStdoutSegment(bytes[offset..offset + n]);
        if offset + n == |bytes| || !ok { return; }
        ok := EmitStdoutRecord();
        assert bytes[offset..][n + 1..] == bytes[offset + n + 1..];
        if !ok { return; }
        offset := offset + n + 1;
      }
    }

    method OnStdoutEnd(child: nat)
      requires Valid()
      modifies this
      ensures Valid() && Whole() == Step(config, old(Whole()), StdoutEnds(child))
    {
      if process != Some(child) { return; }
      FailProcess(if stdoutRecordBytes > 0 then TruncatedRecord else StdoutClosed);
    }

    /** Reserves a request slot once the process is ready. */
    method SubmitRequest(id: Id, command: Command) returns (ok: bool)
      requires Valid()
      modifies this
      ensures Valid() && Whole() == Step(config, old(Whole()), Submit(id, command))
      ensures ok <==> Admits(old(Whole()), id)
    {
      if closed || process.None? || id in pending || |pending| >= MAX_PENDING { return false; }
      pending, log := pending[id := command], log + [Registered(id)];
      ok := true;
    }

    /** A request's timer or write callback; a request already settled is left alone. */
    method Expire(id: Id, outcome: Outcome)
      requires Valid() && (outcome.TimedOut? || outcome.WriteFailed?)
      modifies this
      ensures Valid()
      ensures Whole() == Step(config, old(Whole()), if outcome.TimedOut? then TimeOut(id) else WriteFails(id))
    {
      if id !in pending { return; }
      pending, log := pending - {id}, log + [Settled(id, outcome)];
    }

    method CloseGateway()
      requires Valid()
      modifies this
      ensures Valid() && Whole() == Step(config, old(Whole()), Close)
    {
      closed, process := true, None;
      ResetStdoutRecord();
      RejectAll(GatewayClosed, true);
    }
  }

  lemma {:induction false} JoinedAppend(segments: seq<Bytes>, segment: Bytes)
    ensures Joined(segments + [segment]) == Joined(segments) + segment
  {
    if segments == [] {
      assert segments + [segment] == [segment];
    } else {
      assert (segments + [segment])[1..] == segments[1..] + [segment];
      JoinedAppend(segments[1..], segment);
    }
  }

  lemma EmptyJoined(segments: seq<Bytes>)
    requires Joined(segments) == [] && forall i :: 0 <= i < |segments| ==> segments[i] != []
    ensures segments == []
  {}

  lemma LastOfJoined(segments: seq<Bytes>)
    requires Joined(segments) != [] && forall i :: 0 <= i < |segments| ==> segments[i] != []
    ensures segments != []
    ensures var final := segments[|segments| - 1]; Joined(segments)[|Joined(segments)| - 1] == final[|final| - 1]
  {
    var n := |segments| - 1;
    assert segments == segments[..n] + [segments[n]];
    JoinedAppend(segments[..n], segments[n]);
  }
}
