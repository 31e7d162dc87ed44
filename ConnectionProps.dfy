/** What the connection engine promises its callers: fresh request ids, each
    call settled exactly once, late and unreadable lines dropped, framing
    independent of chunk boundaries while no `start` is suspended, `stop`
    rejecting every pending call,
    `exit` leaving the time-out timers armed, and the handshake. */
module ConnectionProps {
  import opened Wrappers
  import opened Json
  import opened McpTypes
  import opened Connection
  import opened ConnectionInv
  import Framing

  // ---------------------------------------------------------------------
  // Requests and responses

  /** sendRequest with a process takes the next id, which is fresh, enters
      it in the table after every older id, arms its timer and writes the
      request; without a process it consumes no id and changes nothing. */
  lemma SendIssuesOneRequest(codec: Codec, st: Conn, methodName: string, params: Json)
    requires Inv(st)
    ensures var (st', r) := Send(codec, st, methodName, params);
      && Inv(st')
      && (st.running ==>
            && r == Success(st.requestId)
            && st.requestId !in st.timers && st.requestId !in SettledIds(st.settled)
            && st'.pending == st.pending + [st.requestId] && Increasing(st'.pending)
            && st'.timers == st.timers[st.requestId := methodName]
            && st'.requestId == st.requestId + 1
            && st'.outbox == st.outbox + [codec.stringify(RpcRequest(JSONRPC_VERSION, st.requestId, methodName, params)) + "\n"]
            && st'.settled == st.settled)
      && (!st.running ==> st' == st && r == Failure(PROCESS_NOT_AVAILABLE))
  {
    SendPreservesInv(codec, st, methodName, params);
    if st.running {
      IssueTakesFreshId(codec, st, methodName, params);
    }
  }

  /** A call that has been settled (answered, timed out or rejected by
      stop) is out of the table for good: a response with its id is
      ignored and its timer is disarmed. */
  lemma SettledCallIsOutOfTable(codec: Codec, st: Conn, id: int, r: RpcResponse)
    requires Inv(st) && id in SettledIds(st.settled) && r.id == JNum(id)
    ensures id !in st.timers && id !in st.pending
    ensures HandleResponse(st, r) == st
    ensures Timeout(codec, st, id) == st
  {
    var i :| 0 <= i < |st.settled| && st.settled[i].id == id;
    assert st.settled[i].id !in st.timers;
  }

  /** A response changes the state exactly when its id is a number in the
      pending table; it then settles that call, with its error as a
      rejection or its result as the value, and it can do so only once. */
  lemma ResponseSettlesItsCall(codec: Codec, st: Conn, r: RpcResponse)
    requires Inv(st)
    ensures HandleResponse(st, r) != st <==> r.id.JNum? && r.id.n in st.pending
    ensures r.id.JNum? && r.id.n in st.pending ==>
      var st' := HandleResponse(st, r);
      && st'.settled == st.settled + [if r.error.Some? then Rejected(r.id.n, McpErrorMessage(r.error.value)) else Resolved(r.id.n, r.result)]
      && (forall x :: x in st'.pending <==> x in st.pending && x != r.id.n)
      && HandleResponse(st', r) == st'
      && Timeout(codec, st', r.id.n) == st'
  {
    HandleResponsePreservesInv(st, r);
    if r.id.JNum? && r.id.n in st.pending {
      var st' := HandleResponse(st, r);
      assert |st'.settled| == |st.settled| + 1;
      assert st'.settled[|st.settled|].id == r.id.n;
      SettledCallIsOutOfTable(codec, st', r.id.n, r);
    }
  }

  /** A timer that fires rejects its call with the time-out message. */
  lemma TimeoutRejectsCall(codec: Codec, st: Conn, id: int)
    requires Inv(st) && id in st.timers
    ensures var st' := Timeout(codec, st, id);
      && st'.settled == st.settled + [Rejected(id, TimedOut(st.timers[id]))]
      && id !in st'.pending && id !in st'.timers
      && Inv(st')
  {
    TimeoutPreservesInv(codec, st, id);
    var st' := Timeout(codec, st, id);
    assert st'.settled[|st.settled|].id == id;
  }

  /** The response to a call that has timed out arrives too late and is
      dropped. */
  lemma LateResponseAfterTimeoutIsDropped(codec: Codec, st: Conn, id: int, r: RpcResponse)
    requires Inv(st) && id in st.timers && r.id == JNum(id)
    ensures HandleResponse(Timeout(codec, st, id), r) == Timeout(codec, st, id)
  {
    TimeoutRejectsCall(codec, st, id);
    var st' := Timeout(codec, st, id);
    assert st'.settled[|st.settled|].id == id;
    SettledCallIsOutOfTable(codec, st', id, r);
  }

  // ---------------------------------------------------------------------
  // Lines of stdout

  lemma {:induction false} DispatchAppend(codec: Codec, st: Conn, a: seq<string>, b: seq<string>)
    ensures Dispatch(codec, st, a + b) == Dispatch(codec, Dispatch(codec, st, a), b)
    decreases |b|
  {
    if b == [] {
      assert a + b == a;
    } else {
      assert Framing.Init(a + b) == a + Framing.Init(b);
      assert Framing.Last(a + b) == Framing.Last(b);
      DispatchAppend(codec, st, a, Framing.Init(b));
    }
  }

  /** A blank line, or one that is not JSON, is dropped wherever it falls
      among the lines. */
  lemma DroppedLineChangesNothing(codec: Codec, st: Conn, a: seq<string>, line: string, b: seq<string>)
    requires Framing.IsBlank(line) || codec.parse(line).None?
    ensures Dispatch(codec, st, a + [line] + b) == Dispatch(codec, st, a + b)
  {
    DispatchAppend(codec, st, a + [line], b);
    DispatchAppend(codec, st, a, [line]);
    DispatchAppend(codec, st, a, b);
    assert Framing.Init([line]) == [];
  }

  /** Blank lines never reach the parser: dispatching the lines is
      dispatching their non-blank ones. */
  lemma {:induction false} DispatchSkipsBlankLines(codec: Codec, st: Conn, lines: seq<string>)
    ensures Dispatch(codec, st, lines) == Dispatch(codec, st, Framing.NonBlank(lines))
    decreases |lines|
  {
    if lines != [] {
      var init, l := Framing.Init(lines), Framing.Last(lines);
      DispatchSkipsBlankLines(codec, st, init);
      if !Framing.IsBlank(l) {
        var nb := Framing.NonBlank(init);
        assert Framing.Init(nb + [l]) == nb;
        assert Framing.Last(nb + [l]) == l;
      }
    }
  }

  /** A chunk that is one whole line, arriving on an empty buffer. */
  lemma OneLineChunk(codec: Codec, st: Conn, line: string)
    requires st.buffer == "" && Framing.NoNewline(line)
    ensures Chunk(codec, st, line + "\n")
         == Continuations(codec, DispatchLine(codec, st, line), DispatchLine(codec, st, line).settled[|st.settled|..])
  {
    Framing.SplitOfLine(line);
    assert st.buffer + (line + "\n") == line + "\n";
    assert Framing.Init(line + "\n") == line;
    assert Framing.Split(line + "\n") == [line, ""];
    assert Framing.Init([line, ""]) == [line];
    assert Framing.Init([line]) == [];
    assert st.(buffer := "") == st;
    assert Dispatch(codec, st, [line]) == DispatchLine(codec, Dispatch(codec, st, []), line);
  }

  /** A whole line of garbage (blank or not JSON) leaves the connection as
      it was. */
  lemma GarbageLineIsDropped(codec: Codec, st: Conn, line: string)
    requires st.buffer == "" && Framing.NoNewline(line)
    requires Framing.IsBlank(line) || codec.parse(line).None?
    ensures Chunk(codec, st, line + "\n") == st
  {
    OneLineChunk(codec, st, line);
    assert st.settled[|st.settled|..] == [];
  }

  lemma {:induction false} DispatchFrame(codec: Codec, st: Conn, b: string, lines: seq<string>)
    ensures Dispatch(codec, st.(buffer := b), lines) == Dispatch(codec, st, lines).(buffer := b)
    ensures Dispatch(codec, st, lines).awaiting == st.awaiting
    decreases |lines|
  {
    if lines != [] {
      DispatchFrame(codec, st, b, Framing.Init(lines));
    }
  }

  lemma {:induction false} ContinuationsIdleWithoutAwaiting(codec: Codec, st: Conn, ss: seq<Settlement>)
    requires st.awaiting == map[]
    ensures Continuations(codec, st, ss) == st
    decreases |ss|
  {
    if ss != [] {
      ContinuationsIdleWithoutAwaiting(codec, st, Framing.Init(ss));
    }
  }

  /** With no `start` suspended, a chunk is its lines with the buffer set
      to what follows the last newline. */
  lemma ChunkWithoutAwaiting(codec: Codec, st: Conn, chunk: string)
    requires st.awaiting == map[]
    ensures var parts := Framing.Split(st.buffer + chunk);
      Chunk(codec, st, chunk) == Dispatch(codec, st, Framing.Init(parts)).(buffer := Framing.Last(parts))
    ensures Chunk(codec, st, chunk).awaiting == map[]
  {
    var parts := Framing.Split(st.buffer + chunk);
    DispatchFrame(codec, st, Framing.Last(parts), Framing.Init(parts));
    var st1 := Dispatch(codec, st.(buffer := Framing.Last(parts)), Framing.Init(parts));
    ContinuationsIdleWithoutAwaiting(codec, st1, st1.settled[|st.settled|..]);
  }

  /** In every state, a chunk leaves as the buffer the text after the last
      newline of the old buffer and the chunk: the continuations it wakes
      never touch the buffer. */
  lemma ChunkKeepsResidue(codec: Codec, st: Conn, chunk: string)
    ensures Chunk(codec, st, chunk).buffer == Framing.Residue(st.buffer + chunk)
  {
    var parts := Framing.Split(st.buffer + chunk);
    DispatchFrame(codec, st, Framing.Last(parts), Framing.Init(parts));
  }

  /** In every state, the buffer after any number of chunks is the one that
      framing their concatenation at once leaves. */
  lemma {:induction false} ChunksKeepResidue(codec: Codec, st: Conn, chunks: seq<string>)
    requires Framing.NoNewline(st.buffer)
    ensures Chunks(codec, st, chunks).buffer == Framing.Residue(st.buffer + Framing.Concat(chunks))
    decreases |chunks|
  {
    Framing.FeedIsChunkIndependent(st.buffer, chunks);
    if chunks == [] {
      assert Chunks(codec, st, chunks) == st;
      Framing.SplitOfLine(st.buffer);
      assert st.buffer + Framing.Concat(chunks) == st.buffer;
    } else {
      var init := Framing.Init(chunks);
      ChunksKeepResidue(codec, st, init);
      Framing.FeedIsChunkIndependent(st.buffer, init);
      ChunkKeepsResidue(codec, Chunks(codec, st, init), Framing.Last(chunks));
    }
  }

  /** Once no `start` is suspended, how stdout is cut into chunks does not
      matter: two chunks act as their concatenation. */
  lemma ChunkBoundaryIsInvisible(codec: Codec, st: Conn, c1: string, c2: string)
    requires st.awaiting == map[]
    ensures Chunk(codec, Chunk(codec, st, c1), c2) == Chunk(codec, st, c1 + c2)
  {
    var p1 := Framing.Split(st.buffer + c1);
    var a := Framing.Init(p1);
    var q := Framing.Split(Framing.Last(p1) + c2);
    assert st.buffer + (c1 + c2) == (st.buffer + c1) + c2;
    Framing.SplitConcat(st.buffer + c1, c2);
    assert Framing.Split(st.buffer + (c1 + c2)) == a + q;
    assert Framing.Init(a + q) == a + Framing.Init(q);
    assert Framing.Last(a + q) == Framing.Last(q);
    ChunkWithoutAwaiting(codec, st, c1);
    var s1 := Chunk(codec, st, c1);
    assert s1 == Dispatch(codec, st, a).(buffer := Framing.Last(p1));
    ChunkWithoutAwaiting(codec, s1, c2);
    ChunkWithoutAwaiting(codec, st, c1 + c2);
    DispatchFrame(codec, Dispatch(codec, st, a), Framing.Last(p1), Framing.Init(q));
    DispatchAppend(codec, st, a, Framing.Init(q));
  }

  /** The chunks, delivered one after another. */
  function Chunks(codec: Codec, st: Conn, chunks: seq<string>): Conn
    decreases |chunks|
  {
    if chunks == [] then st else Chunk(codec, Chunks(codec, st, Framing.Init(chunks)), Framing.Last(chunks))
  }

  /** Any number of chunks act as their concatenation. */
  lemma {:induction false} ChunksActAsConcatenation(codec: Codec, st: Conn, chunks: seq<string>)
    requires Inv(st) && st.awaiting == map[]
    ensures Chunks(codec, st, chunks) == Chunk(codec, st, Framing.Concat(chunks))
    decreases |chunks|
  {
    if chunks == [] {
      Framing.SplitOfLine(st.buffer);
      assert st.buffer + "" == st.buffer;
      ChunkWithoutAwaiting(codec, st, "");
      assert st.(buffer := st.buffer) == st;
    } else {
      var init := Framing.Init(chunks);
      ChunksActAsConcatenation(codec, st, init);
      ChunkBoundaryIsInvisible(codec, st, Framing.Concat(init), Framing.Last(chunks));
    }
  }

  /** A server whose only lines are "a", answering request 1, and "b",
      answering request 2, each with an empty result. */
  function RaceCodec(): Codec {
    Codec(
      (line: string) =>
        if line == "a" then Some(RpcResponse(JNum(1), Some(JObj([])), None))
        else if line == "b" then Some(RpcResponse(JNum(2), Some(JObj([])), None))
        else None,
      (r: RpcRequest) => "request",
      (o: Option<Json>) => Some([]))
  }

  /** A fresh connection just started: `initialize` is request 1. */
  function RaceStart(): Conn {
    Start(RaceCodec(), Initial(), "s", Spawned).0
  }

  /** The same connection once `initialize` is answered and `tools/list` is
      sent as request 2. */
  function RaceAfterInitialize(): Conn {
    Conn(true, Initializing, [], "", 3, [2], map[2 := "tools/list"], map[2 := AwaitToolsList],
         ["request\n", "request\n"], [Resolved(1, Some(JObj([])))], [], [StatusChanged(Initializing)])
  }

  lemma SplitOfOneLine(l: string)
    requires Framing.NoNewline(l)
    ensures Framing.Split(l + "\n") == [l, ""]
  {
    Framing.LineThenNewline(l);
    assert Framing.Split(l + "\n") == Framing.CompleteLines(l + "\n") + [Framing.Residue(l + "\n")];
  }

  lemma SplitOfTwoLines(l1: string, l2: string)
    requires Framing.NoNewline(l1) && Framing.NoNewline(l2)
    ensures Framing.Split((l1 + "\n") + (l2 + "\n")) == [l1, l2, ""]
  {
    Framing.SplitConcat(l1 + "\n", l2 + "\n");
    Framing.LineThenNewline(l1);
    assert Framing.Residue(l1 + "\n") + (l2 + "\n") == l2 + "\n";
    SplitOfOneLine(l2);
  }

  lemma RaceSplits()
    ensures Framing.Split("a\n") == ["a", ""] && Framing.Split("b\n") == ["b", ""]
    ensures Framing.Split("a\n" + "b\n") == ["a", "b", ""]
  {
    assert "a" + "\n" == "a\n" && "b" + "\n" == "b\n";
    SplitOfOneLine("a");
    SplitOfOneLine("b");
    SplitOfTwoLines("a", "b");
  }

  lemma RaceLinesAreNotBlank()
    ensures !Framing.IsBlank("a") && !Framing.IsBlank("b")
  {
    assert !Framing.IsJsWhitespace("a"[0]);
    assert !Framing.IsJsWhitespace("b"[0]);
  }

  lemma RaceStarted()
    ensures RaceStart() == Conn(true, Initializing, [], "", 2, [1], map[1 := "initialize"], map[1 := AwaitInitialize],
                                ["request\n"], [], [], [StatusChanged(Initializing)])
  {
    assert RaceCodec().stringify(RpcRequest(JSONRPC_VERSION, 1, "initialize", InitializeParams())) + "\n" == "request\n";
  }

  /** A chunk of whole lines on an empty buffer dispatches those lines and
      then wakes the continuations of what they settled. */
  lemma ChunkOfWholeLines(codec: Codec, st: Conn, chunk: string, lines: seq<string>)
    requires st.buffer == "" && Framing.Split(chunk) == lines + [""]
    ensures Chunk(codec, st, chunk)
         == Continuations(codec, Dispatch(codec, st, lines), Dispatch(codec, st, lines).settled[|st.settled|..])
  {
    assert st.buffer + chunk == chunk;
    assert Framing.Init(lines + [""]) == lines;
    assert st.(buffer := "") == st;
  }

  /** RaceStart once its `initialize` answer is dispatched. */
  function RaceInitializeAnswered(): Conn {
    RaceStart().(pending := [], timers := map[], settled := [Resolved(1, Some(JObj([])))])
  }

  lemma RaceDispatch()
    ensures Dispatch(RaceCodec(), RaceStart(), ["a"]) == RaceInitializeAnswered()
    ensures Dispatch(RaceCodec(), RaceStart(), ["a", "b"]) == RaceInitializeAnswered()
  {
    RaceStarted();
    RaceLinesAreNotBlank();
    assert Framing.Init(["a", "b"]) == ["a"] && Framing.Init(["a"]) == [];
    assert Framing.Last(["a", "b"]) == "b" && Framing.Last(["a"]) == "a";
  }

  lemma RaceContinueInitialize()
    ensures Continuations(RaceCodec(), RaceInitializeAnswered(), [Resolved(1, Some(JObj([])))]) == RaceAfterInitialize()
  {
    var codec, d1 := RaceCodec(), RaceInitializeAnswered();
    RaceStarted();
    var ss := [Resolved(1, Some(JObj([])))];
    assert Framing.Init(ss) == [] && Framing.Last(ss) == ss[0];
    assert Continuations(codec, d1, ss) == Continue(codec, d1, ss[0]);
    assert codec.stringify(RpcRequest(JSONRPC_VERSION, 2, "tools/list", JObj([]))) + "\n" == "request\n";
  }

  /** The initialize answer alone, and followed by "b" in the same chunk, both
      leave the connection waiting for `tools/list`: "b" arrived too early. */
  lemma RaceFirstChunk()
    ensures Chunk(RaceCodec(), RaceStart(), "a\n") == RaceAfterInitialize()
    ensures Chunk(RaceCodec(), RaceStart(), "a\n" + "b\n") == RaceAfterInitialize()
  {
    var codec, st := RaceCodec(), RaceStart();
    RaceStarted();
    RaceSplits();
    assert ["a", "b", ""] == ["a", "b"] + [""] && ["a", ""] == ["a"] + [""];
    ChunkOfWholeLines(codec, st, "a\n", ["a"]);
    ChunkOfWholeLines(codec, st, "a\n" + "b\n", ["a", "b"]);
    RaceDispatch();
    assert RaceInitializeAnswered().settled[|st.settled|..] == [Resolved(1, Some(JObj([])))];
    RaceContinueInitialize();
  }

  /** RaceAfterInitialize once the answer "b" to `tools/list` is dispatched. */
  function RaceToolsListAnswered(): Conn {
    RaceAfterInitialize().(pending := [], timers := map[],
                           settled := RaceAfterInitialize().settled + [Resolved(2, Some(JObj([])))])
  }

  lemma RaceDispatchToolsList()
    ensures Dispatch(RaceCodec(), RaceAfterInitialize(), ["b"]) == RaceToolsListAnswered()
  {
    RaceLinesAreNotBlank();
    assert Framing.Init(["b"]) == [] && Framing.Last(["b"]) == "b";
  }

  lemma RaceContinueToolsList()
    ensures Continuations(RaceCodec(), RaceToolsListAnswered(), [Resolved(2, Some(JObj([])))]).status == Ready
  {
    var codec, e1 := RaceCodec(), RaceToolsListAnswered();
    var ss := [Resolved(2, Some(JObj([])))];
    assert Framing.Init(ss) == [] && Framing.Last(ss) == ss[0];
    assert Continuations(codec, e1, ss) == Continue(codec, e1, ss[0]);
    assert codec.decodeTools(Some(JObj([]))) == Some([]);
  }

  lemma RaceSecondChunk()
    ensures Chunk(RaceCodec(), RaceAfterInitialize(), "b\n").status == Ready
  {
    var codec, st := RaceCodec(), RaceAfterInitialize();
    RaceSplits();
    assert ["b", ""] == ["b"] + [""];
    ChunkOfWholeLines(codec, st, "b\n", ["b"]);
    RaceDispatchToolsList();
    assert RaceToolsListAnswered().settled[|st.settled|..] == [Resolved(2, Some(JObj([])))];
    RaceContinueToolsList();
  }

  /** While a `start` is suspended, chunk boundaries do matter. When the
      `initialize` answer and the answer to the id `tools/list` will take
      arrive in one chunk, the second line is dispatched before the
      continuation sends `tools/list`, so it is dropped as unknown; in two
      chunks it answers `tools/list` and the server becomes ready. */
  lemma SuspendedStartSeesChunkBoundaries()
    ensures Chunk(RaceCodec(), RaceStart(), "a\n" + "b\n").status == Initializing
    ensures Chunk(RaceCodec(), Chunk(RaceCodec(), RaceStart(), "a\n"), "b\n").status == Ready
  {
    RaceFirstChunk();
    RaceSecondChunk();
  }

  // ---------------------------------------------------------------------
  // stop and exit

  /** Without a process, the continuations of rejections only fail the
      suspended `start` calls they reach: each is woken once, and the status
      ends as error when one was reached. */
  lemma {:induction false} RejectionContinuations(codec: Codec, st: Conn, ss: seq<Settlement>)
    requires !st.running
    requires forall i :: 0 <= i < |ss| ==> ss[i].Rejected?
    ensures var st' := Continuations(codec, st, ss);
      && st'.awaiting == st.awaiting - SettledIds(ss)
      && st'.status == (if exists i :: 0 <= i < |ss| && ss[i].id in st.awaiting then Error else st.status)
      && st'.pending == st.pending && st'.timers == st.timers
      && st'.outbox == st.outbox && st'.tools == st.tools
    decreases |ss|
  {
    if ss != [] {
      var init := Framing.Init(ss);
      var s := Framing.Last(ss);
      RejectionContinuations(codec, st, init);
      assert SettledIds(ss) == SettledIds(init) + {s.id} by {
        assert forall i :: 0 <= i < |init| ==> ss[i] == init[i];
      }
      if s.id in st.awaiting && s.id in SettledIds(init) {
        var j :| 0 <= j < |init| && init[j].id == s.id;
        assert ss[j] == init[j];
      }
    }
  }

  /** stop rejects every pending call with the stopping message, in the
      table's order, disarms their timers and empties the table; the status
      ends disconnected, or error when it woke a suspended `start`; a second
      stop changes nothing. */
  lemma StopRejectsEveryPendingCall(codec: Codec, st: Conn)
    requires Inv(st) && st.running
    ensures var st' := Stop(codec, st);
      && st'.settled == st.settled + Rejections(st.pending)
      && st'.pending == [] && st'.timers == st.timers - IdSet(st.pending)
      && !st'.running && st'.buffer == ""
      && st'.awaiting == st.awaiting - IdSet(st.pending)
      && st'.status == (if exists i :: 0 <= i < |st.pending| && st.pending[i] in st.awaiting then Error else Disconnected)
      && Inv(st')
      && Stop(codec, st') == st'
  {
    StopPreservesInv(codec, st);
    var rs := Rejections(st.pending);
    var st0 := st.(settled := st.settled + rs, timers := st.timers - IdSet(st.pending), pending := []);
    RejectionContinuations(codec, Cleanup(st0), rs);
    if exists i :: 0 <= i < |st.pending| && st.pending[i] in st.awaiting {
      var i :| 0 <= i < |st.pending| && st.pending[i] in st.awaiting;
      assert rs[i].id in st.awaiting;
    }
    if exists i :: 0 <= i < |rs| && rs[i].id in st.awaiting {
      var i :| 0 <= i < |rs| && rs[i].id in st.awaiting;
      assert st.pending[i] in st.awaiting;
    }
  }

  /** On exit the table is emptied but nothing is rejected and no timer is
      disarmed: each call that was pending is later rejected by its own
      time-out timer. */
  lemma ExitLeavesTimersArmed(codec: Codec, st: Conn, code: Option<int>, signal: Option<string>)
    requires Inv(st)
    ensures var st' := Exit(st, code, signal);
      && st'.pending == [] && !st'.running && st'.status == Disconnected
      && st'.settled == st.settled && st'.timers == st.timers
      && Inv(st')
      && (forall i :: 0 <= i < |st.pending| ==>
            Timeout(codec, st', st.pending[i]).settled
              == st.settled + [Rejected(st.pending[i], TimedOut(st.timers[st.pending[i]]))])
  {
    ExitPreservesInv(st, code, signal);
    var st' := Exit(st, code, signal);
    forall i | 0 <= i < |st.pending|
      ensures Timeout(codec, st', st.pending[i]).settled
              == st.settled + [Rejected(st.pending[i], TimedOut(st.timers[st.pending[i]]))]
    {
      TimeoutRejectsCall(codec, st', st.pending[i]);
    }
  }

  // ---------------------------------------------------------------------
  // start, the handshake and callTool

  /** start refuses while a process is held; a spawn that throws leaves the
      status error; otherwise `initialize` is sent with the next id and the
      call is suspended on it. */
  lemma StartOutcomes(codec: Codec, st: Conn, name: string, spawn: SpawnResult)
    requires Inv(st)
    ensures var (st', r) := Start(codec, st, name, spawn);
      && Inv(st')
      && (st.running ==> st' == st && r == Failure(AlreadyRunning(name)))
      && (!st.running && spawn.SpawnThrew? ==>
            && !st'.running && st'.status == Error && r == Failure(spawn.message)
            && st'.events == st.events + [StatusChanged(Initializing), ErrorEvent(spawn.message), StatusChanged(Error)]
            && st'.outbox == st.outbox)
      && (!st.running && spawn.Spawned? ==>
            && st'.running && st'.status == Initializing && r == Success(())
            && st'.pending == [st.requestId]
            && st'.awaiting == st.awaiting[st.requestId := AwaitInitialize]
            && st'.outbox == st.outbox + [codec.stringify(RpcRequest(JSONRPC_VERSION, st.requestId, "initialize", InitializeParams())) + "\n"])
  {
    StartPreservesInv(codec, st, name, spawn);
  }

  /** The response to `initialize` arrives as one line with a result: the
      suspended start sends `tools/list` with the next id and waits on it. */
  lemma InitializeAnswered(codec: Codec, st: Conn, id: int, line: string, result: Json)
    requires Inv(st) && st.running && st.buffer == ""
    requires id in st.pending && id in st.awaiting && st.awaiting[id] == AwaitInitialize
    requires Framing.NoNewline(line) && !Framing.IsBlank(line)
    requires codec.parse(line) == Some(RpcResponse(JNum(id), Some(result), None)) && result != JNull
    ensures var st' := Chunk(codec, st, line + "\n");
      && st'.settled == st.settled + [Resolved(id, Some(result))]
      && st'.awaiting == (st.awaiting - {id})[st.requestId := AwaitToolsList]
      && st'.pending == Remove(st.pending, id) + [st.requestId]
      && st'.outbox == st.outbox + [codec.stringify(RpcRequest(JSONRPC_VERSION, st.requestId, "tools/list", JObj([]))) + "\n"]
      && st'.status == st.status
  {
    OneLineChunk(codec, st, line);
    var st1 := DispatchLine(codec, st, line);
    assert st1.settled[|st.settled|..] == [Resolved(id, Some(result))];
  }

  /** The response to `tools/list` arrives as one line and its tools are
      readable: the catalogue is replaced wholesale, the status becomes
      ready and the start call succeeds. */
  lemma ToolsListAnswered(codec: Codec, st: Conn, id: int, line: string, result: Option<Json>, ts: seq<McpTool>)
    requires Inv(st) && st.buffer == ""
    requires id in st.pending && id in st.awaiting && st.awaiting[id] == AwaitToolsList
    requires Framing.NoNewline(line) && !Framing.IsBlank(line)
    requires codec.parse(line) == Some(RpcResponse(JNum(id), result, None))
    requires codec.decodeTools(result) == Some(ts)
    ensures var st' := Chunk(codec, st, line + "\n");
      && st'.settled == st.settled + [Resolved(id, result)]
      && st'.tools == ts && st'.status == Ready
      && st'.events == st.events + [ReadyEvent, StatusChanged(Ready)]
      && st'.startLog == st.startLog + [StartSucceeded]
      && st'.awaiting == st.awaiting - {id}
  {
    OneLineChunk(codec, st, line);
    var st1 := DispatchLine(codec, st, line);
    assert st1.settled[|st.settled|..] == [Resolved(id, result)];
  }

  /** An error response to a handshake request fails the start call with
      the server's message, and the status becomes error. */
  lemma HandshakeErrorFailsStart(codec: Codec, st: Conn, id: int, line: string, e: RpcError)
    requires Inv(st) && st.buffer == ""
    requires id in st.pending && id in st.awaiting
    requires Framing.NoNewline(line) && !Framing.IsBlank(line)
    requires codec.parse(line).Some? && codec.parse(line).value.id == JNum(id) && codec.parse(line).value.error == Some(e)
    ensures var st' := Chunk(codec, st, line + "\n");
      && st'.settled == st.settled + [Rejected(id, McpErrorMessage(e))]
      && st'.status == Error
      && st'.startLog == st.startLog + [StartFailed(McpErrorMessage(e))]
      && st'.awaiting == st.awaiting - {id}
  {
    OneLineChunk(codec, st, line);
    var st1 := DispatchLine(codec, st, line);
    assert st1.settled[|st.settled|..] == [Rejected(id, McpErrorMessage(e))];
  }

  /** callTool refuses unless the status is ready, leaving the state as it
      was; otherwise it sends `tools/call` with the tool's name and
      arguments. */
  lemma CallToolOnlyWhenReady(codec: Codec, st: Conn, serverName: string, toolName: string, args: Json)
    requires Inv(st)
    ensures var (st', r) := CallTool(codec, st, serverName, toolName, args);
      && Inv(st')
      && (st.status != Ready ==> st' == st && r == Failure(NotReady(serverName, st.status)))
      && (st.status == Ready && st.running ==>
            && r == Success(st.requestId)
            && st'.pending == st.pending + [st.requestId]
            && st'.outbox == st.outbox + [codec.stringify(RpcRequest(JSONRPC_VERSION, st.requestId, "tools/call",
                                                 JObj([("name", JStr(toolName)), ("arguments", args)]))) + "\n"])
  {
    CallToolPreservesInv(codec, st, serverName, toolName, args);
  }

  // ---------------------------------------------------------------------
  // Any sequence of events

  /** One event the event loop may deliver. */
  datatype Input =
    | StartIn(spawn: SpawnResult)
    | ChunkIn(chunk: string)
    | TimeoutIn(id: int)
    | StopIn
    | ExitIn(code: Option<int>, signal: Option<string>)
    | ErrorIn(message: string)
    | CallIn(toolName: string, args: Json)

  function Apply(codec: Codec, name: string, st: Conn, input: Input): Conn {
    match input
    case StartIn(spawn) => Start(codec, st, name, spawn).0
    case ChunkIn(chunk) => Chunk(codec, st, chunk)
    case TimeoutIn(id) => Timeout(codec, st, id)
    case StopIn => Stop(codec, st)
    case ExitIn(code, signal) => Exit(st, code, signal)
    case ErrorIn(message) => ProcessError(st, message)
    case CallIn(toolName, args) => CallTool(codec, st, name, toolName, args).0
  }

  function Run(codec: Codec, name: string, st: Conn, inputs: seq<Input>): Conn
    decreases |inputs|
  {
    if inputs == [] then st else Apply(codec, name, Run(codec, name, st, Framing.Init(inputs)), Framing.Last(inputs))
  }

  lemma ApplyPreservesInv(codec: Codec, name: string, st: Conn, input: Input)
    requires Inv(st)
    ensures Inv(Apply(codec, name, st, input))
    ensures st.settled <= Apply(codec, name, st, input).settled
    ensures st.requestId <= Apply(codec, name, st, input).requestId
  {
    match input
    case StartIn(spawn) => StartPreservesInv(codec, st, name, spawn);
    case ChunkIn(chunk) => ChunkPreservesInv(codec, st, chunk);
    case TimeoutIn(id) => TimeoutPreservesInv(codec, st, id);
    case StopIn => StopPreservesInv(codec, st);
    case ExitIn(code, signal) => ExitPreservesInv(st, code, signal);
    case ErrorIn(message) => ProcessErrorPreservesInv(st, message);
    case CallIn(toolName, args) => CallToolPreservesInv(codec, st, name, toolName, args);
  }

  /** From a fresh connection, whatever the events: one line is written per
      id taken, ids are never reused, every call is settled at most once and
      only after it was issued, the settlement log only grows, and every
      issued call is either settled or still has an armed timer. */
  lemma {:induction false} RunKeepsTableDiscipline(codec: Codec, name: string, inputs: seq<Input>)
    ensures Inv(Run(codec, name, Initial(), inputs))
    decreases |inputs|
  {
    if inputs != [] {
      RunKeepsTableDiscipline(codec, name, Framing.Init(inputs));
      ApplyPreservesInv(codec, name, Run(codec, name, Initial(), Framing.Init(inputs)), Framing.Last(inputs));
    }
  }
}
