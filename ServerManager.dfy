/** class MCPServerManager: the connection engine as an object whose
    handlers update its fields in place. Every method is proved to move the
    object's state exactly as the matching function of module Connection
    does, and to keep the invariant `Connection.Inv`. */
module ServerManager {
  import opened Wrappers
  import opened Json
  import opened McpTypes
  import opened Connection
  import ConnectionInv
  import Framing

  class MCPServerManager {
    const config: ServerConfig
    const codec: Codec

    /** `process !== null` */
    var running: bool
    var status: Status
    var tools: seq<McpTool>
    var buffer: string
    var requestId: int
    /** The keys of the pending-request table, in insertion order. */
    var pending: seq<int>
    /** The armed time-out timers, by request id. */
    var timers: map<int, string>
    /** The suspended `start` calls, by the request id they await. */
    var awaiting: map<int, Phase>
    /** What was written to the process's stdin. */
    var outbox: seq<string>
    /** The request promises settled so far. */
    var settled: seq<Settlement>
    /** The `start` promises settled after their handshake. */
    var startLog: seq<StartOutcome>
    /** What was emitted. */
    var events: seq<Event>

    function State(): Conn
      reads this
    {
      Conn(running, status, tools, buffer, requestId, pending, timers, awaiting, outbox, settled, startLog, events)
    }

    ghost predicate Valid()
      reads this
    {
      Inv(State())
    }

    constructor(config: ServerConfig, codec: Codec)
      ensures this.config == config && this.codec == codec
      ensures State() == Initial() && Valid()
    {
      this.config := config;
      this.codec := codec;
      running := false;
      status := Disconnected;
      tools := [];
      buffer := "";
      requestId := 1;
      pending := [];
      timers := map[];
      awaiting := map[];
      outbox := [];
      settled := [];
      startLog := [];
      events := [];
      new;
      ConnectionInv.InitialSatisfiesInv();
    }

    /** sendRequest: the id taken, or the rejection when no process is held. */
    method SendRequest(methodName: string, params: Json) returns (r: Result<int, string>)
      modifies this
      ensures (State(), r) == Send(codec, old(State()), methodName, params)
    {
      if !running {
        return Failure(PROCESS_NOT_AVAILABLE);
      }
      var id := requestId;
      requestId := requestId + 1;
      timers := timers[id := methodName];
      pending := pending + [id];
      outbox := outbox + [codec.stringify(RpcRequest(JSONRPC_VERSION, id, methodName, params)) + "\n"];
      r := Success(id);
    }

    method HandleResponse(response: RpcResponse)
      modifies this
      ensures State() == Connection.HandleResponse(old(State()), response)
    {
      if !(response.id.JNum? && response.id.n in pending) {
        return;
      }
      var id := response.id.n;
      pending := Remove(pending, id);
      timers := timers - {id};
      if response.error.Some? {
        settled := settled + [Rejected(id, McpErrorMessage(response.error.value))];
      } else {
        settled := settled + [Resolved(id, response.result)];
      }
    }

    /** The catch block of `start`. */
    method FailStart(message: string)
      modifies this
      ensures State() == Connection.FailStart(old(State()), message)
    {
      status := Error;
      events := events + [ErrorEvent(message), StatusChanged(Error)];
      startLog := startLog + [StartFailed(message)];
    }

    /** Resume the `start` call suspended on the settled request, if any. */
    method Resume(s: Settlement)
      modifies this
      ensures State() == Continue(codec, old(State()), s)
    {
      if s.id !in awaiting {
        return;
      }
      var phase := awaiting[s.id];
      awaiting := awaiting - {s.id};
      match phase
      case AwaitInitialize =>
        if s.Rejected? {
          FailStart(s.message);
        } else if s.result.None? || s.result == Some(JNull) {
          FailStart(TYPE_ERROR);
        } else {
          var r := SendRequest("tools/list", JObj([]));
          if r.Success? {
            awaiting := awaiting[r.value := AwaitToolsList];
          } else {
            FailStart(r.error);
          }
        }
      case AwaitToolsList =>
        if s.Rejected? {
          FailStart(s.message);
        } else {
          match codec.decodeTools(s.result)
          case None =>
            FailStart(TYPE_ERROR);
          case Some(ts) =>
            tools := ts;
            status := Ready;
            events := events + [ReadyEvent, StatusChanged(Ready)];
            startLog := startLog + [StartSucceeded];
        }
    }

    /** The microtasks an event queued, run in settlement order. */
    method RunContinuations(ss: seq<Settlement>)
      modifies this
      ensures State() == Continuations(codec, old(State()), ss)
    {
      ghost var st0 := State();
      var i := 0;
      while i < |ss|
        invariant 0 <= i <= |ss|
        invariant State() == Continuations(codec, st0, ss[..i])
      {
        assert Framing.Init(ss[..i + 1]) == ss[..i] && Framing.Last(ss[..i + 1]) == ss[i];
        Resume(ss[i]);
        i := i + 1;
      }
      assert ss[..i] == ss;
    }

    /** start, up to its first suspension. */
    method Start(spawn: SpawnResult) returns (r: Result<(), string>)
      modifies this
      ensures (State(), r) == Connection.Start(codec, old(State()), config.name, spawn)
      ensures old(Valid()) ==> Valid()
    {
      ghost var st0 := State();
      if Valid() {
        ConnectionInv.StartPreservesInv(codec, st0, config.name, spawn);
      }
      if running {
        return Failure(AlreadyRunning(config.name));
      }
      status := Initializing;
      events := events + [StatusChanged(Initializing)];
      match spawn
      case SpawnThrew(m) =>
        status := Error;
        events := events + [ErrorEvent(m), StatusChanged(Error)];
        r := Failure(m);
      case Spawned =>
        running := true;
        var sent := SendRequest("initialize", InitializeParams());
        awaiting := awaiting[sent.value := AwaitInitialize];
        r := Success(());
    }

    /** processBuffer: split the buffer at '\n', keep the last piece and
        hand every complete non-blank line that parses to handleResponse. */
    method ProcessBuffer()
      modifies this
      ensures var parts := Framing.Split(old(buffer));
        State() == Dispatch(codec, old(State()).(buffer := Framing.Last(parts)), Framing.Init(parts))
    {
      var parts := Framing.Split(buffer);
      buffer := Framing.Last(parts);
      var lines := Framing.Init(parts);
      ghost var st0 := State();
      var i := 0;
      while i < |lines|
        invariant 0 <= i <= |lines|
        invariant State() == Dispatch(codec, st0, lines[..i])
      {
        assert Framing.Init(lines[..i + 1]) == lines[..i] && Framing.Last(lines[..i + 1]) == lines[i];
        var line := lines[i];
        if !Framing.IsBlank(line) {
          match codec.parse(line)
          case Some(response) =>
            HandleResponse(response);
          case None =>
        }
        i := i + 1;
      }
      assert lines[..i] == lines;
    }

    /** The stdout `data` handler. */
    method OnStdout(data: string)
      modifies this
      ensures State() == Chunk(codec, old(State()), data)
      ensures old(Valid()) ==> Valid()
    {
      ghost var st0 := State();
      if Valid() {
        ConnectionInv.ChunkPreservesInv(codec, st0, data);
      }
      var before := |settled|;
      buffer := buffer + data;
      ProcessBuffer();
      RunContinuations(settled[before..]);
    }

    /** The time-out timer of request `id` fires. */
    method OnTimeout(id: int)
      modifies this
      ensures State() == Timeout(codec, old(State()), id)
      ensures old(Valid()) ==> Valid()
    {
      if Valid() {
        ConnectionInv.TimeoutPreservesInv(codec, State(), id);
      }
      if id !in timers {
        return;
      }
      var s := Rejected(id, TimedOut(timers[id]));
      pending := Remove(pending, id);
      timers := timers - {id};
      settled := settled + [s];
      RunContinuations([s]);
    }

    method Cleanup()
      modifies this
      ensures State() == Connection.Cleanup(old(State()))
    {
      running := false;
      status := Disconnected;
      tools := [];
      buffer := "";
      pending := [];
    }

    /** The loop of `stop`: reject every pending call and disarm its timer. */
    method RejectPending() returns (rs: seq<Settlement>)
      modifies this
      ensures rs == Rejections(old(pending))
      ensures State() == old(State()).(settled := old(settled) + rs, timers := old(timers) - IdSet(old(pending)))
    {
      ghost var st0 := State();
      var ids := pending;
      var armed := timers;
      rs := [];
      for i := 0 to |ids|
        invariant State() == st0
        invariant rs == Rejections(ids[..i])
        invariant armed == timers - IdSet(ids[..i])
      {
        RejectionsStep(ids, i);
        armed := armed - {ids[i]};
        rs := rs + [Rejected(ids[i], SERVER_STOPPING)];
      }
      assert ids[..|ids|] == ids;
      timers := armed;
      settled := settled + rs;
    }

    /** stop */
    method Stop()
      modifies this
      ensures State() == Connection.Stop(codec, old(State()))
      ensures old(Valid()) ==> Valid()
    {
      if Valid() {
        ConnectionInv.StopPreservesInv(codec, State());
      }
      if !running {
        return;
      }
      var rs := RejectPending();
      pending := [];
      Cleanup();
      RunContinuations(rs);
    }

    /** The process `exit` handler. */
    method OnExit(code: Option<int>, signal: Option<string>)
      modifies this
      ensures State() == Exit(old(State()), code, signal)
      ensures old(Valid()) ==> Valid()
    {
      if Valid() {
        ConnectionInv.ExitPreservesInv(State(), code, signal);
      }
      status := Disconnected;
      events := events + [DisconnectedEvent(code, signal), StatusChanged(Disconnected)];
      Cleanup();
    }

    /** The process `error` handler. */
    method OnProcessError(message: string)
      modifies this
      ensures State() == ProcessError(old(State()), message)
      ensures old(Valid()) ==> Valid()
    {
      if Valid() {
        ConnectionInv.ProcessErrorPreservesInv(State(), message);
      }
      status := Error;
      events := events + [ErrorEvent(message), StatusChanged(Error)];
    }

    /** callTool: the id of the `tools/call` request, or why it was refused. */
    method CallTool(toolName: string, args: Json) returns (r: Result<int, string>)
      modifies this
      ensures (State(), r) == Connection.CallTool(codec, old(State()), config.name, toolName, args)
      ensures old(Valid()) ==> Valid()
    {
      if Valid() {
        ConnectionInv.CallToolPreservesInv(codec, State(), config.name, toolName, args);
      }
      if status != Ready {
        return Failure(NotReady(config.name, status));
      }
      r := SendRequest("tools/call", JObj([("name", JStr(toolName)), ("arguments", args)]));
    }
  }

  lemma RejectionsStep(ids: seq<int>, i: int)
    requires 0 <= i < |ids|
    ensures Rejections(ids[..i + 1]) == Rejections(ids[..i]) + [Rejected(ids[i], SERVER_STOPPING)]
    ensures IdSet(ids[..i + 1]) == IdSet(ids[..i]) + {ids[i]}
  {
    assert forall k :: 0 <= k < i ==> ids[..i + 1][k] == ids[..i][k];
  }
}
