/** The connection engine of one tool server (class MCPServerManager) as a
    value: its whole state is a `Conn`, and every event the JavaScript event
    loop delivers to it (start, a stdout chunk, a timer firing, stop, process
    exit, a process error, a tool call) is a function from the old state to
    the new one. The class in ServerManager.dfy is proved to follow these
    functions; the lemmas below state what the engine promises. */
module Connection {
  import opened Wrappers
  import opened Json
  import opened McpTypes
  import Framing

  // ---------------------------------------------------------------------
  // Constants of the handshake and the messages of the errors it raises

  const PROTOCOL_VERSION := "2024-11-05"
  const CLIENT_NAME := "Maidel 2.1"
  const CLIENT_VERSION := "0.1.0"
  const SERVER_STOPPING := "Server stopping"
  const PROCESS_NOT_AVAILABLE := "Server process not available"
  /** The message of the TypeError JavaScript raises when a handshake result
      is not shaped as expected (its exact text is the engine's). */
  const TYPE_ERROR := "TypeError"

  function TimedOut(methodName: string): string {
    "Request " + methodName + " timed out"
  }

  function McpErrorMessage(e: RpcError): string {
    "MCP Error: " + e.message
  }

  function AlreadyRunning(name: string): string {
    "Server " + name + " is already running"
  }

  function NotReady(name: string, s: Status): string {
    "Server " + name + " is not ready (status: " + StatusName(s) + ")"
  }

  /** The params of the `initialize` request. */
  function InitializeParams(): Json {
    JObj([
      ("protocolVersion", JStr(PROTOCOL_VERSION)),
      ("capabilities", JObj([
        ("roots", JObj([("listChanged", JBool(true))])),
        ("sampling", JObj([]))])),
      ("clientInfo", JObj([
        ("name", JStr(CLIENT_NAME)),
        ("version", JStr(CLIENT_VERSION))]))])
  }

  // ---------------------------------------------------------------------
  // State

  /** The step of `start` that is waiting for the response to a request. */
  datatype Phase = AwaitInitialize | AwaitToolsList

  /** How the promise of one request was settled. */
  datatype Settlement = Resolved(id: int, result: Option<Json>) | Rejected(id: int, message: string)

  /** How the promise returned by `start` was settled after its handshake. */
  datatype StartOutcome = StartSucceeded | StartFailed(message: string)

  /** What the connection emits to its listeners. */
  datatype Event =
    | StatusChanged(status: Status)
    | ReadyEvent
    | ErrorEvent(message: string)
    | DisconnectedEvent(code: Option<int>, signal: Option<string>)

  /** Whether `spawn` returned a process or threw. */
  datatype SpawnResult = Spawned | SpawnThrew(message: string)

  /** The foreign functions the engine calls: `JSON.parse` of one line viewed
      as a response (None when parsing throws), `JSON.stringify` of a request,
      and reading the `tools` array of a `tools/list` result (None when that
      throws). */
  datatype Codec = Codec(
    parse: string -> Option<RpcResponse>,
    stringify: RpcRequest -> string,
    decodeTools: Option<Json> -> Option<seq<McpTool>>)

  /** The connection state.
      running   -- a process handle is held (`this.process` is not null)
      status, tools, buffer, requestId -- the fields of the same names
      pending   -- the keys of the pending-request table, in insertion order
      timers    -- the armed time-out timers: request id to method name
      awaiting  -- the `start` calls suspended on a request, by request id
      outbox    -- every line written to the process's stdin
      settled   -- every request promise settled so far, in order
      startLog  -- every `start` promise settled after its handshake, in order
      events    -- everything emitted, in order */
  datatype Conn = Conn(
    running: bool,
    status: Status,
    tools: seq<McpTool>,
    buffer: string,
    requestId: int,
    pending: seq<int>,
    timers: map<int, string>,
    awaiting: map<int, Phase>,
    outbox: seq<string>,
    settled: seq<Settlement>,
    startLog: seq<StartOutcome>,
    events: seq<Event>)

  /** A freshly constructed connection. */
  function Initial(): Conn {
    Conn(false, Disconnected, [], "", 1, [], map[], map[], [], [], [], [])
  }

  predicate Increasing(s: seq<int>) {
    forall i, j :: 0 <= i < j < |s| ==> s[i] < s[j]
  }

  /** `Map.delete` on the pending table. */
  function Remove(s: seq<int>, x: int): (r: seq<int>)
    ensures forall y :: y in r <==> y in s && y != x
    ensures Increasing(s) ==> Increasing(r)
    ensures x !in s ==> r == s
  {
    if s == [] then []
    else if s[0] == x then Remove(s[1..], x)
    else
      var t := Remove(s[1..], x);
      assert Increasing(s) ==> forall k :: 0 <= k < |t| ==> s[0] < t[k] by {
        if Increasing(s) {
          forall k | 0 <= k < |t| ensures s[0] < t[k] {
            assert t[k] in s[1..];
          }
        }
      }
      [s[0]] + t
  }

  function SettledIds(ss: seq<Settlement>): set<int> {
    set i | 0 <= i < |ss| :: ss[i].id
  }

  function IdSet(s: seq<int>): set<int> {
    set i | 0 <= i < |s| :: s[i]
  }

  /** The invariant every event preserves. */
  ghost predicate Inv(st: Conn) {
    && st.requestId >= 1
    && |st.outbox| == st.requestId - 1
    && Framing.NoNewline(st.buffer)
    && Increasing(st.pending)
    && (forall i :: 0 <= i < |st.pending| ==> st.pending[i] in st.timers)
    && (forall id :: id in st.timers ==> 1 <= id < st.requestId)
    && (forall i :: 0 <= i < |st.settled| ==> 1 <= st.settled[i].id < st.requestId)
    && (forall i :: 0 <= i < |st.settled| ==> st.settled[i].id !in st.timers)
    && (forall i, j :: 0 <= i < j < |st.settled| ==> st.settled[i].id != st.settled[j].id)
    && (forall id :: 1 <= id < st.requestId && id !in st.timers ==> id in SettledIds(st.settled))
    && (!st.running ==> st.pending == [])
  }

  // ---------------------------------------------------------------------
  // Transitions

  /** The part of sendRequest that runs when a process is held: take the
      next id, arm its timer, enter it in the pending table and write the
      request as one line. */
  function Issue(codec: Codec, st: Conn, methodName: string, params: Json): (Conn, int)
    requires st.running
  {
    var id := st.requestId;
    var line := codec.stringify(RpcRequest(JSONRPC_VERSION, id, methodName, params)) + "\n";
    (st.(requestId := id + 1,
         timers := st.timers[id := methodName],
         pending := st.pending + [id],
         outbox := st.outbox + [line]),
     id)
  }

  /** sendRequest: without a process, reject before any id is taken. */
  function Send(codec: Codec, st: Conn, methodName: string, params: Json): (Conn, Result<int, string>) {
    if !st.running then (st, Failure(PROCESS_NOT_AVAILABLE))
    else
      var (st', id) := Issue(codec, st, methodName, params);
      (st', Success(id))
  }

  /** handleResponse: a response whose id is pending removes that entry,
      disarms its timer and settles exactly that call; any other response
      changes nothing. */
  function HandleResponse(st: Conn, r: RpcResponse): (st': Conn)
    ensures st.settled <= st'.settled
  {
    if r.id.JNum? && r.id.n in st.pending then
      var id := r.id.n;
      var outcome := if r.error.Some? then Rejected(id, McpErrorMessage(r.error.value)) else Resolved(id, r.result);
      st.(pending := Remove(st.pending, id),
          timers := st.timers - {id},
          settled := st.settled + [outcome])
    else st
  }

  /** One complete line of stdout: blank lines and lines that do not parse
      are dropped. */
  function DispatchLine(codec: Codec, st: Conn, line: string): (st': Conn)
    ensures st.settled <= st'.settled
  {
    if Framing.IsBlank(line) then st
    else match codec.parse(line)
      case None => st
      case Some(r) => HandleResponse(st, r)
  }

  /** The lines, in order. */
  function Dispatch(codec: Codec, st: Conn, lines: seq<string>): (st': Conn)
    ensures st.settled <= st'.settled && st'.requestId == st.requestId
    decreases |lines|
  {
    if lines == [] then st
    else DispatchLine(codec, Dispatch(codec, st, Framing.Init(lines)), Framing.Last(lines))
  }

  /** The catch block of `start`. */
  function FailStart(st: Conn, message: string): Conn {
    st.(status := Error,
        events := st.events + [ErrorEvent(message), StatusChanged(Error)],
        startLog := st.startLog + [StartFailed(message)])
  }

  /** The part of a suspended `start` that runs once the request it awaits
      is settled: after `initialize`, send `tools/list`; after `tools/list`,
      take its tools wholesale and become ready; on a rejection, fail. */
  function Continue(codec: Codec, st: Conn, s: Settlement): (st': Conn)
    ensures st'.settled == st.settled && st'.running == st.running && st'.buffer == st.buffer
    ensures st'.requestId >= st.requestId
  {
    if s.id !in st.awaiting then st
    else
      var st1 := st.(awaiting := st.awaiting - {s.id});
      match st.awaiting[s.id]
      case AwaitInitialize =>
        if s.Rejected? then FailStart(st1, s.message)
        else if s.result.None? || s.result == Some(JNull) then FailStart(st1, TYPE_ERROR)
        else
          var (st2, r) := Send(codec, st1, "tools/list", JObj([]));
          if r.Success? then st2.(awaiting := st2.awaiting[r.value := AwaitToolsList])
          else FailStart(st2, r.error)
      case AwaitToolsList =>
        if s.Rejected? then FailStart(st1, s.message)
        else match codec.decodeTools(s.result)
          case None => FailStart(st1, TYPE_ERROR)
          case Some(ts) =>
            st1.(tools := ts,
                 status := Ready,
                 events := st1.events + [ReadyEvent, StatusChanged(Ready)],
                 startLog := st1.startLog + [StartSucceeded])
  }

  /** The continuations of the settlements of one event, run after its
      handler has finished, in settlement order. */
  function Continuations(codec: Codec, st: Conn, ss: seq<Settlement>): (st': Conn)
    ensures st'.settled == st.settled && st'.running == st.running && st'.buffer == st.buffer
    ensures st'.requestId >= st.requestId
    decreases |ss|
  {
    if ss == [] then st else Continue(codec, Continuations(codec, st, Framing.Init(ss)), Framing.Last(ss))
  }

  /** start, up to its first suspension: refuse while a process is held;
      otherwise become initializing, spawn, and send `initialize`. */
  function Start(codec: Codec, st: Conn, name: string, spawn: SpawnResult): (Conn, Result<(), string>) {
    if st.running then (st, Failure(AlreadyRunning(name)))
    else
      var st1 := st.(status := Initializing, events := st.events + [StatusChanged(Initializing)]);
      match spawn
      case SpawnThrew(m) =>
        (st1.(status := Error, events := st1.events + [ErrorEvent(m), StatusChanged(Error)]), Failure(m))
      case Spawned =>
        var (st2, id) := Issue(codec, st1.(running := true), "initialize", InitializeParams());
        (st2.(awaiting := st2.awaiting[id := AwaitInitialize]), Success(()))
  }

  /** The stdout `data` handler: append the chunk, keep the text after the
      last '\n' as the buffer and dispatch every complete line. */
  function Chunk(codec: Codec, st: Conn, chunk: string): (st': Conn)
    ensures st.settled <= st'.settled && st.requestId <= st'.requestId
  {
    var parts := Framing.Split(st.buffer + chunk);
    var st1 := Dispatch(codec, st.(buffer := Framing.Last(parts)), Framing.Init(parts));
    Continuations(codec, st1, st1.settled[|st.settled|..])
  }

  /** The time-out timer of request `id` fires (a disarmed timer never does). */
  function Timeout(codec: Codec, st: Conn, id: int): (st': Conn)
    ensures st.settled <= st'.settled
  {
    if id !in st.timers then st
    else
      var s := Rejected(id, TimedOut(st.timers[id]));
      var st1 := st.(pending := Remove(st.pending, id),
                     timers := st.timers - {id},
                     settled := st.settled + [s]);
      Continuations(codec, st1, [s])
  }

  /** cleanup */
  function Cleanup(st: Conn): Conn {
    st.(running := false, status := Disconnected, tools := [], buffer := "", pending := [])
  }

  /** The rejections `stop` hands out, in the pending table's order: they
      settle exactly the pending ids, each with the stopping message, and
      each only once when the table is increasing. */
  function Rejections(ids: seq<int>): (r: seq<Settlement>)
    ensures |r| == |ids|
    ensures forall i :: 0 <= i < |ids| ==> r[i] == Rejected(ids[i], SERVER_STOPPING)
    ensures SettledIds(r) == IdSet(ids)
    ensures Increasing(ids) ==> forall i, j :: 0 <= i < j < |r| ==> r[i].id != r[j].id
  {
    var r := seq(|ids|, i requires 0 <= i < |ids| => Rejected(ids[i], SERVER_STOPPING));
    assert IdSet(ids) <= SettledIds(r) by {
      forall x | x in IdSet(ids) ensures x in SettledIds(r) {
        var k :| 0 <= k < |ids| && ids[k] == x;
        assert r[k].id == x;
      }
    }
    r
  }

  /** stop: without a process, nothing; otherwise reject every pending call,
      disarm its timer, empty the table, terminate the process and clean up. */
  function Stop(codec: Codec, st: Conn): (st': Conn)
    ensures st.settled <= st'.settled && !st'.running
  {
    if !st.running then st
    else
      var rs := Rejections(st.pending);
      var st1 := Cleanup(st.(settled := st.settled + rs, timers := st.timers - IdSet(st.pending), pending := []));
      Continuations(codec, st1, rs)
  }

  /** The process `exit` handler: disconnected, then cleanup; pending calls
      are not rejected and their timers stay armed. */
  function Exit(st: Conn, code: Option<int>, signal: Option<string>): Conn {
    Cleanup(st.(status := Disconnected,
                events := st.events + [DisconnectedEvent(code, signal), StatusChanged(Disconnected)]))
  }

  /** The process `error` handler. */
  function ProcessError(st: Conn, message: string): Conn {
    st.(status := Error, events := st.events + [ErrorEvent(message), StatusChanged(Error)])
  }

  /** callTool: refuse unless ready, otherwise send `tools/call`. */
  function CallTool(codec: Codec, st: Conn, serverName: string, toolName: string, args: Json): (Conn, Result<int, string>) {
    if st.status != Ready then (st, Failure(NotReady(serverName, st.status)))
    else Send(codec, st, "tools/call", JObj([("name", JStr(toolName)), ("arguments", args)]))
  }
}
