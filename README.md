# MCP connection layer of Maidel 2.1, in Dafny

This project models the part of the Maidel 2.1 desktop assistant that talks to Model Context Protocol tool servers. It also models the configuration store and the Claude API client helpers. It covers four parts:

- **The connection engine** (`MCPServerManager`, one per tool-server process). This is a JSON-RPC 2.0 client over newline-delimited stdio.
  - It frames stdout into lines and keeps a table of pending requests, each with a 30-second time-out timer.
  - It runs the MCP revision 2024-11-05 handshake (`initialize`, then `tools/list`) and sends `tools/call`.
  - Its state machine runs through disconnected, initializing, ready and error.
- **The pool** (`MCPClient`). This is an insertion-ordered map from server names to connections. It aggregates tools over the ready servers and routes tool calls by first match.
- **The configuration store** (`ConfigManager`): the default configuration, the recursive deep merge used by `set`, and the field setters.
- **The Claude API client helpers** (`ClaudeAPIClient`):
  - text extraction and tool-use detection on a response;
  - the tool-use loop that runs each tool call through an executor;
  - the message and tool lists of the two requests.

## How the model is built

- **Values** (`Wrappers.dfy`, `Json.dfy`, `McpTypes.dfy`):
  - JSON values, with objects as ordered field lists, since JavaScript objects iterate in insertion order.
  - The JSON-RPC request, response and error objects.
  - Tool descriptors, server configurations and status records.
- **Framing** (`Framing.dfy`) is JavaScript's `split('\n')` with "keep the last piece".
  - The lemmas prove that the lines framed, and the buffer left over, do not depend on how stdout was cut into chunks.
  - For a whole connection the buffer left over never depends on the cut. The settled calls and the state depend on it only while a `start` is suspended, as explained below.
  - Writing newline-free messages, each followed by `'\n'`, frames back into exactly those messages.
- **Connection engine as a value** (`Connection.dfy`):
  - The whole state of one connection is a `Conn`.
  - Each event the JavaScript event loop delivers is a function from the old state to the new one. The events are start, a stdout chunk, a timer firing, stop, process exit, a process error and a tool call.
  - `start` is asynchronous. Its code after each `await` is a continuation, recorded in `awaiting` under the request id it waits on.
  - A continuation runs after the handler that settled its request, in settlement order, as microtasks do.
  - The child process is reduced to `outbox`, the lines written to stdin.
  - `JSON.parse`, `JSON.stringify` and the read of `response.tools` are uninterpreted functions inside a `Codec`.
  - Settled request promises are logged in `settled`, settled `start` promises in `startLog`, and emitted events in `events`.
- **Invariant** (`ConnectionInv.dfy`): every transition preserves `Connection.Inv`, which says:
  - one stdin line per id taken;
  - ids of issued calls are below the counter;
  - the pending table is strictly increasing, and each of its ids has an armed timer;
  - each settled call is out of the timer table and settled only once;
  - every issued call is either settled or still has an armed timer.
- **Behavioural lemmas** (`ConnectionProps.dfy`) state what the engine promises. They are listed in the table below.
- **Connection class** (`ServerManager.dfy`): `MCPServerManager` has the source's fields, and its handlers update them in place.
  - Each method is proved to move `State()` exactly as the matching function of `Connection` does.
  - Each public handler also keeps the invariant.
- **Pool class** (`Client.dfy`): `MCPClient` holds a sequence of (name, connection) pairs. Its lookups are functions of the pool's view, the name and state of each connection.
- **Configuration store** (`Config.dfy`): the store, plus `AliasedStore`, a model of the object sharing the store really performs. See Findings.
- **Claude API helpers** (`ClaudeApi.dfy`): the response queries, the tool-use loop, and request building.

Three behaviours of the code differ from what one might expect. All three are part of the model:

- **A process exit does not reject pending calls.** `cleanup` clears the pending table but never calls `clearTimeout`. Each call that was pending when the process exited is therefore rejected 30 seconds later by its own timer, with `Request <method> timed out`. It does not hang forever (`ConnectionProps.ExitLeavesTimersArmed`). Because of this, the engine keeps its armed timers separately from the pending table.
- **While a `start` is suspended, chunk boundaries matter.** Suppose the answer to `initialize` and the answer for the id that `tools/list` will take arrive in one chunk. The second line is dispatched in the same handler, before the continuation of `start` has sent `tools/list`, so it is dropped as an unknown id. Arriving as two chunks, the same lines would make the server ready (`ConnectionProps.SuspendedStartSeesChunkBoundaries`). Once no `start` is suspended, chunks act as their concatenation.
- **`stop` during the handshake leaves the status `error`.** The suspended `start` is rejected with `Server stopping`. Its catch block runs as a microtask after `stop` has finished, so it overwrites the `disconnected` status that `cleanup` set.

## Model

| member | source | states |
|---|---|---|
| Framing.Split | src/main/mcp/server-manager.ts:233 | `split('\n')` always yields at least one piece |
| Framing.SplitPiecesHaveNoNewline | src/main/mcp/server-manager.ts:233 | no piece of a split contains a newline |
| Framing.JoinSplit | src/main/mcp/server-manager.ts:233 | joining the pieces with `'\n'` gives back the text |
| Framing.SplitOfLine | src/main/mcp/server-manager.ts:233 | a newline-free text splits into itself alone |
| Framing.ResidueIsAfterLastNewline | src/main/mcp/server-manager.ts:233-234 | the kept buffer is the text after the last `'\n'`: it has no newline, ends the text, and is either the whole text or preceded by `'\n'` |
| Framing.SplitConcat | src/main/mcp/server-manager.ts:87-90 | splitting `a + b` yields the complete lines of `a`, and then the split of `a`'s residue with `b` |
| Framing.CompleteLines | src/main/mcp/server-manager.ts:233-234 | definition of the lines the loop walks, every piece of `split('\n')` but the last; see Framing.SplitConcat and Framing.FeedIsChunkIndependent |
| Framing.Residue | src/main/mcp/server-manager.ts:233-234 | definition of `lines.pop() \|\| ''`, the last piece; see Framing.ResidueIsAfterLastNewline |
| Framing.IsBlank | src/main/mcp/server-manager.ts:237 | definition of the falsy `line.trim()` test, over JavaScript's whitespace set; see ConnectionProps.DispatchSkipsBlankLines |
| Framing.NonBlank | src/main/mcp/server-manager.ts:236-237 | no line handed to the parser is blank after trimming |
| Framing.NonBlankConcat | src/main/mcp/server-manager.ts:236-237 | the lines kept from two groups of lines are those kept from each, in order |
| Framing.FeedIsChunkIndependent | src/main/mcp/server-manager.ts:232-234 | feeding chunks one by one yields the same complete lines, and leaves the same buffer, as feeding their concatenation |
| Framing.TerminatedRoundTrip | src/main/mcp/server-manager.ts:225-234 | newline-free messages, each written with `'\n'`, frame back into exactly those messages with an empty buffer |
| Json.Truthy | src/main/security/config.ts:187-188 | definition of JavaScript truthiness, as `source[key] &&` and `target[key] \|\| {}` use it here and `content.name && content.id` and `content.input \|\| {}` use it at src/main/claude/api.ts lines 151 and 155; see Config.MergeTakesSourceValue and ClaudeApi.ResultForAnswers |
| Connection.Initial | src/main/mcp/server-manager.ts:18-28 | definition of the field initialisers: no process, counter 1, empty table and buffer, `disconnected`, no tools; see ConnectionInv.InitialSatisfiesInv |
| Connection.Remove | src/main/mcp/server-manager.ts:255 | `Map.delete` removes exactly that id, keeps the table increasing, and is a no-op on an absent id |
| Connection.HandleResponse | src/main/mcp/server-manager.ts:248-271 | handling a response never un-settles a call |
| Connection.Dispatch | src/main/mcp/server-manager.ts:236-245 | dispatching lines takes no id and only adds to the settled calls |
| Connection.Continue | src/main/mcp/server-manager.ts:114-127 | resuming `start` settles no call, keeps the process and buffer, and never lowers the id counter; a `tools/list` result whose tools cannot be read fails start and keeps the old tools (see Left out) |
| Connection.Chunk | src/main/mcp/server-manager.ts:87-90 | a stdout chunk only adds to the settled calls and never lowers the id counter |
| Connection.Timeout | src/main/mcp/server-manager.ts:218-221 | a firing timer only adds to the settled calls |
| Connection.Rejections | src/main/mcp/server-manager.ts:138-141 | the calls stop rejects are exactly the pending ids, each with `Server stopping`, in table order, and each only once because the table is increasing; `ConnectionProps.StopRejectsEveryPendingCall` appends them to the settled calls |
| Connection.Stop | src/main/mcp/server-manager.ts:130-153 | stop only adds to the settled calls and leaves no process |
| Connection.Issue | src/main/mcp/server-manager.ts:210-226 | definition of sendRequest with a process; see ConnectionInv.IssueTakesFreshId and ConnectionProps.SendIssuesOneRequest |
| Connection.Send | src/main/mcp/server-manager.ts:203-230 | definition of sendRequest; see ConnectionProps.SendIssuesOneRequest |
| Connection.DispatchLine | src/main/mcp/server-manager.ts:237-243 | one complete line never un-settles a call; see ConnectionProps.DroppedLineChangesNothing |
| Connection.FailStart | src/main/mcp/server-manager.ts:121-126 | definition of the catch block of start; see ConnectionProps.HandshakeErrorFailsStart |
| Connection.Continuations | src/main/mcp/server-manager.ts:114-127 | the woken continuations settle no call, keep the process and the buffer, and never lower the id counter |
| Connection.Start | src/main/mcp/server-manager.ts:65-114 | definition of start up to its first await; see ConnectionProps.StartOutcomes |
| Connection.Cleanup | src/main/mcp/server-manager.ts:273-279 | definition of cleanup; see ConnectionInv.CleanupPreservesInv and ConnectionProps.ExitLeavesTimersArmed |
| Connection.Exit | src/main/mcp/server-manager.ts:105-111 | definition of the exit handler; see ConnectionProps.ExitLeavesTimersArmed |
| Connection.ProcessError | src/main/mcp/server-manager.ts:98-103 | definition of the error handler; see ConnectionInv.ProcessErrorPreservesInv |
| Connection.CallTool | src/main/mcp/server-manager.ts:155-171 | definition of callTool; see ConnectionProps.CallToolOnlyWhenReady |
| ConnectionInv.InitialSatisfiesInv | src/main/mcp/server-manager.ts:18-28 | a fresh connection satisfies the table discipline |
| ConnectionInv.IssueTakesFreshId | src/main/mcp/server-manager.ts:210-223 | the id taken equals the counter, is in no table, was never settled, and is above every pending id; the invariant survives |
| ConnectionInv.SendPreservesInv | src/main/mcp/server-manager.ts:203-230 | sendRequest keeps the invariant |
| ConnectionInv.HandleResponsePreservesInv | src/main/mcp/server-manager.ts:248-271 | handleResponse keeps the invariant |
| ConnectionInv.DispatchPreservesInv | src/main/mcp/server-manager.ts:232-246 | processBuffer's loop keeps the invariant |
| ConnectionInv.ContinuePreservesInv | src/main/mcp/server-manager.ts:114-127 | resuming a suspended start keeps the invariant |
| ConnectionInv.ContinuationsPreserveInv | src/main/mcp/server-manager.ts:114-127 | running the queued continuations keeps the invariant |
| ConnectionInv.StartPreservesInv | src/main/mcp/server-manager.ts:65-128 | start keeps the invariant |
| ConnectionInv.ChunkPreservesInv | src/main/mcp/server-manager.ts:87-90 | a stdout chunk keeps the invariant |
| ConnectionInv.TimeoutPreservesInv | src/main/mcp/server-manager.ts:218-221 | a time-out keeps the invariant |
| ConnectionInv.CleanupPreservesInv | src/main/mcp/server-manager.ts:273-279 | cleanup keeps the invariant |
| ConnectionInv.StopPreservesInv | src/main/mcp/server-manager.ts:130-153 | stop keeps the invariant |
| ConnectionInv.ExitPreservesInv | src/main/mcp/server-manager.ts:105-111 | a process exit keeps the invariant |
| ConnectionInv.ProcessErrorPreservesInv | src/main/mcp/server-manager.ts:98-103 | a process error keeps the invariant |
| ConnectionInv.CallToolPreservesInv | src/main/mcp/server-manager.ts:155-171 | callTool keeps the invariant |
| ConnectionProps.SendIssuesOneRequest | src/main/mcp/server-manager.ts:203-230 | with a process, sendRequest: <br>• takes the counter as a fresh id and increments the counter <br>• appends the id to the table after every older id and arms its timer with the method name <br>• writes the encoded request plus `'\n'` <br>• settles nothing <br>Without a process it rejects with `Server process not available` and consumes no id |
| ConnectionProps.SettledCallIsOutOfTable | src/main/mcp/server-manager.ts:249-256 | a call settled by a response, a time-out or stop is out of the table: a response with its id and its timer both change nothing |
| ConnectionProps.ResponseSettlesItsCall | src/main/mcp/server-manager.ts:248-270 | a response changes the state exactly when its id is a pending number. It then: <br>• settles that call: rejected with `MCP Error: <message>` on an error, otherwise resolved with `result` <br>• removes only that entry <br>A second copy of the response, and the call's timer, then change nothing |
| ConnectionProps.TimeoutRejectsCall | src/main/mcp/server-manager.ts:218-221 | an armed timer rejects its call with `Request <method> timed out` and removes its entry |
| ConnectionProps.LateResponseAfterTimeoutIsDropped | src/main/mcp/server-manager.ts:249-253 | after a time-out, the response to that call falls into the unknown-id case |
| ConnectionProps.DispatchAppend | src/main/mcp/server-manager.ts:236-245 | dispatching `a + b` dispatches `a` and then `b` |
| ConnectionProps.DispatchSkipsBlankLines | src/main/mcp/server-manager.ts:236-237 | dispatching the lines is dispatching their non-blank ones: blank lines never reach the parser |
| ConnectionProps.DroppedLineChangesNothing | src/main/mcp/server-manager.ts:237-243 | a blank line, or one that does not parse, is dropped wherever it falls, without affecting the lines around it |
| ConnectionProps.GarbageLineIsDropped | src/main/mcp/server-manager.ts:237-243 | a whole chunk holding one unreadable line changes nothing |
| ConnectionProps.ChunkWithoutAwaiting | src/main/mcp/server-manager.ts:232-234 | with no suspended start, a chunk dispatches the complete lines of buffer + chunk and keeps what follows the last newline |
| ConnectionProps.ChunkKeepsResidue | src/main/mcp/server-manager.ts:87-90 | in every state, a chunk leaves as the buffer the text after the last newline of the old buffer plus the chunk |
| ConnectionProps.ChunksKeepResidue | src/main/mcp/server-manager.ts:87-90 | in every state with a newline-free buffer, the buffer after any number of chunks is the text after the last newline of the old buffer plus their concatenation |
| ConnectionProps.ChunkBoundaryIsInvisible | src/main/mcp/server-manager.ts:232-246 | while no start is suspended, two chunks act as their concatenation |
| ConnectionProps.ChunksActAsConcatenation | src/main/mcp/server-manager.ts:232-246 | while no start is suspended, any number of chunks act as their concatenation |
| ConnectionProps.SuspendedStartSeesChunkBoundaries | src/main/mcp/server-manager.ts:114-115 | while start is suspended on `initialize`, its answer and the answer to the coming `tools/list` in one chunk leave the server initializing, and in two chunks make it ready |
| ConnectionProps.RejectionContinuations | src/main/mcp/server-manager.ts:121-127 | with no process, waking suspended starts by rejections only fails them (status error) and sends nothing |
| ConnectionProps.StopRejectsEveryPendingCall | src/main/mcp/server-manager.ts:130-153 | stop: <br>• rejects every pending call with `Server stopping`, in table order <br>• disarms their timers and empties the table <br>• leaves no process and an empty buffer <br>• ends `disconnected`, or `error` when it woke a suspended start <br>A second stop is a no-op |
| ConnectionProps.ExitLeavesTimersArmed | src/main/mcp/server-manager.ts:105-111 | exit empties the table and ends `disconnected` without rejecting anything. Each call that was pending is later rejected by its own timer |
| ConnectionProps.StartOutcomes | src/main/mcp/server-manager.ts:65-127 | start throws while a process is held, whatever the status. A throwing spawn leaves status `error` with the error emitted. Otherwise the status becomes `initializing` and `initialize`, with its params, is sent with the next id |
| ConnectionProps.InitializeAnswered | src/main/mcp/server-manager.ts:114-115 | the response to `initialize` resolves it, and start goes on to send `tools/list` with the next id |
| ConnectionProps.ToolsListAnswered | src/main/mcp/server-manager.ts:115-119 | the response to `tools/list` replaces the tools wholesale, sets status `ready`, emits `ready` and `statusChanged`, and resolves start |
| ConnectionProps.HandshakeErrorFailsStart | src/main/mcp/server-manager.ts:121-127 | an error response to a handshake request rejects start with `MCP Error: <message>` and the status becomes `error` |
| ConnectionProps.CallToolOnlyWhenReady | src/main/mcp/server-manager.ts:155-171 | callTool refuses unless ready: it throws `Server <name> is not ready (status: <status>)` and changes nothing. Otherwise it sends `tools/call` with the name and arguments |
| ConnectionProps.ApplyPreservesInv | src/main/mcp/server-manager.ts:65-279 | every event keeps the invariant, only adds to the settled calls, and never lowers the id counter |
| ConnectionProps.RunKeepsTableDiscipline | src/main/mcp/server-manager.ts:203-256 | from a fresh connection, any sequence of events keeps the table discipline: fresh, increasing ids; each call settled at most once, by a response, a time-out or stop |
| ServerManager.MCPServerManager.constructor | src/main/mcp/server-manager.ts:18-33 | a new connection is disconnected, with no process, no tools, an empty buffer and the counter at 1 |
| ServerManager.MCPServerManager.SendRequest | src/main/mcp/server-manager.ts:203-230 | updates the fields as `Connection.Send` says, returning the id or the rejection |
| ServerManager.MCPServerManager.HandleResponse | src/main/mcp/server-manager.ts:248-271 | updates the fields as `Connection.HandleResponse` says |
| ServerManager.MCPServerManager.Resume | src/main/mcp/server-manager.ts:114-127 | runs the code of `start` after the awaited request, as `Connection.Continue` says, with the same gap on an unreadable `tools/list` result (see Left out) |
| ServerManager.MCPServerManager.RunContinuations | src/main/mcp/server-manager.ts:114-127 | runs the queued continuations in settlement order |
| ServerManager.MCPServerManager.Start | src/main/mcp/server-manager.ts:65-128 | updates the fields as `Connection.Start` says and keeps the invariant |
| ServerManager.MCPServerManager.ProcessBuffer | src/main/mcp/server-manager.ts:232-246 | keeps the last piece of the split as the buffer and dispatches the complete lines in order |
| ServerManager.MCPServerManager.OnStdout | src/main/mcp/server-manager.ts:87-90 | updates the fields as `Connection.Chunk` says and keeps the invariant |
| ServerManager.MCPServerManager.OnTimeout | src/main/mcp/server-manager.ts:218-221 | updates the fields as `Connection.Timeout` says and keeps the invariant |
| ServerManager.MCPServerManager.Cleanup | src/main/mcp/server-manager.ts:273-279 | no process, `disconnected`, no tools, an empty buffer and an empty table |
| ServerManager.MCPServerManager.RejectPending | src/main/mcp/server-manager.ts:138-142 | the loop of stop rejects each pending id in order and disarms exactly those timers |
| ServerManager.MCPServerManager.Stop | src/main/mcp/server-manager.ts:130-153 | updates the fields as `Connection.Stop` says and keeps the invariant |
| ServerManager.MCPServerManager.OnExit | src/main/mcp/server-manager.ts:105-111 | updates the fields as `Connection.Exit` says and keeps the invariant |
| ServerManager.MCPServerManager.OnProcessError | src/main/mcp/server-manager.ts:98-103 | updates the fields as `Connection.ProcessError` says and keeps the invariant |
| ServerManager.MCPServerManager.CallTool | src/main/mcp/server-manager.ts:155-171 | updates the fields as `Connection.CallTool` says and keeps the invariant |
| Client.IndexOf | src/main/mcp/client.ts:113 | `servers.get`: the first entry of that name, or none when no entry has it |
| Client.Tag | src/main/mcp/client.ts:101-103 | every tool of the server appears in order, tagged with the server's name, and nothing else does; `Client.AllToolsMembership` lifts this to the whole pool |
| Client.FirstReadyWith | src/main/mcp/client.ts:121-126 | the first server in insertion order that is ready and lists the tool; none when no server qualifies |
| Client.FindTool | src/main/mcp/client.ts:135-138 | `find` finds an entry exactly when one matches, and it is the first match |
| Client.StatusOf | src/main/mcp/client.ts:83-90 | getServerStatus gives a record exactly when the name is present, built from that server's status and tools |
| Client.Statuses | src/main/mcp/client.ts:92-94 | getAllServers gives one record per entry, in insertion order; with distinct names each record is what getServerStatus gives for its name, so the non-null assertion holds |
| Client.AllTools | src/main/mcp/client.ts:96-108 | definition of getAllTools; see Client.AllToolsAppend and Client.AllToolsMembership |
| Client.Route | src/main/mcp/client.ts:110-126 | definition of callTool's choice of server; see Client.MCPClient.CallTool and Client.GetToolAgreesWithCallTool |
| Client.AllToolsAppend | src/main/mcp/client.ts:96-108 | the catalogue of two groups of servers is the concatenation of theirs |
| Client.AllToolsMembership | src/main/mcp/client.ts:96-108 | the catalogue lists a tool under a server name exactly when a ready server of that name has it |
| Client.StatusesAgreeWithStatusOf | src/main/mcp/client.ts:92-94 | with distinct names, getAllServers' non-null assertion holds, and each record is what getServerStatus gives |
| Client.FindToolAppend | src/main/mcp/client.ts:135-138 | `find` over a concatenation looks in the first part, then in the second |
| Client.GetToolAgreesWithCallTool | src/main/mcp/client.ts:121-126 | getTool by name alone finds a tool exactly when callTool without a server can route it, and names the same server |
| Client.MCPClient.constructor | src/main/mcp/client.ts:6-10 | a new pool is empty |
| Client.MCPClient.AddServer | src/main/mcp/client.ts:33-70 | a name in use throws `Server <name> already exists` and changes nothing. Otherwise the server is entered under its name and started; a start that fails on the spot removes it again |
| Client.MCPClient.RemoveServer | src/main/mcp/client.ts:72-81 | an absent name is a no-op. Otherwise that connection is stopped and only its entry is deleted |
| Client.MCPClient.GetAllTools | src/main/mcp/client.ts:96-108 | the ready servers' tools, tagged with their names, in insertion order |
| Client.MCPClient.CallTool | src/main/mcp/client.ts:110-129 | the call goes to the server `Client.Route` picks, and only that server changes. <br>• A non-empty name picks that server even when it lacks the tool; if the name is absent it throws `Server <name> not found` <br>• Otherwise the first ready server listing the tool is picked; if none qualifies it throws `Tool <name> not found on any ready server` |
| Client.AfterEvent | src/main/mcp/client.ts:64-69 | definition of addServer's catch after an event: the entry is deleted once its start has failed, otherwise it takes the connection's new state; see Client.MCPClient.DropIfFailed |
| Client.MCPClient.DropIfFailed | src/main/mcp/client.ts:66-67 | the pool view becomes `Client.AfterEvent` of the old view: the entry is deleted exactly when its start has failed, and the pool stays valid |
| Client.MCPClient.DeliverChunk | src/main/mcp/client.ts:62-69 | a stdout chunk reaches the named server; a start that fails from it removes that server from the pool |
| Client.MCPClient.DeliverTimeout | src/main/mcp/client.ts:62-69 | a time-out reaches the named server; a start that fails from it removes that server |
| Client.MCPClient.DeliverExit | src/main/mcp/client.ts:62-69 | a process exit reaches the named server |
| Client.MCPClient.DeliverProcessError | src/main/mcp/client.ts:62-69 | a process error reaches the named server |
| Client.MCPClient.Shutdown | src/main/mcp/client.ts:141-149 | every connection is stopped, then the pool is emptied |
| Client.CreateWithGoogleCalendar | src/main/mcp/client.ts:152-163 | a new pool holds the google-calendar server when its start does not fail on the spot. The pool is returned before the handshake ends, with the server still initializing (see Left out) |
| Config.DefaultConfig | src/main/security/config.ts:31-54 | definition of DEFAULT_CONFIG; see Config.MergeOverDefaultsKeepsSections |
| Config.MergeConfig | src/main/security/config.ts:183-195 | the result's keys are the union of target and source keys. A key the source does not mention keeps its target value. An empty source gives the target |
| Config.MergeTakesSourceValue | src/main/security/config.ts:186-191 | a source value that is a truthy non-array object is merged into the target's value, or into `{}`. Any other value, arrays included, replaces the target's value outright |
| Config.MergeOverDefaultsKeepsSections | src/main/security/config.ts:183-195 | merging over the defaults keeps the `claude`, `mcp`, `logging` and `ui` sections |
| Config.SetField | src/main/security/config.ts:162-170 | definition of one field write; see Config.SetFieldChangesOnlyThatField |
| Config.SetWindow | src/main/security/config.ts:172-176 | definition of setWindowSize's two writes; see Config.SetWindowChangesOnlyTheSize |
| Config.SetFieldChangesOnlyThatField | src/main/security/config.ts:162-170 | a field write fails exactly when its section is not an object. Otherwise it changes that one field of that one section |
| Config.SetWindowChangesOnlyTheSize | src/main/security/config.ts:172-176 | setWindowSize changes only `ui.windowWidth` and `ui.windowHeight` |
| Config.ConfigManager.Get | src/main/security/config.ts:135-137 | definition of `get()`: the current configuration. The source returns a top-level copy whose sections are shared with the store, so writing into a section of the result writes into the store; the value model has no such sharing |
| Config.ConfigManager.constructor | src/main/security/config.ts:31-57 | a new store holds the default configuration |
| Config.ConfigManager.Set | src/main/security/config.ts:139-142 | the new configuration is the merge of the old one with the argument |
| Config.ConfigManager.SetClaudeModel | src/main/security/config.ts:162-165 | sets `claude.model` only; fails, changing nothing, when `claude` is not an object |
| Config.ConfigManager.SetLoggingLevel | src/main/security/config.ts:167-170 | sets `logging.level` only; fails, changing nothing, when `logging` is not an object |
| Config.ConfigManager.SetWindowSize | src/main/security/config.ts:172-176 | sets the window width and height only |
| Config.ConfigManager.Reset | src/main/security/config.ts:178-181 | the configuration is the built-in default again |
| Config.AliasedInitial | src/main/security/config.ts:57 | the store starts out holding the defaults object itself |
| Config.AliasedSet | src/main/security/config.ts:139-142 | set builds fresh sections for the keys it names; the other sections stay shared with the defaults, and shared sections stay coherent |
| Config.AliasedSetField | src/main/security/config.ts:162-176 | a field write on a shared section also lands in the defaults |
| Config.AliasedReset | src/main/security/config.ts:178-181 | reset as written copies the current, possibly altered, defaults |
| Config.ResetAfterSetterKeepsTheChange | src/main/security/config.ts:162-181 | on a fresh store, `setClaudeModel("x")` then `reset()` leaves the model `"x"` |
| ClaudeApi.GetTextContent | src/main/claude/api.ts:281-286 | definition of getTextContent; see ClaudeApi.GetTextContentAppend and ClaudeApi.GetTextContentOne |
| ClaudeApi.GetTextContentAppend | src/main/claude/api.ts:281-286 | the text of a content list is the text of its parts, in order |
| ClaudeApi.GetTextContentOne | src/main/claude/api.ts:281-286 | one item contributes its text when it is a text item, and nothing otherwise |
| ClaudeApi.HasToolUse | src/main/claude/api.ts:289-291 | true exactly when some item has type `tool_use` |
| ClaudeApi.NoToolUseNoResults | src/main/claude/api.ts:150-151 | a response without tool use yields no tool results |
| ClaudeApi.ToolCalls | src/main/claude/api.ts:151 | every item the tool loop acts on is a `tool_use` with a name and an id |
| ClaudeApi.ToolCallsAppend | src/main/claude/api.ts:150-151 | the tool calls of a concatenation are those of its parts, in content order |
| ClaudeApi.ToolCallsOne | src/main/claude/api.ts:151 | one item is acted on exactly when it is a `tool_use` with a non-empty name and id |
| ClaudeApi.ResultFor | src/main/claude/api.ts:154-173 | definition of one tool result; see ClaudeApi.ResultForAnswers |
| ClaudeApi.ToolResults | src/main/claude/api.ts:148-177 | definition of the results the loop collects; see ClaudeApi.ToolResultsAnswerToolCalls |
| ClaudeApi.ToolResultsAnswerToolCalls | src/main/claude/api.ts:150-177 | exactly one result per tool call, in order; the j-th result answers the j-th call |
| ClaudeApi.ResultForAnswers | src/main/claude/api.ts:155-172 | each result: <br>• carries the call's id; the executor gets `{}` when the input is absent or falsy (`null`, `0`, `""`, `false`) and the input itself otherwise <br>• on success, holds the string itself or the serialisation of any other value, with no `is_error` <br>• on failure, holds `Error: <message>` with `is_error` set |
| ClaudeApi.HandleToolUse | src/main/claude/api.ts:144-178 | the loop collects the results of the tool calls, one per call, each carrying its call's id |
| ClaudeApi.HistoryMessages | src/main/claude/api.ts:98-101 | one message per history entry, in order, with the entry's role and a single text item whose text reads back as the entry's text |
| ClaudeApi.SendMessages | src/main/claude/api.ts:97-106 | definition of sendMessage's message list; see ClaudeApi.SendMessagesCarryTheConversation |
| ClaudeApi.SendMessagesCarryTheConversation | src/main/claude/api.ts:97-106 | the messages are the history, each entry as a single text item with its role, and then the user message last |
| ClaudeApi.BuildTools | src/main/claude/api.ts:108-118 | definition of the `tools` member; see ClaudeApi.BuildToolsRoundTrip |
| ClaudeApi.BuildToolsRoundTrip | src/main/claude/api.ts:108-112 | `tools` is omitted exactly when the list is empty. Otherwise there is one entry per tool, with `input_schema` equal to `inputSchema`, and the entries read back as the tools |
| ClaudeApi.SendRequest | src/main/claude/api.ts:97-120 | the request names the fixed model and token limit and the given system prompt. Its messages are the history, each entry with its role and text, then one user message holding `userMessage` as a text item. Its `tools` member is left out exactly when there are no tools, and otherwise reads back as the tools, in order |
| ClaudeApi.ContinueMessages | src/main/claude/api.ts:186-199 | definition of continueConversation's message list; see ClaudeApi.ContinueMessagesExtendTheHistory |
| ClaudeApi.ContinueMessagesExtendTheHistory | src/main/claude/api.ts:186-199 | the continuation repeats the history as sendMessage sent it, then the assistant's original content, then a user message holding the tool results |
| ClaudeApi.ContinueRequest | src/main/claude/api.ts:186-213 | the continuation names the fixed model, token limit and system prompt. Its messages are the history, each entry with its role and text, then the assistant's original content, then a user message holding the tool results. Its `tools` member is the same as sendMessage's |
| ClaudeApi.ContinuationAnswersEveryToolCall | src/main/claude/api.ts:150-177 | continuing with handleToolUse's results answers every tool call of the response, in order, by id |

## Left out

- Process spawning, the stdio encodings and the signals of `kill` and `kill('SIGKILL')` are left out: they are operating-system calls. A spawn is an input that either yields a process or throws, and the process is reduced to the lines written to its stdin. `stop` after a failed `kill()` behaves the same either way.
- Stderr output is only logged, so it is not modelled. The same holds for all winston logging.
- Real timers are left out: a time-out is an explicit event naming the request id, and `clearTimeout` is removal from the timer table.
- `JSON.parse` and `JSON.stringify` are foreign calls; they are uninterpreted functions of the `Codec`.
  - Reading the tools from a `tools/list` result is uninterpreted too (`Codec.decodeTools`). It yields the new tool list, or nothing when the read throws.
  - An `initialize` result that is absent or `null` fails start with a TypeError, because the log line reads `response.serverInfo`. Other result shapes are accepted.
- Connection.Continue and ServerManager.MCPServerManager.Resume: when a `tools/list` result has no readable tools array, start fails with a TypeError and the model keeps the old tool list. That is what the source does only when the result is `null` or absent, since reading `response.tools` then throws before any assignment. Otherwise `response.tools` is assigned to `_tools` before the throw. With `tools` missing, `.length` throws and the `tools` getter throws from then on. With a string, number or object, `this._tools.map` throws. With a list holding `null`, `t.name` throws. A string is later spread into its characters by the getter. The pool never shows this, because addServer's catch drops the server in the same turn. A connection used on its own would. Modelling it needs a tool field that can hold any JSON value and a getter that can throw.
- ChunksActAsConcatenation and ChunkBoundaryIsInvisible hold only while no `start` is suspended. This restriction is the source's behaviour, not a gap in the proof: `ConnectionProps.SuspendedStartSeesChunkBoundaries` exhibits two chunks that differ from their concatenation. What holds in every state, the buffer left over, is `ConnectionProps.ChunkKeepsResidue` and `ConnectionProps.ChunksKeepResidue`.
- A response whose `id` is not a number never matches a pending request. String ids equal to a number are not looked up.
- `Connection.Inv` and the class methods: the invariant is implied by the source's data, not demanded by it. The methods therefore take no `Valid()` precondition and ensure only `old(Valid()) ==> Valid()`.
- Events to listeners are an appended log. The pool's re-emission of them under its own names (`serverReady`, `serverError` and so on) is not modelled, because it has no effect on state. The model assumes the pool's `'error'` listener is present, so emitting `error` never throws.
- Client.MCPClient.DeliverChunk, DeliverTimeout, DeliverExit and DeliverProcessError: the event loop delivers events to connections that are in the pool, addressed by name.
  - Events reaching a connection the pool has already dropped are not modelled. That hides a stale delete:
    1. The process exits during the handshake, and the `initialize` timer stays armed.
    2. `removeServer` runs; its `stop` is a no-op without a process, and the entry is deleted.
    3. `addServer` adds a new server of the same name.
    4. The old timer then fails the old `start`, and the old addServer's catch runs `servers.delete(name)`, which deletes the new server.
  - A late `exit` of an earlier process cannot reach a restarted connection, because the pool never restarts one.
- Client.MCPClient: each operation runs to completion before the next event, so the microtasks of one event are not interleaved with another pool operation.
- Client.CreateWithGoogleCalendar: the source awaits addServer, so it resolves only once the handshake has made the server ready, and rejects without returning a pool when the handshake fails. The model's addServer returns after the synchronous part of start, so this member returns the pool at once, with the server still initializing. A later failure of the handshake drops the server from the pool (Client.MCPClient.DeliverChunk and DeliverTimeout), rather than rejecting the creation.
- Client.MCPClient.Shutdown: `Promise.all` over the stops is modelled as stopping each connection in turn. Stops are synchronous up to their continuations, so the result is the same.
- Client.Healthy: the pool's per-entry invariant does not include the connection's own table invariant. The pool's contracts talk about the connections' states, not about that invariant.
- Numbers are unbounded integers, there is no `undefined` value, and floating point is not modelled.
- Config.BaseOf: a target value that is a non-empty string or array spreads as `{}` here. JavaScript would spread its indices as keys. Numbers, booleans, `null` and objects behave as in JavaScript.
- Config.MergeConfig: key order follows insertion. JavaScript puts integer-like keys first.
- Config.ConfigManager.SetClaudeModel, SetLoggingLevel and SetWindowSize: writing to a section that holds an array is treated like writing to a primitive, a failure. JavaScript would add the property to the array.
- `load` and `save` of the configuration file (file system and Electron paths) are left out. So is the `mergeConfig(DEFAULT_CONFIG, saved)` of `load`, which is I/O-driven.
- The section getters `getClaudeConfig`, `getMCPConfig`, `getLoggingConfig` and `getUIConfig` return a section by reference. They are plain field reads of the configuration value.
- `makeRequest` (HTTP through `fetch`) and `getSystemPrompt` (built from the clock and a locale) are left out. The system prompt is an input of the request builders.
- ClaudeApi.HandleToolUse: the executor is a function of the tool name and arguments, so its side effects and its timing are not modelled. `JSON.stringify(value, null, 2)` is an uninterpreted function.
- The keychain wrapper, the Electron app, IPC and window glue, the React renderer, prompt templating and the build configuration are outside the modelled core.

## Findings

| source | as written | input that shows it | evidently intended | confidence | as-written member | corrected member |
|---|---|---|---|---|---|---|
| src/main/security/config.ts:57, 162-165, 178-181 | the store's configuration starts as the `DEFAULT_CONFIG` object itself, and `set` and `reset` copy only the top level, so the section objects are shared with the defaults; the setters therefore write into `DEFAULT_CONFIG`, and `reset()` copies the altered defaults. Because `DEFAULT_CONFIG` is one object for the whole module, a second `ConfigManager` built after a setter also starts from the altered defaults; `Config.AliasedInitial` models only the first store, built over the pristine defaults | a fresh `ConfigManager`, then `setClaudeModel("x")`, then `reset()`: `claude.model` is still `"x"` | `reset()` restores the built-in configuration and the setters never change the defaults | not executed; the sharing follows from JavaScript's object semantics | Config.ResetAfterSetterKeepsTheChange | Config.ConfigManager.Reset |
