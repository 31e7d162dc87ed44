/** The protocol and configuration records of the MCP connection layer
    (JSON-RPC 2.0 request and response objects, tool descriptors, server
    configuration and status). */
module McpTypes {
  import opened Wrappers
  import opened Json

  /** The `jsonrpc` member every request carries. */
  const JSONRPC_VERSION := "2.0"

  /** A JSON-RPC request object (its `method` member is `methodName` here).
      The core only ever issues numeric ids. */
  datatype RpcRequest = RpcRequest(jsonrpc: string, id: int, methodName: string, params: Json)

  /** The error object of a JSON-RPC response. */
  datatype RpcError = RpcError(code: int, message: string, data: Option<Json>)

  /** A JSON-RPC response object as parsed from one line. `id` is kept as the
      raw JSON value, since a server may answer with a string or null id;
      `error` is `None` when the member is absent or null. */
  datatype RpcResponse = RpcResponse(id: Json, result: Option<Json>, error: Option<RpcError>)

  /** A tool descriptor advertised by `tools/list`. */
  datatype McpTool = McpTool(name: string, description: string, inputSchema: Json)

  /** A tool-server launch descriptor; `name` is its key within a pool. */
  datatype ServerConfig = ServerConfig(
    name: string,
    command: string,
    args: Option<seq<string>>,
    env: Option<seq<(string, string)>>,
    cwd: Option<string>)

  /** The connection-wide status of one server. */
  datatype Status = Disconnected | Initializing | Ready | Error

  /** The status string the source interpolates into its messages. */
  function StatusName(s: Status): string {
    match s
    case Disconnected => "disconnected"
    case Initializing => "initializing"
    case Ready => "ready"
    case Error => "error"
  }

  /** The status record a pool reports for one server. */
  datatype ServerStatus = ServerStatus(name: string, status: Status, tools: seq<McpTool>)

  /** A tool descriptor tagged with the name of the server that advertises it. */
  datatype TaggedTool = TaggedTool(tool: McpTool, serverName: string)
}
