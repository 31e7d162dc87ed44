/** class MCPClient: a pool of named connections. Its lookups and the tool
    catalogue are functions of the pool's view (each name with the state of
    its connection); the class's methods are proved to move that view as
    these functions and the connection engine say. */
module Client {
  import opened Wrappers
  import opened Json
  import opened McpTypes
  import Connection
  import opened ServerManager

  // ---------------------------------------------------------------------
  // The pool as a value

  /** Each server name with its connection's state, in insertion order. */
  type View = seq<(string, Connection.Conn)>

  predicate DistinctNames(v: View) {
    forall i, j :: 0 <= i < j < |v| ==> v[i].0 != v[j].0
  }

  function AlreadyExists(name: string): string {
    "Server " + name + " already exists"
  }

  function ServerNotFound(name: string): string {
    "Server " + name + " not found"
  }

  function ToolNotFound(toolName: string): string {
    "Tool " + toolName + " not found on any ready server"
  }

  /** `servers.get(name)`: where the name is held. */
  function IndexOf(v: View, name: string): (r: Option<nat>)
    ensures r.Some? ==> r.value < |v| && v[r.value].0 == name && forall j :: 0 <= j < r.value ==> v[j].0 != name
    ensures r.None? ==> forall j :: 0 <= j < |v| ==> v[j].0 != name
    decreases |v|
  {
    if v == [] then None
    else if v[0].0 == name then Some(0)
    else match IndexOf(v[1..], name)
      case None => None
      case Some(k) => Some(k + 1)
  }

  /** `{ ...tool, serverName }` for each tool of one server: every tool of
      the server appears, tagged with its name, and nothing else does. */
  function Tag(ts: seq<McpTool>, serverName: string): (r: seq<TaggedTool>)
    ensures |r| == |ts| && forall i :: 0 <= i < |ts| ==> r[i] == TaggedTool(ts[i], serverName)
    ensures forall t: TaggedTool :: t in r <==> t.serverName == serverName && t.tool in ts
  {
    var r := seq(|ts|, i requires 0 <= i < |ts| => TaggedTool(ts[i], serverName));
    assert forall t: TaggedTool :: t.serverName == serverName && t.tool in ts ==> t in r by {
      forall t: TaggedTool | t.serverName == serverName && t.tool in ts ensures t in r {
        var k :| 0 <= k < |ts| && ts[k] == t.tool;
        assert r[k] == t;
      }
    }
    r
  }

  /** The tools one server contributes: all of them once it is ready, none before. */
  function ServerTools(e: (string, Connection.Conn)): seq<TaggedTool> {
    if e.1.status == Ready then Tag(e.1.tools, e.0) else []
  }

  /** getAllTools */
  function AllTools(v: View): seq<TaggedTool>
    decreases |v|
  {
    if v == [] then [] else ServerTools(v[0]) + AllTools(v[1..])
  }

  /** `tools.some(tool => tool.name === toolName)` */
  predicate HasTool(ts: seq<McpTool>, toolName: string) {
    exists k :: 0 <= k < |ts| && ts[k].name == toolName
  }

  /** A server that callTool may route the tool to. */
  predicate Offers(e: (string, Connection.Conn), toolName: string) {
    e.1.status == Ready && HasTool(e.1.tools, toolName)
  }

  /** The first server, in insertion order, that is ready and has the tool. */
  function FirstReadyWith(v: View, toolName: string): (r: Option<nat>)
    ensures r.Some? ==> r.value < |v| && Offers(v[r.value], toolName)
    ensures r.Some? ==> forall j :: 0 <= j < r.value ==> !Offers(v[j], toolName)
    ensures r.None? ==> forall j :: 0 <= j < |v| ==> !Offers(v[j], toolName)
    decreases |v|
  {
    if v == [] then None
    else if Offers(v[0], toolName) then Some(0)
    else match FirstReadyWith(v[1..], toolName)
      case None => None
      case Some(k) => Some(k + 1)
  }

  /** The server callTool sends to: the named one when a name is given
      (an empty name counts as none), otherwise the first that offers the tool. */
  function Route(v: View, toolName: string, serverName: string): Option<nat> {
    if serverName != "" then IndexOf(v, serverName) else FirstReadyWith(v, toolName)
  }

  predicate Matches(t: TaggedTool, toolName: string, serverName: string) {
    t.tool.name == toolName && (serverName == "" || t.serverName == serverName)
  }

  /** getTool's `find` over the catalogue: the first entry with the tool's
      name (and the server's, when one is given). */
  function FindTool(all: seq<TaggedTool>, toolName: string, serverName: string): (r: Option<TaggedTool>)
    ensures r.Some? <==> exists i :: 0 <= i < |all| && Matches(all[i], toolName, serverName)
    ensures r.Some? ==> exists i :: 0 <= i < |all| && all[i] == r.value && Matches(all[i], toolName, serverName)
                                   && forall j :: 0 <= j < i ==> !Matches(all[j], toolName, serverName)
    decreases |all|
  {
    if all == [] then None
    else if Matches(all[0], toolName, serverName) then Some(all[0])
    else
      var r := FindTool(all[1..], toolName, serverName);
      assert forall i :: 1 <= i < |all| ==> all[i] == all[1..][i - 1];
      r
  }

  function StatusOfEntry(e: (string, Connection.Conn)): ServerStatus {
    ServerStatus(e.0, e.1.status, e.1.tools)
  }

  /** getServerStatus */
  function StatusOf(v: View, name: string): (r: Option<ServerStatus>)
    ensures r.Some? <==> exists i :: 0 <= i < |v| && v[i].0 == name
    ensures r.Some? ==> exists i :: 0 <= i < |v| && v[i].0 == name && r.value == StatusOfEntry(v[i])
  {
    match IndexOf(v, name)
    case None => None
    case Some(i) => Some(StatusOfEntry(v[i]))
  }

  /** getAllServers: one record per entry, in insertion order; with
      distinct names, each record is what getServerStatus gives for its
      name, so the non-null assertion of the source holds. */
  function Statuses(v: View): (r: seq<ServerStatus>)
    ensures |r| == |v| && forall i :: 0 <= i < |v| ==> r[i] == StatusOfEntry(v[i])
    ensures DistinctNames(v) ==> forall i :: 0 <= i < |v| ==> StatusOf(v, v[i].0) == Some(r[i])
  {
    seq(|v|, i requires 0 <= i < |v| => StatusOfEntry(v[i]))
  }

  /** The pool after an event reached server i and left it in state st:
      addServer's catch drops the server when its start has failed. */
  function AfterEvent(v: View, i: nat, st: Connection.Conn): View
    requires i < |v|
  {
    if StartFailedIn(st.startLog) then v[..i] + v[i + 1..] else v[i := (v[i].0, st)]
  }

  predicate StartFailedIn(log: seq<Connection.StartOutcome>) {
    exists k :: 0 <= k < |log| && log[k].StartFailed?
  }

  // ---------------------------------------------------------------------
  // What the lookups promise

  lemma {:induction false} AllToolsAppend(a: View, b: View)
    ensures AllTools(a + b) == AllTools(a) + AllTools(b)
    decreases |a|
  {
    if a == [] {
      assert a + b == b;
    } else {
      assert (a + b)[1..] == a[1..] + b;
      AllToolsAppend(a[1..], b);
    }
  }

  /** The catalogue lists a tool under a server's name exactly when a
      server of that name is ready and has it. */
  lemma {:induction false} AllToolsMembership(v: View, t: McpTool, name: string)
    ensures TaggedTool(t, name) in AllTools(v)
        <==> exists i :: 0 <= i < |v| && v[i].0 == name && v[i].1.status == Ready && t in v[i].1.tools
    decreases |v|
  {
    if v != [] {
      AllToolsMembership(v[1..], t, name);
      var here := v[0].0 == name && v[0].1.status == Ready && t in v[0].1.tools;
      if here {
        var k :| 0 <= k < |v[0].1.tools| && v[0].1.tools[k] == t;
        assert ServerTools(v[0])[k] == TaggedTool(t, name);
      }
      if TaggedTool(t, name) in ServerTools(v[0]) {
        var k :| 0 <= k < |ServerTools(v[0])| && ServerTools(v[0])[k] == TaggedTool(t, name);
        assert v[0].1.tools[k] == t;
      }
      if exists i :: 0 <= i < |v[1..]| && v[1..][i].0 == name && v[1..][i].1.status == Ready && t in v[1..][i].1.tools {
        var i :| 0 <= i < |v[1..]| && v[1..][i].0 == name && v[1..][i].1.status == Ready && t in v[1..][i].1.tools;
        assert v[i + 1] == v[1..][i];
      }
      if exists i :: 0 <= i < |v| && v[i].0 == name && v[i].1.status == Ready && t in v[i].1.tools {
        var i :| 0 <= i < |v| && v[i].0 == name && v[i].1.status == Ready && t in v[i].1.tools;
        if i > 0 {
          assert v[1..][i - 1] == v[i];
        }
      }
    }
  }

  /** getAllServers lists each server as getServerStatus does, so its
      non-null assertion holds when names are distinct. */
  lemma StatusesAgreeWithStatusOf(v: View)
    requires DistinctNames(v)
    ensures forall i :: 0 <= i < |v| ==> StatusOf(v, v[i].0) == Some(Statuses(v)[i])
  {
  }

  lemma {:induction false} FindToolAppend(a: seq<TaggedTool>, b: seq<TaggedTool>, toolName: string, serverName: string)
    ensures FindTool(a + b, toolName, serverName)
         == if FindTool(a, toolName, serverName).Some? then FindTool(a, toolName, serverName) else FindTool(b, toolName, serverName)
    decreases |a|
  {
    if a == [] {
      assert a + b == b;
    } else {
      assert (a + b)[0] == a[0];
      assert (a + b)[1..] == a[1..] + b;
      FindToolAppend(a[1..], b, toolName, serverName);
    }
  }

  /** Looking a tool up by name alone (getTool) names the same server that
      callTool without a server name sends the call to. */
  lemma {:induction false} GetToolAgreesWithCallTool(v: View, toolName: string)
    ensures FindTool(AllTools(v), toolName, "").Some? <==> FirstReadyWith(v, toolName).Some?
    ensures FirstReadyWith(v, toolName).Some? ==>
      FindTool(AllTools(v), toolName, "").value.serverName == v[FirstReadyWith(v, toolName).value].0
    decreases |v|
  {
    if v != [] {
      GetToolAgreesWithCallTool(v[1..], toolName);
      FindToolAppend(ServerTools(v[0]), AllTools(v[1..]), toolName, "");
      var here := FindTool(ServerTools(v[0]), toolName, "");
      if Offers(v[0], toolName) {
        var k :| 0 <= k < |v[0].1.tools| && v[0].1.tools[k].name == toolName;
        assert Matches(ServerTools(v[0])[k], toolName, "");
      }
    }
  }

  // ---------------------------------------------------------------------
  // The class

  /** Dropping or replacing entry i does not depend on what it held before. */
  lemma AfterEventAt(v: View, i: nat, st: Connection.Conn)
    requires i < |v|
    ensures AfterEvent(v[i := (v[i].0, st)], i, st) == AfterEvent(v, i, st)
  {
    var w := v[i := (v[i].0, st)];
    assert w[..i] == v[..i] && w[i + 1..] == v[i + 1..];
  }

  function Managers(ss: seq<(string, MCPServerManager)>): set<MCPServerManager> {
    set i | 0 <= i < |ss| :: ss[i].1
  }

  function ViewOf(ss: seq<(string, MCPServerManager)>): (v: View)
    reads Managers(ss)
    ensures |v| == |ss| && forall i :: 0 <= i < |ss| ==> v[i] == (ss[i].0, ss[i].1.State())
  {
    seq(|ss|, i requires 0 <= i < |ss| reads Managers(ss) => (ss[i].0, ss[i].1.State()))
  }

  /** What the pool keeps true of each of its entries: the connection was
      created for that name and that codec, and its start has not failed
      (addServer's catch drops it once it has). */
  ghost predicate Healthy(e: (string, MCPServerManager), codec: Connection.Codec)
    reads e.1
  {
    && e.1.config.name == e.0
    && e.1.codec == codec
    && !StartFailedIn(e.1.startLog)
  }

  ghost predicate DistinctEntries(ss: seq<(string, MCPServerManager)>) {
    forall i, j :: 0 <= i < j < |ss| ==> ss[i].0 != ss[j].0 && ss[i].1 != ss[j].1
  }

  /** Dropping entry i, the view loses exactly that element, and the
      entries left are distinct. */
  lemma DropEntry(ss: seq<(string, MCPServerManager)>, i: nat)
    requires i < |ss| && DistinctEntries(ss)
    ensures ViewOf(ss[..i] + ss[i + 1..]) == ViewOf(ss)[..i] + ViewOf(ss)[i + 1..]
    ensures DistinctEntries(ss[..i] + ss[i + 1..])
  {
    var ss' := ss[..i] + ss[i + 1..];
    assert forall j :: 0 <= j < |ss'| ==> ss'[j] == if j < i then ss[j] else ss[j + 1];
    forall j, k | 0 <= j < k < |ss'|
      ensures ss'[j].0 != ss'[k].0 && ss'[j].1 != ss'[k].1
    {
      var j' := if j < i then j else j + 1;
      var k' := if k < i then k else k + 1;
      assert ss'[j] == ss[j'] && ss'[k] == ss[k'] && j' < k';
    }
  }

  /** Appending entry e, the view gains its state at the end. */
  lemma AppendEntry(ss: seq<(string, MCPServerManager)>, e: (string, MCPServerManager))
    ensures ViewOf(ss + [e]) == ViewOf(ss) + [(e.0, e.1.State())]
  {
  }

  class MCPClient {
    const codec: Connection.Codec
    var servers: seq<(string, MCPServerManager)>

    ghost predicate Valid()
      reads this, Managers(servers)
    {
      && DistinctEntries(servers)
      && forall i :: 0 <= i < |servers| ==> Healthy(servers[i], codec)
    }

    function View(): View
      reads this, Managers(servers)
    {
      ViewOf(servers)
    }

    constructor(codec: Connection.Codec)
      ensures this.codec == codec && View() == [] && Valid()
    {
      this.codec := codec;
      servers := [];
    }

    /** addServer: refuse a name in use; otherwise enter a new connection
        under the name and start it, dropping it again when start fails
        on the spot. */
    method AddServer(config: ServerConfig, spawn: Connection.SpawnResult) returns (r: Result<(), string>)
      requires Valid()
      modifies this
      ensures Valid()
      ensures var (st, started) := Connection.Start(codec, Connection.Initial(), config.name, spawn);
        && r == (if IndexOf(old(View()), config.name).Some? then Failure(AlreadyExists(config.name)) else started)
        && View() == (if r.Success? then old(View()) + [(config.name, st)] else old(View()))
    {
      if IndexOf(View(), config.name).Some? {
        return Failure(AlreadyExists(config.name));
      }
      var m;
      m, r := Connect(config, spawn);
      if r.Failure? {
        return;
      }
      Enter(config.name, m);
    }

    /** A new connection for the configuration, started. */
    method Connect(config: ServerConfig, spawn: Connection.SpawnResult) returns (m: MCPServerManager, r: Result<(), string>)
      ensures fresh(m) && Healthy((config.name, m), codec)
      ensures (m.State(), r) == Connection.Start(codec, Connection.Initial(), config.name, spawn)
    {
      m := new MCPServerManager(config, codec);
      r := m.Start(spawn);
      assert m.startLog == [];
    }

    /** `servers.set(name, manager)` for a name not in use. */
    method Enter(name: string, m: MCPServerManager)
      requires Valid() && IndexOf(View(), name).None? && m !in Managers(servers)
      requires Healthy((name, m), codec)
      modifies this
      ensures Valid() && View() == old(View()) + [(name, m.State())]
    {
      AppendEntry(servers, (name, m));
      servers := servers + [(name, m)];
    }

    /** removeServer: stop the named connection and drop it. */
    method RemoveServer(name: string)
      requires Valid()
      modifies this, Managers(servers)
      ensures Valid()
      ensures match IndexOf(old(View()), name)
        case None => View() == old(View())
        case Some(i) => (View() == old(View())[..i] + old(View())[i + 1..]
                         && old(servers)[i].1.State() == Connection.Stop(codec, old(View())[i].1))
    {
      var idx := IndexOf(View(), name);
      if idx.None? {
        return;
      }
      var i := idx.value;
      StopOn(i);
      ghost var v := View();
      DropAt(i);
      assert v[..i] + v[i + 1..] == old(View())[..i] + old(View())[i + 1..];
    }

    /** `manager.stop()` on entry i. */
    method StopOn(i: nat)
      requires Valid() && i < |servers|
      modifies Managers(servers)
      ensures servers == old(servers) && DistinctEntries(servers)
      ensures forall j :: 0 <= j < |servers| && j != i ==> Healthy(servers[j], codec)
      ensures View() == old(View())[i := (old(View())[i].0, Connection.Stop(codec, old(View())[i].1))]
    {
      servers[i].1.Stop();
    }

    /** `servers.delete` of entry i. */
    method DropAt(i: nat)
      requires i < |servers| && DistinctEntries(servers)
      requires forall j :: 0 <= j < |servers| && j != i ==> Healthy(servers[j], codec)
      modifies this
      ensures Valid()
      ensures View() == old(View())[..i] + old(View())[i + 1..]
    {
      DropEntry(servers, i);
      servers := servers[..i] + servers[i + 1..];
      assert forall j :: 0 <= j < |servers| ==> servers[j] == if j < i then old(servers)[j] else old(servers)[j + 1];
    }

    /** getAllTools */
    method GetAllTools() returns (tools: seq<TaggedTool>)
      ensures tools == AllTools(View())
    {
      ghost var v := View();
      tools := [];
      var i := 0;
      while i < |servers|
        invariant 0 <= i <= |servers| && View() == v
        invariant tools == AllTools(v[..i])
      {
        var ts := ToolsOf(servers[i]);
        assert v[..i + 1] == v[..i] + [v[i]];
        AllToolsAppend(v[..i], [v[i]]);
        tools := tools + ts;
        i := i + 1;
      }
      assert v[..i] == v;
    }

    /** The tools of one entry, tagged with its name, when it is ready. */
    static method ToolsOf(e: (string, MCPServerManager)) returns (ts: seq<TaggedTool>)
      ensures ts == ServerTools((e.0, e.1.State()))
    {
      ts := [];
      if e.1.status != Ready {
        return;
      }
      var tools := e.1.tools;
      var j := 0;
      while j < |tools|
        invariant 0 <= j <= |tools|
        invariant ts == Tag(tools[..j], e.0)
      {
        ts := ts + [TaggedTool(tools[j], e.0)];
        j := j + 1;
      }
      assert tools[..j] == tools;
    }

    /** callTool: route the call (see Route) and send it there; refuse when
        no server qualifies. */
    method CallTool(toolName: string, args: Json, serverName: string) returns (r: Result<int, string>)
      requires Valid()
      modifies Managers(servers)
      ensures Valid()
      ensures match Route(old(View()), toolName, serverName)
        case None =>
          && View() == old(View())
          && r == Failure(if serverName != "" then ServerNotFound(serverName) else ToolNotFound(toolName))
        case Some(i) =>
          var (st, sent) := Connection.CallTool(codec, old(View())[i].1, old(View())[i].0, toolName, args);
          View() == old(View())[i := (old(View())[i].0, st)] && r == sent
    {
      if serverName != "" {
        var idx := IndexOf(View(), serverName);
        if idx.None? {
          return Failure(ServerNotFound(serverName));
        }
        r := CallOn(idx.value, toolName, args);
        return;
      }
      var i := 0;
      while i < |servers|
        invariant 0 <= i <= |servers|
        invariant forall j :: 0 <= j < i ==> !Offers(old(View())[j], toolName)
      {
        var m := servers[i].1;
        if m.status == Ready && HasTool(m.tools, toolName) {
          r := CallOn(i, toolName, args);
          return;
        }
        i := i + 1;
      }
      r := Failure(ToolNotFound(toolName));
    }

    /** `manager.callTool` on server i. */
    method CallOn(i: nat, toolName: string, args: Json) returns (r: Result<int, string>)
      requires Valid() && i < |servers|
      modifies Managers(servers)
      ensures Valid()
      ensures var (st, sent) := Connection.CallTool(codec, old(View())[i].1, old(View())[i].0, toolName, args);
        View() == old(View())[i := (old(View())[i].0, st)] && r == sent
    {
      var m := servers[i].1;
      r := m.CallTool(toolName, args);
    }

    /** A stdout chunk of the named server's process. */
    method DeliverChunk(name: string, chunk: string)
      requires Valid()
      modifies this, Managers(servers)
      ensures Valid()
      ensures match IndexOf(old(View()), name)
        case None => View() == old(View())
        case Some(i) => View() == AfterEvent(old(View()), i, Connection.Chunk(codec, old(View())[i].1, chunk))
    {
      var idx := IndexOf(View(), name);
      if idx.None? {
        return;
      }
      var i := idx.value;
      ghost var v := View();
      ChunkOn(i, chunk);
      AfterEventAt(v, i, Connection.Chunk(codec, v[i].1, chunk));
      DropIfFailed(i);
    }

    method ChunkOn(i: nat, chunk: string)
      requires Valid() && i < |servers|
      modifies Managers(servers)
      ensures servers == old(servers) && DistinctEntries(servers)
      ensures forall j :: 0 <= j < |servers| && j != i ==> Healthy(servers[j], codec)
      ensures servers[i].1.config.name == servers[i].0 && servers[i].1.codec == codec
      ensures View() == old(View())[i := (old(View())[i].0, Connection.Chunk(codec, old(View())[i].1, chunk))]
    {
      servers[i].1.OnStdout(chunk);
    }

    /** A time-out timer of the named server fires. */
    method DeliverTimeout(name: string, id: int)
      requires Valid()
      modifies this, Managers(servers)
      ensures Valid()
      ensures match IndexOf(old(View()), name)
        case None => View() == old(View())
        case Some(i) => View() == AfterEvent(old(View()), i, Connection.Timeout(codec, old(View())[i].1, id))
    {
      var idx := IndexOf(View(), name);
      if idx.None? {
        return;
      }
      var i := idx.value;
      ghost var v := View();
      TimeoutOn(i, id);
      AfterEventAt(v, i, Connection.Timeout(codec, v[i].1, id));
      DropIfFailed(i);
    }

    method TimeoutOn(i: nat, id: int)
      requires Valid() && i < |servers|
      modifies Managers(servers)
      ensures servers == old(servers) && DistinctEntries(servers)
      ensures forall j :: 0 <= j < |servers| && j != i ==> Healthy(servers[j], codec)
      ensures servers[i].1.config.name == servers[i].0 && servers[i].1.codec == codec
      ensures View() == old(View())[i := (old(View())[i].0, Connection.Timeout(codec, old(View())[i].1, id))]
    {
      servers[i].1.OnTimeout(id);
    }

    /** The named server's process exits. */
    method DeliverExit(name: string, code: Option<int>, signal: Option<string>)
      requires Valid()
      modifies this, Managers(servers)
      ensures Valid()
      ensures match IndexOf(old(View()), name)
        case None => View() == old(View())
        case Some(i) => View() == AfterEvent(old(View()), i, Connection.Exit(old(View())[i].1, code, signal))
    {
      var idx := IndexOf(View(), name);
      if idx.None? {
        return;
      }
      var i := idx.value;
      ghost var v := View();
      ExitOn(i, code, signal);
      AfterEventAt(v, i, Connection.Exit(v[i].1, code, signal));
      DropIfFailed(i);
    }

    method ExitOn(i: nat, code: Option<int>, signal: Option<string>)
      requires Valid() && i < |servers|
      modifies Managers(servers)
      ensures servers == old(servers) && DistinctEntries(servers)
      ensures forall j :: 0 <= j < |servers| && j != i ==> Healthy(servers[j], codec)
      ensures servers[i].1.config.name == servers[i].0 && servers[i].1.codec == codec
      ensures View() == old(View())[i := (old(View())[i].0, Connection.Exit(old(View())[i].1, code, signal))]
    {
      servers[i].1.OnExit(code, signal);
    }

    /** The named server's process reports an error. */
    method DeliverProcessError(name: string, message: string)
      requires Valid()
      modifies this, Managers(servers)
      ensures Valid()
      ensures match IndexOf(old(View()), name)
        case None => View() == old(View())
        case Some(i) => View() == AfterEvent(old(View()), i, Connection.ProcessError(old(View())[i].1, message))
    {
      var idx := IndexOf(View(), name);
      if idx.None? {
        return;
      }
      var i := idx.value;
      ghost var v := View();
      ProcessErrorOn(i, message);
      AfterEventAt(v, i, Connection.ProcessError(v[i].1, message));
      DropIfFailed(i);
    }

    method ProcessErrorOn(i: nat, message: string)
      requires Valid() && i < |servers|
      modifies Managers(servers)
      ensures servers == old(servers) && DistinctEntries(servers)
      ensures forall j :: 0 <= j < |servers| && j != i ==> Healthy(servers[j], codec)
      ensures servers[i].1.config.name == servers[i].0 && servers[i].1.codec == codec
      ensures View() == old(View())[i := (old(View())[i].0, Connection.ProcessError(old(View())[i].1, message))]
    {
      servers[i].1.OnProcessError(message);
    }

    /** The catch block of addServer, run after an event reached entry i. */
    method DropIfFailed(i: nat)
      requires i < |servers| && DistinctEntries(servers)
      requires forall j :: 0 <= j < |servers| && j != i ==> Healthy(servers[j], codec)
      requires servers[i].1.config.name == servers[i].0 && servers[i].1.codec == codec
      modifies this
      ensures Valid()
      ensures View() == AfterEvent(old(View()), i, old(View())[i].1)
    {
      if StartFailedIn(servers[i].1.startLog) {
        DropAt(i);
      } else {
        assert old(View())[i := old(View())[i]] == old(View());
      }
    }

    /** shutdown: stop every connection, then empty the pool. */
    method Shutdown()
      requires Valid()
      modifies this, Managers(servers)
      ensures Valid() && View() == []
      ensures forall i :: 0 <= i < |old(servers)| ==>
        old(servers)[i].1.State() == Connection.Stop(codec, old(servers[i].1.State()))
    {
      var i := 0;
      while i < |servers|
        invariant 0 <= i <= |servers| && servers == old(servers)
        invariant forall j :: 0 <= j < i ==> servers[j].1.State() == Connection.Stop(codec, old(servers[j].1.State()))
        invariant forall j :: i <= j < |servers| ==> unchanged(servers[j].1)
      {
        servers[i].1.Stop();
        i := i + 1;
      }
      servers := [];
    }
  }

  /** The launch descriptor of the google-calendar server. */
  function GoogleCalendarConfig(): ServerConfig {
    ServerConfig("google-calendar", "npx", Some(["@cocal/google-calendar-mcp"]), None, None)
  }

  /** createWithGoogleCalendar: a new pool with the google-calendar server
      added; when its start fails the failure is what the caller gets. */
  method CreateWithGoogleCalendar(codec: Connection.Codec, spawn: Connection.SpawnResult)
    returns (c: MCPClient, r: Result<(), string>)
    ensures fresh(c) && c.Valid() && c.codec == codec
    ensures var (st, started) := Connection.Start(codec, Connection.Initial(), GoogleCalendarConfig().name, spawn);
      r == started && c.View() == (if r.Success? then [(GoogleCalendarConfig().name, st)] else [])
  {
    c := new MCPClient(codec);
    r := c.AddServer(GoogleCalendarConfig(), spawn);
  }
}
