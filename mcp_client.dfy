/**
 * The MCP manager: the enabled servers read from the server list, and the
 * tools loaded from them, once.
 *
 * Reading the configuration file and the JSON decoder are not part of this
 * model (the file arrives decoded, or as missing or unreadable), and
 * neither are the SSE and stdio sessions: what loading a server's tools
 * gives is the parameter `session`.
 */
module McpClient {
  import opened Wrappers
  import opened Json

  /** `MCPServerConfig`, its fields as the configuration gave them. */
  datatype ServerConfig = ServerConfig(
    name: Json, transport: Json, url: Json, command: Json, args: Json, env: Json, enabled: Json)

  /** The constructor: `args or []` and `env or {}`. */
  function NewServerConfig(name: Json, transport: Json, url: Json, command: Json, args: Json, env: Json, enabled: Json)
    : (s: ServerConfig)
    ensures s.name == name && s.transport == transport && s.url == url && s.command == command &&
      s.enabled == enabled
    ensures s.args == (if Truthy(args) then args else JArr([]))
    ensures s.env == (if Truthy(env) then env else JObj(map[]))
  {
    ServerConfig(name, transport, url, command,
                 if Truthy(args) then args else JArr([]),
                 if Truthy(env) then env else JObj(map[]),
                 enabled)
  }

  /** A server with only a name: `sse`, no url or command, no args or env, enabled. */
  function DefaultServer(name: Json): (s: ServerConfig)
    ensures s.transport == JStr("sse") && s.url == JNull && s.command == JNull
    ensures s.args == JArr([]) && s.env == JObj(map[]) && s.enabled == JBool(true)
  {
    NewServerConfig(name, JStr("sse"), JNull, JNull, JNull, JNull, JBool(true))
  }

  /** A server entry of the file, read with its defaults. */
  function ServerOf(entry: map<string, Json>): ServerConfig
  {
    NewServerConfig(Get(entry, "name", JStr("unknown")), Get(entry, "transport", JStr("sse")),
                    Get(entry, "url", JNull), Get(entry, "command", JNull),
                    Get(entry, "args", JArr([])), Get(entry, "env", JObj(map[])),
                    Get(entry, "enabled", JBool(true)))
  }

  /** The server of a mapping entry, when it is enabled. */
  function Kept(entry: map<string, Json>): (r: seq<ServerConfig>)
    ensures Truthy(ServerOf(entry).enabled) ==> r == [ServerOf(entry)]
    ensures !Truthy(ServerOf(entry).enabled) ==> r == []
  {
    var s := ServerOf(entry);
    if Truthy(s.enabled) then [s] else []
  }

  /**
   * The enabled servers of a list of entries, in order; an entry that is
   * not a mapping raises, which ends the reading with the servers read so
   * far.
   */
  function EnabledServers(entries: seq<Json>): (r: seq<ServerConfig>)
    ensures |r| <= |entries|
    ensures forall i :: 0 <= i < |r| ==> Truthy(r[i].enabled)
  {
    if entries == [] || !entries[0].JObj? then []
    else
      Kept(entries[0].fields) + EnabledServers(entries[1..])
  }

  /**
   * The entries of the `servers` list; a configuration that is not a
   * mapping, or whose `servers` is not a list, raises or gives no entry.
   */
  function ServerEntries(content: Json): (r: seq<Json>)
    ensures content.JObj? && "servers" in content.fields && content.fields["servers"].JArr? ==>
      r == content.fields["servers"].items
  {
    if content.JObj? then
      match Get(content.fields, "servers", JArr([]))
      case JArr(items) => items
      case _ => []
    else []
  }

  /** `_load_config`: the enabled servers of the file, in file order; none from a missing or unreadable file. */
  function LoadedServers(file: ConfigFile): (r: seq<ServerConfig>)
    ensures !file.Decoded? ==> r == []
    ensures file.Decoded? ==> r == EnabledServers(ServerEntries(file.content))
  {
    match file
    case Decoded(content) => EnabledServers(ServerEntries(content))
    case _ => []
  }

  /** Each server read is a mapping entry of the list, with its defaults, and enabled. */
  lemma {:induction false} EnabledServersFromEntries(entries: seq<Json>, i: nat)
    requires i < |EnabledServers(entries)|
    ensures exists k :: (0 <= k < |entries| && entries[k].JObj? &&
      EnabledServers(entries)[i] == ServerOf(entries[k].fields) && Truthy(EnabledServers(entries)[i].enabled))
  {
    var s := ServerOf(entries[0].fields);
    if Truthy(s.enabled) && i == 0 {
      assert EnabledServers(entries)[0] == s;
    } else {
      var j := if Truthy(s.enabled) then i - 1 else i;
      assert EnabledServers(entries)[i] == EnabledServers(entries[1..])[j];
      EnabledServersFromEntries(entries[1..], j);
      var k :| 0 <= k < |entries[1..]| && entries[1..][k].JObj? &&
        EnabledServers(entries[1..])[j] == ServerOf(entries[1..][k].fields);
      assert entries[k + 1] == entries[1..][k];
    }
  }

  /** When every entry is a mapping, the servers read are the enabled entries, in order. */
  lemma {:induction false} EnabledServersAppend(a: seq<Json>, b: seq<Json>)
    requires forall k :: 0 <= k < |a| ==> a[k].JObj?
    ensures EnabledServers(a + b) == EnabledServers(a) + EnabledServers(b)
  {
    if a == [] {
      assert a + b == b;
    } else {
      assert (a + b)[0] == a[0];
      assert (a + b)[1..] == a[1..] + b;
      EnabledServersAppend(a[1..], b);
    }
  }

  /** One more mapping entry of the list adds its server when it is enabled. */
  lemma EnabledServersStep(entries: seq<Json>, i: nat)
    requires i < |entries| && entries[i].JObj?
    requires forall k :: 0 <= k < i ==> entries[k].JObj?
    ensures EnabledServers(entries[..i + 1]) == EnabledServers(entries[..i]) + Kept(entries[i].fields)
  {
    assert entries[..i + 1] == entries[..i] + [entries[i]];
    EnabledServersAppend(entries[..i], [entries[i]]);
  }

  /** An entry that is not a mapping ends the reading: the servers are those before it. */
  lemma EnabledServersStop(entries: seq<Json>, i: nat)
    requires i < |entries| && !entries[i].JObj?
    requires forall k :: 0 <= k < i ==> entries[k].JObj?
    ensures EnabledServers(entries) == EnabledServers(entries[..i])
  {
    assert entries[..i] + entries[i..] == entries;
    assert EnabledServers(entries[i..]) == [];
    EnabledServersAppend(entries[..i], entries[i..]);
  }

  // ---------------------------------------------------------------- connecting

  /**
   * The servers `_connect_server` opens a session with: `sse` with a url,
   * `stdio` with a command; any other transport is skipped.
   */
  predicate Connectable(s: ServerConfig)
  {
    (s.transport == JStr("sse") && Truthy(s.url)) || (s.transport == JStr("stdio") && Truthy(s.command))
  }

  /** The tools one server adds: those its session loads, none when it is skipped or its session fails. */
  function ServerTools(s: ServerConfig, session: ServerConfig -> Option<seq<string>>): (r: seq<string>)
    ensures !Connectable(s) ==> r == []
    ensures Connectable(s) && session(s).Some? ==> r == session(s).value
    ensures Connectable(s) && session(s).None? ==> r == []
  {
    if !Connectable(s) then []
    else
      match session(s)
      case Some(tools) => tools
      case None => []
  }

  /** The tools of all servers, in server order. */
  function AllServerTools(servers: seq<ServerConfig>, session: ServerConfig -> Option<seq<string>>): seq<string>
  {
    if servers == [] then []
    else AllServerTools(servers[..|servers| - 1], session) + ServerTools(servers[|servers| - 1], session)
  }

  /** Servers that cannot be connected add no tools. */
  lemma {:induction false} NoConnectableNoTools(servers: seq<ServerConfig>, session: ServerConfig -> Option<seq<string>>)
    requires forall i :: 0 <= i < |servers| ==> !Connectable(servers[i])
    ensures AllServerTools(servers, session) == []
  {
    if servers != [] {
      NoConnectableNoTools(servers[..|servers| - 1], session);
    }
  }

  /**
   * The tools and the flag after `initialize`: nothing changes once
   * initialized; otherwise, with servers and the adapter library present,
   * each server's tools are appended in order; the flag is set in every
   * case.
   */
  function Initialized(servers: seq<ServerConfig>, tools: seq<string>, initialized: bool, adapterInstalled: bool,
                       session: ServerConfig -> Option<seq<string>>): (r: (seq<string>, bool))
    ensures r.1
    ensures initialized || servers == [] || !adapterInstalled ==> r.0 == tools
    ensures !initialized && servers != [] && adapterInstalled ==> r.0 == tools + AllServerTools(servers, session)
  {
    if initialized || servers == [] || !adapterInstalled then (tools, true)
    else (tools + AllServerTools(servers, session), true)
  }

  /** `initialize` is idempotent: a second call leaves the tools as the first left them. */
  lemma InitializeIdempotent(servers: seq<ServerConfig>, tools: seq<string>, initialized: bool, adapterInstalled: bool,
                             session: ServerConfig -> Option<seq<string>>, again: ServerConfig -> Option<seq<string>>)
    ensures var (t, f) := Initialized(servers, tools, initialized, adapterInstalled, session);
      Initialized(servers, t, f, adapterInstalled, again) == (t, f)
  {
  }

  /** `MCPManager`: the servers, the tools loaded so far, and whether it has been initialized. */
  class McpManager {
    var servers: seq<ServerConfig>
    var tools: seq<string>
    var initialized: bool

    /** A manager with the servers of the configuration file and no tools. */
    constructor(file: ConfigFile)
      ensures servers == LoadedServers(file) && tools == [] && !initialized
    {
      servers := [];
      tools := [];
      initialized := false;
      new;
      LoadConfig(file);
    }

    /** `_load_config`: appends the enabled servers one entry at a time, stopping at an entry that raises. */
    method LoadConfig(file: ConfigFile)
      modifies this
      ensures servers == old(servers) + LoadedServers(file)
      ensures tools == old(tools) && initialized == old(initialized)
    {
      if !file.Decoded? {
        return;
      }
      var entries := ServerEntries(file.content);
      var i := 0;
      while i < |entries|
        invariant 0 <= i <= |entries|
        invariant forall k :: 0 <= k < i ==> entries[k].JObj?
        invariant servers == old(servers) + EnabledServers(entries[..i])
        invariant tools == old(tools) && initialized == old(initialized)
      {
        if !entries[i].JObj? {
          EnabledServersStop(entries, i);
          return;
        }
        EnabledServersStep(entries, i);
        servers := servers + Kept(entries[i].fields);
        i := i + 1;
      }
      assert entries[..i] == entries;
    }

    /**
     * `initialize`: connects to each server in order and appends its tools;
     * a server that cannot be reached adds none. Later calls do nothing.
     */
    method Initialize(adapterInstalled: bool, session: ServerConfig -> Option<seq<string>>)
      modifies this
      ensures (tools, initialized) == Initialized(old(servers), old(tools), old(initialized), adapterInstalled, session)
      ensures servers == old(servers)
    {
      if initialized {
        return;
      }
      if servers == [] || !adapterInstalled {
        initialized := true;
        return;
      }
      var i := 0;
      while i < |servers|
        invariant 0 <= i <= |servers|
        invariant servers == old(servers) && !initialized
        invariant tools == old(tools) + AllServerTools(servers[..i], session)
      {
        assert servers[..i + 1][..i] == servers[..i];
        tools := tools + ServerTools(servers[i], session);
        i := i + 1;
      }
      assert servers[..i] == servers;
      initialized := true;
    }
  }

  /** `get_mcp_tools`: initializes the manager when it is not yet, then gives its tools. */
  method GetMcpTools(m: McpManager, adapterInstalled: bool, session: ServerConfig -> Option<seq<string>>)
    returns (r: seq<string>)
    modifies m
    ensures (m.tools, m.initialized) == Initialized(old(m.servers), old(m.tools), old(m.initialized), adapterInstalled, session)
    ensures r == m.tools && m.initialized
    ensures old(m.initialized) ==> r == old(m.tools)
  {
    if !m.initialized {
      m.Initialize(adapterInstalled, session);
    }
    r := m.tools;
  }
}
