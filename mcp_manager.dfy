/** The MCP server manager: a cache routing each tool name to the server that
    offers it, the cached tool list in function-calling format with its
    refresh time, and a pool of server sessions that are replaced after a
    fixed idle time. The MCP servers are an oracle (`Servers`) and time is the
    integer `now` of the operation. */
module McpManager {
  import opened Wrappers
  import opened Json

  /** Seconds a tool call may run (config/__init__.py). */
  const ToolTimeoutSeconds := 60
  /** Tool-cache lifetime when the constructor is given none: the config
      package defines no cache TTL, so the import fails and 300 is used. */
  const DefaultCacheTtl := 300
  /** Idle seconds after which a pooled session is replaced. */
  const SessionTtl := 300
  const NoDescription := "No description available"
  const OnlyStdio := "Only stdio transport is supported"

  datatype ServerConfig = ServerConfig(
    name: string,
    transport: string,
    command: string,
    args: seq<string>,
    url: Option<string>,
    env: Option<map<string, string>>,
    enabled: bool)

  /** A tool as a server's `list_tools` describes it. */
  datatype ToolInfo = ToolInfo(name: string, description: Option<string>, inputSchema: Option<Json>)

  /** A tool in function-calling format, tagged with the server that offers it. */
  datatype FunctionTool = FunctionTool(name: string, description: string, parameters: Json, server: string)

  /** One content item of a tool result: its `text` attribute if it has one,
      and its `str()` rendering. */
  datatype ContentItem = ContentItem(text: Option<string>, rendered: string)

  /** A tool result: its `content` list if present, and its `str()` rendering. */
  datatype CallResult = CallResult(content: Option<seq<ContentItem>>, rendered: string)

  datatype Connect = Connected | ConnectFailed(reason: string)
  datatype Listing = Listed(tools: seq<ToolInfo>) | ListFailed(reason: string)
  datatype CallOutcome = Returned(result: CallResult) | TimedOut | CallFailed(reason: string)

  /** What each server does when the manager connects to it, lists its tools
      or calls one of them (server name, tool name, arguments). */
  datatype Servers = Servers(
    connect: string -> Connect,
    listTools: string -> Listing,
    callTool: (string, string, Json) -> CallOutcome)

  /** The exceptions `execute_tool` raises. */
  datatype ToolError = NotFound(tool: string) | Timeout(tool: string) | ExecutionError(reason: string)
  {
    /** `str()` of the exception. */
    function Message(): string {
      match this
      case NotFound(tool) => "Tool '" + tool + "' not found in any connected server"
      case Timeout(tool) => "Tool '" + tool + "' execution timed out after 60 seconds"
      case ExecutionError(reason) => reason
    }
  }

  // ------------------------------------------------------------ configs

  /** The constructor keeps the enabled configs, in order. */
  function Enabled(cs: seq<ServerConfig>): (r: seq<ServerConfig>)
    ensures forall c :: c in r <==> c in cs && c.enabled
    ensures |r| <= |cs|
  {
    if cs == [] then [] else (if cs[0].enabled then [cs[0]] else []) + Enabled(cs[1..])
  }

  /** The server names of `cs`. */
  function Names(cs: seq<ServerConfig>): set<string> {
    set c | c in cs :: c.name
  }

  /** `next(c for c in configs if c.name == name)`, or `None`. */
  function FirstNamed(cs: seq<ServerConfig>, name: string): (r: Option<ServerConfig>)
    ensures r.None? <==> forall j :: 0 <= j < |cs| ==> cs[j].name != name
    ensures r.Some? ==>
              exists j :: 0 <= j < |cs| && cs[j] == r.value && r.value.name == name
                          && forall k :: 0 <= k < j ==> cs[k].name != name
  {
    if cs == [] then None
    else if cs[0].name == name then Some(cs[0])
    else
      var r := FirstNamed(cs[1..], name);
      assert r.Some? ==> exists j :: 1 <= j < |cs| && cs[j] == r.value && r.value.name == name
                                     && forall k :: 1 <= k < j ==> cs[k].name != name by {
        if r.Some? {
          var j :| 0 <= j < |cs[1..]| && cs[1..][j] == r.value && r.value.name == name
                   && forall k :: 0 <= k < j ==> cs[1..][k].name != name;
          assert cs[j + 1] == r.value;
          forall k | 1 <= k < j + 1 ensures cs[k].name != name {
            assert cs[k] == cs[1..][k - 1];
          }
        }
      }
      r
  }

  // ------------------------------------------------------- cache rules

  /** `_is_cache_valid`: an empty cache is never valid; otherwise it is valid
      while younger than the TTL. */
  predicate CacheValid(cache: map<string, string>, stamp: int, ttl: int, now: int) {
    cache != map[] && now - stamp < ttl
  }

  /** `_extract_result_content`. The inner length test of the source is
      always true once `content` is non-empty, so its fallback has no case. */
  function ExtractResultContent(result: CallResult): (s: string)
    ensures (result.content.Some? && result.content.value != [] && result.content.value[0].text.Some?) ==>
              s == result.content.value[0].text.value
    ensures (result.content.Some? && result.content.value != [] && result.content.value[0].text.None?) ==>
              s == result.content.value[0].rendered
    ensures result.content.None? || result.content.value == [] ==> s == result.rendered
  {
    match result.content
    case Some(items) =>
      if items != [] then
        (if items[0].text.Some? then items[0].text.value else items[0].rendered)
      else result.rendered
    case None => result.rendered
  }

  /** One tool in function-calling format; an empty or missing description
      becomes "No description available", a missing schema `{}`. */
  function FormatTool(t: ToolInfo, server: string): (f: FunctionTool)
    ensures f.name == t.name && f.server == server && f.description != ""
    ensures t.description.Some? && t.description.value != "" ==> f.description == t.description.value
  {
    FunctionTool(
      t.name,
      if t.description.Some? && t.description.value != "" then t.description.value else NoDescription,
      t.inputSchema.GetOr(JObj([])),
      server)
  }

  function Format(ts: seq<ToolInfo>, server: string): (r: seq<FunctionTool>)
    ensures |r| == |ts|
    ensures forall k :: 0 <= k < |r| ==> r[k] == FormatTool(ts[k], server)
  {
    if ts == [] then [] else [FormatTool(ts[0], server)] + Format(ts[1..], server)
  }

  /** The cache after recording `server` for every listed tool, in order. */
  function AddTools(cache: map<string, string>, ts: seq<ToolInfo>, server: string): map<string, string>
    decreases |ts|
  {
    if ts == [] then cache else AddTools(cache[ts[0].name := server], ts[1..], server)
  }

  predicate HasTool(ts: seq<ToolInfo>, name: string) {
    exists k :: 0 <= k < |ts| && ts[k].name == name
  }

  /** The server lists its tools and `name` is among them. */
  predicate Lists(servers: Servers, server: string, name: string) {
    servers.listTools(server).Listed? && HasTool(servers.listTools(server).tools, name)
  }

  /** A fresh session to this server can be opened. */
  predicate Reachable(cfg: ServerConfig, servers: Servers) {
    cfg.transport == "stdio" && servers.connect(cfg.name).Connected?
  }

  // ---------------------------------------------------------- sessions

  datatype Acquired = Acquired(error: Option<string>, sessions: map<string, int>)

  /** `_get_or_create_session` on the session table (server name to last use):
      a session younger than the TTL is reused, an older one is closed first,
      and only stdio servers that accept the connection get a new one. */
  function Acquire(sessions: map<string, int>, cfg: ServerConfig, now: int, connect: Connect): (a: Acquired)
    ensures a.error.None? ==> a.sessions == sessions[cfg.name := now]
    ensures a.error.Some? ==> a.sessions == sessions - {cfg.name}
    ensures cfg.name in sessions && now - sessions[cfg.name] < SessionTtl ==> a.error.None?
    ensures a.error.Some? ==> cfg.transport != "stdio" || connect.ConnectFailed?
    ensures cfg.transport != "stdio" && a.error.Some? ==> a.error.value == OnlyStdio
  {
    if cfg.name in sessions && now - sessions[cfg.name] < SessionTtl then
      Acquired(None, sessions[cfg.name := now])
    else
      var rest := sessions - {cfg.name};
      if cfg.transport != "stdio" then Acquired(Some(OnlyStdio), rest)
      else
        match connect
        case Connected =>
          assert rest[cfg.name := now] == sessions[cfg.name := now];
          Acquired(None, rest[cfg.name := now])
        case ConnectFailed(reason) => Acquired(Some(reason), rest)
  }

  // ----------------------------------------------------------- refresh

  /** The state a refresh works on: the tool list built so far, the routing
      cache and the session table. */
  datatype Registry = Registry(tools: seq<FunctionTool>, cache: map<string, string>, sessions: map<string, int>)

  /** One server's turn in `get_all_tools`: a server whose session or listing
      fails is closed and contributes nothing; otherwise its tools are
      appended to the list and routed to it in the cache. */
  function RefreshStep(reg: Registry, cfg: ServerConfig, now: int, servers: Servers): (r: Registry)
    ensures cfg.name in r.sessions <==>
              Acquire(reg.sessions, cfg, now, servers.connect(cfg.name)).error.None? && servers.listTools(cfg.name).Listed?
    ensures cfg.name in r.sessions ==>
              r.sessions[cfg.name] == now
              && r.tools == reg.tools + Format(servers.listTools(cfg.name).tools, cfg.name)
              && r.cache == AddTools(reg.cache, servers.listTools(cfg.name).tools, cfg.name)
    ensures cfg.name !in r.sessions ==> r.tools == reg.tools && r.cache == reg.cache
    ensures forall n :: n != cfg.name ==> (n in r.sessions <==> n in reg.sessions)
    ensures forall n :: n != cfg.name && n in r.sessions ==> r.sessions[n] == reg.sessions[n]
  {
    var a := Acquire(reg.sessions, cfg, now, servers.connect(cfg.name));
    if a.error.Some? then reg.(sessions := a.sessions - {cfg.name})
    else
      match servers.listTools(cfg.name)
      case ListFailed(_) => reg.(sessions := a.sessions - {cfg.name})
      case Listed(ts) => Registry(reg.tools + Format(ts, cfg.name), AddTools(reg.cache, ts, cfg.name), a.sessions)
  }

  /** `get_all_tools`' loop over `cfgs[i..]`, in config order. The list
      only grows, and every new entry names one of those servers and has a
      non-empty description. */
  function RefreshFrom(reg: Registry, cfgs: seq<ServerConfig>, i: nat, now: int, servers: Servers): (r: Registry)
    requires i <= |cfgs|
    decreases |cfgs| - i
    ensures |reg.tools| <= |r.tools| && r.tools[..|reg.tools|] == reg.tools
    ensures forall k :: |reg.tools| <= k < |r.tools| ==>
              r.tools[k].description != "" && exists j :: i <= j < |cfgs| && r.tools[k].server == cfgs[j].name
  {
    if i == |cfgs| then reg
    else
      var next := RefreshStep(reg, cfgs[i], now, servers);
      var r := RefreshFrom(next, cfgs, i + 1, now, servers);
      assert r.tools[..|reg.tools|] == reg.tools by {
        assert r.tools[..|next.tools|][..|reg.tools|] == r.tools[..|reg.tools|];
      }
      forall k | |reg.tools| <= k < |r.tools|
        ensures r.tools[k].description != "" && exists j :: i <= j < |cfgs| && r.tools[k].server == cfgs[j].name
      {
        if k < |next.tools| {
          var ts := servers.listTools(cfgs[i].name).tools;
          assert r.tools[k] == next.tools[k] == Format(ts, cfgs[i].name)[k - |reg.tools|];
          assert r.tools[k].server == cfgs[i].name;
        } else {
          var j :| i + 1 <= j < |cfgs| && r.tools[k].server == cfgs[j].name;
        }
      }
      r
  }

  lemma RefreshFromEnd(reg: Registry, cfgs: seq<ServerConfig>, now: int, servers: Servers)
    ensures RefreshFrom(reg, cfgs, |cfgs|, now, servers) == reg
  {
  }

  /** One step of `RefreshFrom`. */
  lemma RefreshFromStep(reg: Registry, cfgs: seq<ServerConfig>, i: nat, now: int, servers: Servers)
    requires i < |cfgs|
    ensures RefreshFrom(reg, cfgs, i, now, servers)
            == RefreshFrom(RefreshStep(reg, cfgs[i], now, servers), cfgs, i + 1, now, servers)
  {
  }

  /** The server recorded for `name` by the last entry of `tools` so named. */
  function LastServer(tools: seq<FunctionTool>, name: string): Option<string> {
    if tools == [] then None
    else if tools[|tools| - 1].name == name then Some(tools[|tools| - 1].server)
    else LastServer(tools[..|tools| - 1], name)
  }

  /** `cache` is `before` overwritten by the entries of `tools`, in order:
      the last entry for a name decides its server, and a name without an
      entry keeps whatever `before` had for it. No name is ever removed. */
  ghost predicate Overlays(before: map<string, string>, tools: seq<FunctionTool>, cache: map<string, string>) {
    && (forall name :: LastServer(tools, name).Some? ==> name in cache && cache[name] == LastServer(tools, name).value)
    && (forall name :: LastServer(tools, name).None? ==> (name in cache <==> name in before))
    && (forall name :: LastServer(tools, name).None? && name in before ==> cache[name] == before[name])
  }

  lemma OverlaysSnoc(before: map<string, string>, tools: seq<FunctionTool>, cache: map<string, string>, t: FunctionTool)
    requires Overlays(before, tools, cache)
    ensures Overlays(before, tools + [t], cache[t.name := t.server])
  {
    assert (tools + [t])[..|tools|] == tools;
  }

  lemma FormatCons(tools: seq<FunctionTool>, ts: seq<ToolInfo>, server: string)
    requires ts != []
    ensures tools + Format(ts, server) == (tools + [FormatTool(ts[0], server)]) + Format(ts[1..], server)
  {
  }

  lemma {:induction false} OverlaysAdd(before: map<string, string>, tools: seq<FunctionTool>, cache: map<string, string>,
                                       ts: seq<ToolInfo>, server: string)
    requires Overlays(before, tools, cache)
    ensures Overlays(before, tools + Format(ts, server), AddTools(cache, ts, server))
    decreases |ts|
  {
    if ts == [] {
      assert tools + Format(ts, server) == tools;
    } else {
      var f := FormatTool(ts[0], server);
      var tools', cache' := tools + [f], cache[f.name := f.server];
      FormatCons(tools, ts, server);
      OverlaysSnoc(before, tools, cache, f);
      OverlaysAdd(before, tools', cache', ts[1..], server);
    }
  }

  /** A refresh only adds or overwrites cache entries: every tool name
      listed maps to the server of its last entry in the new list (so a later
      config wins while both entries stay in the list), and every other name
      keeps its old entry, stale or not. */
  lemma {:induction false} RefreshOverlays(before: map<string, string>, reg: Registry, cfgs: seq<ServerConfig>,
                                           i: nat, now: int, servers: Servers)
    requires i <= |cfgs|
    requires Overlays(before, reg.tools, reg.cache)
    ensures Overlays(before, RefreshFrom(reg, cfgs, i, now, servers).tools, RefreshFrom(reg, cfgs, i, now, servers).cache)
    decreases |cfgs| - i
  {
    if i < |cfgs| {
      var next := RefreshStep(reg, cfgs[i], now, servers);
      if cfgs[i].name in next.sessions {
        OverlaysAdd(before, reg.tools, reg.cache, servers.listTools(cfgs[i].name).tools, cfgs[i].name);
      }
      RefreshOverlays(before, next, cfgs, i + 1, now, servers);
    }
  }

  /** A full refresh from an empty list: the cache afterwards is the old
      cache overwritten by the new list. */
  lemma RefreshKeepsStaleEntries(cache: map<string, string>, sessions: map<string, int>, cfgs: seq<ServerConfig>,
                                 now: int, servers: Servers)
    ensures var r := RefreshFrom(Registry([], cache, sessions), cfgs, 0, now, servers);
            cache.Keys <= r.cache.Keys && Overlays(cache, r.tools, r.cache)
  {
    RefreshOverlays(cache, Registry([], cache, sessions), cfgs, 0, now, servers);
  }

  // ------------------------------------------------------------ search

  datatype Search = Search(found: Option<nat>, sessions: map<string, int>)

  /** `_find_server_with_tool` over `cfgs[i..]`: the index of the first
      server whose session opens and whose listing names the tool; servers
      that fail are closed and skipped. */
  function SearchFrom(cfgs: seq<ServerConfig>, i: nat, sessions: map<string, int>, name: string,
                      now: int, servers: Servers): (s: Search)
    requires i <= |cfgs|
    decreases |cfgs| - i
    ensures s.found.Some? ==> i <= s.found.value < |cfgs| && Lists(servers, cfgs[s.found.value].name, name)
    ensures s.found.Some? ==> cfgs[s.found.value].name in s.sessions && s.sessions[cfgs[s.found.value].name] == now
    ensures s.found.Some? ==>
              forall j :: i <= j < s.found.value ==> !(Reachable(cfgs[j], servers) && Lists(servers, cfgs[j].name, name))
    ensures s.found.None? ==>
              forall j :: i <= j < |cfgs| ==> !(Reachable(cfgs[j], servers) && Lists(servers, cfgs[j].name, name))
  {
    if i == |cfgs| then Search(None, sessions)
    else
      var cfg := cfgs[i];
      var a := Acquire(sessions, cfg, now, servers.connect(cfg.name));
      if a.error.Some? then SearchFrom(cfgs, i + 1, a.sessions - {cfg.name}, name, now, servers)
      else
        match servers.listTools(cfg.name)
        case ListFailed(_) => SearchFrom(cfgs, i + 1, a.sessions - {cfg.name}, name, now, servers)
        case Listed(ts) =>
          if HasTool(ts, name) then Search(Some(i), a.sessions)
          else SearchFrom(cfgs, i + 1, a.sessions, name, now, servers)
  }

  // ---------------------------------------------------------- dispatch

  datatype Dispatched = Dispatched(result: Result<string, ToolError>, sessions: map<string, int>, cache: map<string, string>)

  /** `_execute_tool_on_server`'s failure policy: success keeps the session
      (used now) and the cache; a timeout closes the session but keeps the
      cache entry; any other failure closes the session and evicts the tool. */
  function Dispatch(sessions: map<string, int>, cache: map<string, string>, cfg: ServerConfig, tool: string,
                    args: Json, now: int, servers: Servers): (d: Dispatched)
    ensures d.result.Success? ==> d.sessions == sessions[cfg.name := now] && d.cache == cache
    ensures d.result.Success? ==>
              servers.callTool(cfg.name, tool, args).Returned?
              && d.result.value == ExtractResultContent(servers.callTool(cfg.name, tool, args).result)
    ensures d.result.Failure? ==> d.sessions == sessions - {cfg.name} && !d.result.error.NotFound?
    ensures d.result.Failure? && d.result.error.Timeout? ==> d.cache == cache && d.result.error.tool == tool
    ensures d.result.Failure? && d.result.error.ExecutionError? ==> d.cache == cache - {tool}
    ensures d.result.Failure? && d.result.error.Timeout? <==>
              Acquire(sessions, cfg, now, servers.connect(cfg.name)).error.None?
              && servers.callTool(cfg.name, tool, args).TimedOut?
  {
    var a := Acquire(sessions, cfg, now, servers.connect(cfg.name));
    if a.error.Some? then
      Dispatched(Failure(ExecutionError(a.error.value)), a.sessions, cache - {tool})
    else
      match servers.callTool(cfg.name, tool, args)
      case Returned(res) => Dispatched(Success(ExtractResultContent(res)), a.sessions, cache)
      case TimedOut =>
        assert a.sessions - {cfg.name} == sessions - {cfg.name};
        Dispatched(Failure(Timeout(tool)), a.sessions - {cfg.name}, cache)
      case CallFailed(reason) =>
        assert a.sessions - {cfg.name} == sessions - {cfg.name};
        Dispatched(Failure(ExecutionError(reason)), a.sessions - {cfg.name}, cache - {tool})
  }

  datatype Executed = Executed(
    chosen: Option<ServerConfig>,
    result: Result<string, ToolError>,
    sessions: map<string, int>,
    cache: map<string, string>)

  /** `execute_tool`: the cached server if the cache is valid and names a
      configured server, else the first server found by searching; then
      dispatch to it. A stale name whose server is no longer configured is
      evicted on the way. */
  function Execute(cfgs: seq<ServerConfig>, cache: map<string, string>, stamp: int, ttl: int,
                   sessions: map<string, int>, tool: string, args: Json, now: int, servers: Servers): (e: Executed)
    ensures (CacheValid(cache, stamp, ttl, now) && tool in cache && FirstNamed(cfgs, cache[tool]).Some?) ==>
              e.chosen == FirstNamed(cfgs, cache[tool])
    ensures !(CacheValid(cache, stamp, ttl, now) && tool in cache && FirstNamed(cfgs, cache[tool]).Some?) ==>
              var s := SearchFrom(cfgs, 0, sessions, tool, now, servers);
              e.chosen == (if s.found.Some? then Some(cfgs[s.found.value]) else None)
    ensures e.result.Failure? && e.result.error.NotFound? <==> e.chosen.None?
    ensures e.chosen.None? ==>
              forall j :: 0 <= j < |cfgs| ==> !(Reachable(cfgs[j], servers) && Lists(servers, cfgs[j].name, tool))
    ensures e.chosen.Some? ==> e.chosen.value in cfgs
    ensures e.result.Success? ==>
              e.chosen.value.name in e.sessions && e.sessions[e.chosen.value.name] == now && tool in e.cache && e.cache[tool] == e.chosen.value.name
              && servers.callTool(e.chosen.value.name, tool, args).Returned?
              && e.result.value == ExtractResultContent(servers.callTool(e.chosen.value.name, tool, args).result)
    ensures e.result.Failure? && e.chosen.Some? ==> e.chosen.value.name !in e.sessions
    ensures e.result.Failure? && e.result.error.Timeout? ==> tool in e.cache && e.cache[tool] == e.chosen.value.name
    ensures e.result.Failure? && e.result.error.ExecutionError? ==> tool !in e.cache
  {
    var hit := CacheValid(cache, stamp, ttl, now) && tool in cache;
    var fromCache := if hit then FirstNamed(cfgs, cache[tool]) else None;
    var cache1 := if hit && fromCache.None? then cache - {tool} else cache;
    if fromCache.Some? then
      var d := Dispatch(sessions, cache1, fromCache.value, tool, args, now, servers);
      Executed(fromCache, d.result, d.sessions, d.cache)
    else
      var s := SearchFrom(cfgs, 0, sessions, tool, now, servers);
      if s.found.None? then Executed(None, Failure(NotFound(tool)), s.sessions, cache1)
      else
        var c := cfgs[s.found.value];
        var d := Dispatch(s.sessions, cache1[tool := c.name], c, tool, args, now, servers);
        Executed(Some(c), d.result, d.sessions, d.cache)
  }

  // ----------------------------------------------------------- listing

  /** The manager's mutable state: the tool cache, the cached tool list,
      the time of the last refresh and the session pool. */
  datatype State = State(toolCache: map<string, string>, toolsList: seq<FunctionTool>, stamp: int,
                         sessions: map<string, int>)

  datatype AllListed = AllListed(tools: seq<FunctionTool>, state: State)

  /** `get_all_tools` on values: the cached list while the cache is valid
      and the list non-empty, else a refresh over every server stamped `now`. */
  function AllTools(cfgs: seq<ServerConfig>, ttl: int, s: State, now: int, servers: Servers): (a: AllListed)
    ensures a.state.toolsList == a.tools
    ensures CacheValid(s.toolCache, s.stamp, ttl, now) && s.toolsList != [] ==> a == AllListed(s.toolsList, s)
    ensures !(CacheValid(s.toolCache, s.stamp, ttl, now) && s.toolsList != []) ==>
              var r := RefreshFrom(Registry([], s.toolCache, s.sessions), cfgs, 0, now, servers);
              a.state == State(r.cache, r.tools, now, r.sessions)
  {
    if CacheValid(s.toolCache, s.stamp, ttl, now) && s.toolsList != [] then AllListed(s.toolsList, s)
    else
      var r := RefreshFrom(Registry([], s.toolCache, s.sessions), cfgs, 0, now, servers);
      AllListed(r.tools, State(r.cache, r.tools, now, r.sessions))
  }

  /** Asking again at the same time is served from the cache, unchanged,
      once the last answer left a non-empty cache and list. */
  lemma AllToolsCached(cfgs: seq<ServerConfig>, ttl: int, s: State, now: int, servers: Servers)
    requires ttl > 0
    requires AllTools(cfgs, ttl, s, now, servers).state.toolCache != map[]
    requires AllTools(cfgs, ttl, s, now, servers).tools != []
    ensures var a := AllTools(cfgs, ttl, s, now, servers);
            AllTools(cfgs, ttl, a.state, now, servers) == a
  {
  }

  // ----------------------------------------------------------- manager

  class ServerManager {
    const configs: seq<ServerConfig>
    const cacheTtl: int
    /** Tool name to server name. */
    var toolCache: map<string, string>
    var toolsListCache: seq<FunctionTool>
    var cacheTimestamp: int
    /** Server name to the time its pooled session was last used. */
    var activeSessions: map<string, int>

    /** Only enabled configs are kept. */
    predicate Valid() {
      forall c :: c in configs ==> c.enabled
    }

    constructor (serverConfigs: seq<ServerConfig>, ttl: Option<int>)
      ensures Valid()
      ensures configs == Enabled(serverConfigs)
      ensures cacheTtl == ttl.GetOr(DefaultCacheTtl)
      ensures toolCache == map[] && toolsListCache == [] && cacheTimestamp == 0 && activeSessions == map[]
    {
      configs := Enabled(serverConfigs);
      cacheTtl := ttl.GetOr(DefaultCacheTtl);
      toolCache := map[];
      toolsListCache := [];
      cacheTimestamp := 0;
      activeSessions := map[];
    }

    function Snapshot(): State
      reads this
    {
      State(toolCache, toolsListCache, cacheTimestamp, activeSessions)
    }

    function IsCacheValid(now: int): (ok: bool)
      reads this
      ensures toolCache == map[] ==> !ok
      ensures toolCache != map[] ==> (ok <==> now - cacheTimestamp < cacheTtl)
    {
      CacheValid(toolCache, cacheTimestamp, cacheTtl, now)
    }

    method GetOrCreateSession(cfg: ServerConfig, now: int, servers: Servers) returns (error: Option<string>)
      modifies this`activeSessions
      ensures var a := Acquire(old(activeSessions), cfg, now, servers.connect(cfg.name));
              error == a.error && activeSessions == a.sessions
    {
      if cfg.name in activeSessions {
        if now - activeSessions[cfg.name] < SessionTtl {
          activeSessions := activeSessions[cfg.name := now];
          return None;
        }
        CloseSession(cfg.name);
      }
      if cfg.transport != "stdio" {
        return Some(OnlyStdio);
      }
      match servers.connect(cfg.name)
      case Connected =>
        activeSessions := activeSessions[cfg.name := now];
        error := None;
      case ConnectFailed(reason) =>
        error := Some(reason);
    }

    method CloseSession(name: string)
      modifies this`activeSessions
      ensures activeSessions == old(activeSessions) - {name}
    {
      if name in activeSessions {
        activeSessions := activeSessions - {name};
      }
    }

    method CloseAllSessions()
      modifies this`activeSessions
      ensures activeSessions == map[]
    {
      var names := activeSessions.Keys;
      while names != {}
        invariant activeSessions.Keys == names
        decreases names
      {
        var n :| n in names;
        CloseSession(n);
        names := names - {n};
      }
    }

    method GetAllTools(now: int, servers: Servers) returns (tools: seq<FunctionTool>)
      modifies this
      ensures old(IsCacheValid(now)) && old(toolsListCache) != [] ==>
                tools == old(toolsListCache) && toolsListCache == old(toolsListCache)
                && toolCache == old(toolCache) && cacheTimestamp == old(cacheTimestamp)
                && activeSessions == old(activeSessions)
      ensures !(old(IsCacheValid(now)) && old(toolsListCache) != []) ==>
                var r := RefreshFrom(Registry([], old(toolCache), old(activeSessions)), configs, 0, now, servers);
                tools == r.tools && toolCache == r.cache && activeSessions == r.sessions
                && toolsListCache == tools && cacheTimestamp == now
      ensures AllListed(tools, Snapshot()) == AllTools(configs, cacheTtl, old(Snapshot()), now, servers)
    {
      if IsCacheValid(now) && toolsListCache != [] {
        return toolsListCache;
      }
      var all := RefreshAll(now, servers);
      cacheTimestamp := now;
      toolsListCache := all;
      tools := all;
    }

    /** `get_all_tools`' loop over every server. */
    method RefreshAll(now: int, servers: Servers) returns (all: seq<FunctionTool>)
      modifies this`activeSessions, this`toolCache
      ensures Registry(all, toolCache, activeSessions)
              == RefreshFrom(Registry([], old(toolCache), old(activeSessions)), configs, 0, now, servers)
    {
      all := [];
      ghost var target := RefreshFrom(Registry([], toolCache, activeSessions), configs, 0, now, servers);
      for i := 0 to |configs|
        invariant RefreshFrom(Registry(all, toolCache, activeSessions), configs, i, now, servers) == target
      {
        ghost var reg := Registry(all, toolCache, activeSessions);
        all := RefreshServer(all, configs[i], now, servers);
        RefreshFromStep(reg, configs, i, now, servers);
      }
      RefreshFromEnd(Registry(all, toolCache, activeSessions), configs, now, servers);
    }

    /** The body of `get_all_tools`' loop for one server. */
    method RefreshServer(all: seq<FunctionTool>, cfg: ServerConfig, now: int, servers: Servers)
      returns (all': seq<FunctionTool>)
      modifies this`activeSessions, this`toolCache
      ensures Registry(all', toolCache, activeSessions)
              == RefreshStep(Registry(all, old(toolCache), old(activeSessions)), cfg, now, servers)
    {
      all' := all;
      ghost var reg := Registry(all, toolCache, activeSessions);
      var error := GetOrCreateSession(cfg, now, servers);
      if error.Some? {
        CloseSession(cfg.name);
        assert Registry(all', toolCache, activeSessions) == RefreshStep(reg, cfg, now, servers);
        return;
      }
      match servers.listTools(cfg.name)
      case ListFailed(_) =>
        CloseSession(cfg.name);
        assert Registry(all', toolCache, activeSessions) == RefreshStep(reg, cfg, now, servers);
      case Listed(ts) =>
        for j := 0 to |ts|
          modifies this`toolCache
          invariant all' + Format(ts[j..], cfg.name) == all + Format(ts, cfg.name)
          invariant AddTools(toolCache, ts[j..], cfg.name) == AddTools(old(toolCache), ts, cfg.name)
        {
          assert ts[j..][1..] == ts[j + 1..];
          all' := all' + [FormatTool(ts[j], cfg.name)];
          toolCache := toolCache[ts[j].name := cfg.name];
        }
        assert ts[|ts|..] == [];
        assert Registry(all', toolCache, activeSessions) == RefreshStep(reg, cfg, now, servers);
    }

    method GetConfigFromCache(tool: string, now: int) returns (cfg: Option<ServerConfig>)
      modifies this`toolCache
      ensures !old(IsCacheValid(now)) || tool !in old(toolCache) ==> cfg.None? && toolCache == old(toolCache)
      ensures old(IsCacheValid(now)) && tool in old(toolCache) ==>
                cfg == FirstNamed(configs, old(toolCache)[tool])
                && toolCache == (if cfg.None? then old(toolCache) - {tool} else old(toolCache))
    {
      if !IsCacheValid(now) || tool !in toolCache {
        return None;
      }
      var serverName := toolCache[tool];
      cfg := FirstNamed(configs, serverName);
      if cfg.None? {
        toolCache := toolCache - {tool};
      }
    }

    method FindServerWithTool(tool: string, now: int, servers: Servers) returns (cfg: Option<ServerConfig>)
      modifies this`activeSessions, this`toolCache
      ensures var s := SearchFrom(configs, 0, old(activeSessions), tool, now, servers);
              activeSessions == s.sessions
              && (s.found.None? ==> cfg.None? && toolCache == old(toolCache))
              && (s.found.Some? ==> cfg == Some(configs[s.found.value])
                                    && toolCache == old(toolCache)[tool := configs[s.found.value].name])
    {
      for i := 0 to |configs|
        invariant toolCache == old(toolCache)
        invariant SearchFrom(configs, i, activeSessions, tool, now, servers)
                  == SearchFrom(configs, 0, old(activeSessions), tool, now, servers)
      {
        var error := GetOrCreateSession(configs[i], now, servers);
        if error.Some? {
          CloseSession(configs[i].name);
        } else {
          match servers.listTools(configs[i].name)
          case ListFailed(_) =>
            CloseSession(configs[i].name);
          case Listed(ts) =>
            if HasTool(ts, tool) {
              toolCache := toolCache[tool := configs[i].name];
              return Some(configs[i]);
            }
        }
      }
      return None;
    }

    method ExecuteToolOnServer(cfg: ServerConfig, tool: string, args: Json, now: int, servers: Servers)
      returns (r: Result<string, ToolError>)
      modifies this`activeSessions, this`toolCache
      ensures var d := Dispatch(old(activeSessions), old(toolCache), cfg, tool, args, now, servers);
              r == d.result && activeSessions == d.sessions && toolCache == d.cache
    {
      var error := GetOrCreateSession(cfg, now, servers);
      if error.Some? {
        CloseSession(cfg.name);
        toolCache := toolCache - {tool};
        return Failure(ExecutionError(error.value));
      }
      match servers.callTool(cfg.name, tool, args)
      case Returned(res) =>
        r := Success(ExtractResultContent(res));
      case TimedOut =>
        CloseSession(cfg.name);
        r := Failure(Timeout(tool));
      case CallFailed(reason) =>
        CloseSession(cfg.name);
        toolCache := toolCache - {tool};
        r := Failure(ExecutionError(reason));
    }

    method ExecuteTool(tool: string, args: Json, now: int, servers: Servers) returns (r: Result<string, ToolError>)
      modifies this`activeSessions, this`toolCache
      ensures var e := Execute(configs, old(toolCache), cacheTimestamp, cacheTtl, old(activeSessions),
                               tool, args, now, servers);
              r == e.result && activeSessions == e.sessions && toolCache == e.cache
    {
      var cfg := GetConfigFromCache(tool, now);
      if cfg.None? {
        cfg := FindServerWithTool(tool, now, servers);
      }
      if cfg.None? {
        return Failure(NotFound(tool));
      }
      r := ExecuteToolOnServer(cfg.value, tool, args, now, servers);
    }

    method GetServerStatus() returns (status: map<string, string>)
      requires Valid()
      ensures status.Keys == Names(configs)
      ensures forall n :: n in status ==> status[n] == "configured"
    {
      status := map[];
      for i := 0 to |configs|
        invariant status.Keys == Names(configs[..i])
        invariant forall n :: n in status ==> status[n] == "configured"
      {
        status := status[configs[i].name := if configs[i].enabled then "configured" else "disabled"];
      }
      assert configs[..|configs|] == configs;
    }

    function IsConfigured(): (ok: bool)
      ensures ok <==> Names(configs) != {}
    {
      if |configs| > 0 then
        assert configs[0] in configs;
        assert configs[0].name in Names(configs);
        true
      else
        assert Names(configs) == {};
        false
    }
  }

  // ------------------------------------------------------------ loader

  /** One value of the `mcpServers` object: an object with optional keys, or
      something else (whose `.get` raises). */
  datatype ServerEntry =
    | ServerEntry(enabled: Option<Json>, command: Option<string>, args: Option<seq<string>>,
                  env: Option<map<string, string>>)
    | NotAnObject

  /** The configuration file: absent, unreadable as a JSON object, or its
      `mcpServers` member (if any) as name/value pairs in document order. */
  datatype ConfigFile = Missing | Malformed | Parsed(servers: Option<seq<(string, ServerEntry)>>)

  /** An entry the loader keeps: an object whose `enabled` is absent or truthy. */
  predicate Kept(e: ServerEntry) {
    e.ServerEntry? && (e.enabled.None? || Truthy(e.enabled.value))
  }

  /** The config a kept entry becomes: stdio, with the defaults "npx" and `[]`. */
  function ConfigOf(name: string, e: ServerEntry): (c: ServerConfig)
    requires e.ServerEntry?
    ensures c.name == name && c.transport == "stdio" && c.enabled && c.url.None?
    ensures c.command == e.command.GetOr("npx") && c.args == e.args.GetOr([]) && c.env == e.env
  {
    ServerConfig(name, "stdio", e.command.GetOr("npx"), e.args.GetOr([]), None, e.env, true)
  }

  /** The configs the loader keeps from `entries`: disabled servers are
      skipped, the first non-object entry ends loading (the error is caught
      after the loop), and every kept server is an enabled stdio server. */
  function Loaded(entries: seq<(string, ServerEntry)>): (r: seq<ServerConfig>)
    ensures |r| <= |entries|
    ensures forall c :: c in r ==> c.transport == "stdio" && c.enabled && c.url.None?
  {
    if entries == [] then []
    else
      var name := entries[0].0;
      var e := entries[0].1;
      if e.NotAnObject? then []
      else if !Kept(e) then Loaded(entries[1..])
      else [ConfigOf(name, e)] + Loaded(entries[1..])
  }

  /** The index of the first non-object entry, or the length. */
  function FirstBad(entries: seq<(string, ServerEntry)>): (i: nat)
    ensures i <= |entries|
    ensures forall k :: 0 <= k < i ==> entries[k].1.ServerEntry?
    ensures i < |entries| ==> entries[i].1.NotAnObject?
  {
    if entries == [] || entries[0].1.NotAnObject? then 0 else 1 + FirstBad(entries[1..])
  }

  /** One entry on its own. */
  lemma LoadedSingle(name: string, e: ServerEntry)
    ensures Loaded([(name, e)]) == if Kept(e) then [ConfigOf(name, e)] else []
  {
    assert [(name, e)][1..] == [];
  }

  /** Loading object entries and then more entries is loading each part. */
  lemma {:induction false} LoadedAppend(a: seq<(string, ServerEntry)>, b: seq<(string, ServerEntry)>)
    requires forall k :: 0 <= k < |a| ==> a[k].1.ServerEntry?
    ensures Loaded(a + b) == Loaded(a) + Loaded(b)
  {
    if a == [] {
      assert a + b == b;
    } else {
      assert (a + b)[1..] == a[1..] + b;
      LoadedAppend(a[1..], b);
    }
  }

  /** Nothing after a non-object entry is loaded. */
  lemma {:induction false} LoadedStops(a: seq<(string, ServerEntry)>, b: seq<(string, ServerEntry)>)
    requires b != [] && b[0].1.NotAnObject?
    ensures Loaded(a + b) == Loaded(a)
  {
    if a == [] {
      assert a + b == b;
    } else {
      assert (a + b)[1..] == a[1..] + b;
      LoadedStops(a[1..], b);
    }
  }

  /** A config is loaded exactly when some kept entry before the first
      non-object entry becomes it. */
  lemma {:induction false} LoadedMembers(entries: seq<(string, ServerEntry)>, c: ServerConfig)
    ensures c in Loaded(entries) <==>
              exists k :: 0 <= k < FirstBad(entries) && Kept(entries[k].1) && c == ConfigOf(entries[k].0, entries[k].1)
  {
    if entries != [] && entries[0].1.ServerEntry? {
      var rest := entries[1..];
      LoadedMembers(rest, c);
      assert FirstBad(entries) == 1 + FirstBad(rest);
      if c in Loaded(entries) && !(Kept(entries[0].1) && c == ConfigOf(entries[0].0, entries[0].1)) {
        var k :| 0 <= k < FirstBad(rest) && Kept(rest[k].1) && c == ConfigOf(rest[k].0, rest[k].1);
        assert entries[k + 1] == rest[k];
      }
      if exists k :: 0 <= k < FirstBad(entries) && Kept(entries[k].1) && c == ConfigOf(entries[k].0, entries[k].1) {
        var k :| 0 <= k < FirstBad(entries) && Kept(entries[k].1) && c == ConfigOf(entries[k].0, entries[k].1);
        if k > 0 {
          assert rest[k - 1] == entries[k];
        }
      }
    }
  }

  /** With every entry an enabled object, one config per entry, in document
      order, with the defaults "npx", `[]` and no environment. */
  lemma {:induction false} LoadedKeepsOrder(entries: seq<(string, ServerEntry)>)
    requires forall k :: 0 <= k < |entries| ==> entries[k].1.ServerEntry?
    requires forall k :: 0 <= k < |entries| ==> entries[k].1.enabled.None? || Truthy(entries[k].1.enabled.value)
    ensures |Loaded(entries)| == |entries|
    ensures forall k :: 0 <= k < |entries| ==>
              Loaded(entries)[k].name == entries[k].0
              && Loaded(entries)[k].command == entries[k].1.command.GetOr("npx")
              && Loaded(entries)[k].args == entries[k].1.args.GetOr([])
              && Loaded(entries)[k].env == entries[k].1.env
  {
    if entries != [] {
      LoadedKeepsOrder(entries[1..]);
      forall k | 1 <= k < |entries| ensures Loaded(entries)[k] == Loaded(entries[1..])[k - 1] {
      }
    }
  }

  method LoadMcpConfigsFromJson(file: ConfigFile) returns (configs: seq<ServerConfig>)
    ensures file.Missing? || file.Malformed? ==> configs == []
    ensures file.Parsed? ==> configs == Loaded(file.servers.GetOr([]))
  {
    configs := [];
    if !file.Parsed? {
      return;
    }
    var entries := file.servers.GetOr([]);
    for i := 0 to |entries|
      invariant configs + Loaded(entries[i..]) == Loaded(entries)
    {
      assert entries[i..][1..] == entries[i + 1..];
      var name := entries[i].0;
      var e := entries[i].1;
      if e.NotAnObject? {
        assert configs == Loaded(entries);
        return;
      }
      if e.enabled.Some? && !Truthy(e.enabled.value) {
        continue;
      }
      configs := configs + [ConfigOf(name, e)];
    }
    assert entries[|entries|..] == [];
  }
}
