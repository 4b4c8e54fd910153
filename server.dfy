/** The unified server: service registration in a fixed order, gated by the configuration,
    and the four protocol handlers. */
module McpServer {
  import opened Wrappers
  import opened Json
  import opened Config

  const ServerName := "Databricks Unified MCP Server"
  const ServerVersion := "0.1.0"
  const ProtocolVersion := "2024-11-05"

  /** A tool as `list_tools` advertises it. */
  datatype Tool = Tool(name: string, description: string, inputSchema: Json)

  /** A listing provider: called without arguments, it yields that service's tools. */
  type Provider = () -> seq<Tool>

  /** A tool handler: the call's arguments to its content, or the exception it raises. */
  type Handler = Json -> Result<Json>

  /** What a service's register function contributes: providers appended to `tools`, and
      entries written into `tool_handlers`. */
  datatype Registration = Registration(providers: seq<Provider>, handlers: map<string, Handler>)

  /** The service registry, in its iteration order. */
  const ServiceOrder: seq<string> := ["sql", "uc", "ws", "jobs"]

  datatype RequestKind = InitializeKind | PingKind | ListToolsKind | CallToolKind

  /** The request kinds the protocol handlers are installed for. */
  const ProtocolKinds: set<RequestKind> := {InitializeKind, PingKind, ListToolsKind, CallToolKind}

  /** The server the factory returns. */
  datatype Server = Server(
    name: string,
    tools: seq<Provider>,
    toolHandlers: map<string, Handler>,
    requestKinds: set<RequestKind>)

  /** The services of `order` that are enabled, in order. */
  function Selected(order: seq<string>, enabled: set<string>): seq<string> {
    if order == [] then []
    else
      var last := order[|order| - 1];
      Selected(order[..|order| - 1], enabled) + (if last in enabled then [last] else [])
  }

  /** The providers the selected services append, in order. */
  function Providers(services: seq<string>, register: string -> Registration): seq<Provider> {
    if services == [] then []
    else Providers(services[..|services| - 1], register) + register(services[|services| - 1]).providers
  }

  /** The handler map after the selected services wrote into it, in order: a later service
      overwrites an earlier one's entry of the same name. */
  function Handlers(services: seq<string>, register: string -> Registration): map<string, Handler> {
    if services == [] then map[]
    else Handlers(services[..|services| - 1], register) + register(services[|services| - 1]).handlers
  }

  /** A service is selected exactly when it is in the order and enabled. */
  lemma {:induction false} SelectedMembers(order: seq<string>, enabled: set<string>)
    ensures forall s :: s in Selected(order, enabled) <==> s in order && s in enabled
  {
    if order != [] {
      var init := order[..|order| - 1];
      SelectedMembers(init, enabled);
      assert order == init + [order[|order| - 1]];
    }
  }

  /** With every service enabled, all of them are selected, in order. */
  lemma {:induction false} SelectedAll(order: seq<string>, enabled: set<string>)
    requires forall i :: 0 <= i < |order| ==> order[i] in enabled
    ensures Selected(order, enabled) == order
  {
    if order != [] {
      var init := order[..|order| - 1];
      SelectedAll(init, enabled);
      assert order == init + [order[|order| - 1]];
    }
  }

  /** The registration loop: each service of `order` that `config` reports as enabled has
      its register function called, in order. `invoked` lists the services whose register
      function ran. */
  method RegisterServices(config: DatabricksConfig, order: seq<string>,
                          register: string -> Registration)
    returns (tools: seq<Provider>, toolHandlers: map<string, Handler>, invoked: seq<string>)
    ensures invoked == Selected(order, config.EnabledServices())
    ensures tools == Providers(invoked, register)
    ensures toolHandlers == Handlers(invoked, register)
  {
    ghost var enabled := config.EnabledServices();
    tools := [];
    toolHandlers := map[];
    invoked := [];
    for i := 0 to |order|
      invariant invoked == Selected(order[..i], enabled)
      invariant tools == Providers(invoked, register)
      invariant toolHandlers == Handlers(invoked, register)
    {
      var name := order[i];
      assert order[..i + 1][..i] == order[..i];
      if config.IsServiceEnabled(name) {
        var registration := register(name);
        tools := tools + registration.providers;
        toolHandlers := toolHandlers + registration.handlers;
        assert (invoked + [name])[..|invoked|] == invoked;
        invoked := invoked + [name];
      }
    }
    assert order[..|order|] == order;
  }

  /** `create_databricks_mcp_server`: registers the enabled services in registry order (all
      four when no configuration is given), then installs the protocol handlers. */
  method CreateServer(config: DatabricksConfig?, register: string -> Registration)
    returns (s: Server, invoked: seq<string>)
    ensures config != null ==> invoked == Selected(ServiceOrder, config.EnabledServices())
    ensures config == null ==> invoked == ServiceOrder
    ensures s.name == ServerName
    ensures s.tools == Providers(invoked, register)
    ensures s.toolHandlers == Handlers(invoked, register)
    ensures s.requestKinds == ProtocolKinds
  {
    var cfg := config;
    if cfg == null {
      cfg := new DatabricksConfig();
      assert cfg.EnabledServices() == ServiceNames;
      SelectedAll(ServiceOrder, ServiceNames);
    }
    var tools, toolHandlers;
    tools, toolHandlers, invoked := RegisterServices(cfg, ServiceOrder, register);
    s := Server(ServerName, tools, toolHandlers, ProtocolKinds);
  }

  /** Every tool the providers yield, provider by provider, in order. */
  function Listing(providers: seq<Provider>): seq<Tool> {
    if providers == [] then []
    else Listing(providers[..|providers| - 1]) + providers[|providers| - 1]()
  }

  /** Listing distributes over appending providers. */
  lemma {:induction false} ListingAppend(a: seq<Provider>, b: seq<Provider>)
    ensures Listing(a + b) == Listing(a) + Listing(b)
  {
    if b == [] {
      assert a + b == a;
    } else {
      var init := b[..|b| - 1];
      assert (a + b)[..|a + b| - 1] == a + init;
      ListingAppend(a, init);
    }
  }

  /** The tools each selected service advertises, service by service. */
  function ServiceListing(services: seq<string>, register: string -> Registration): seq<Tool> {
    if services == [] then []
    else ServiceListing(services[..|services| - 1], register)
         + Listing(register(services[|services| - 1]).providers)
  }

  /** The listing of a created server is the services' own listings, in registry order. */
  lemma {:induction false} ListingByService(services: seq<string>, register: string -> Registration)
    ensures Listing(Providers(services, register)) == ServiceListing(services, register)
  {
    if services != [] {
      var init := services[..|services| - 1];
      ListingByService(init, register);
      ListingAppend(Providers(init, register), register(services[|services| - 1]).providers);
    }
  }

  /** A tool name is handled exactly when some selected service registered it, and then by
      the last such service. */
  lemma {:induction false} HandlerOwner(services: seq<string>, register: string -> Registration,
                                        name: string)
    ensures name in Handlers(services, register) <==>
            exists j :: 0 <= j < |services| && name in register(services[j]).handlers
    ensures forall j :: 0 <= j < |services| && name in register(services[j]).handlers
                        && (forall k :: j < k < |services| ==> name !in register(services[k]).handlers)
                        ==> name in Handlers(services, register)
                            && Handlers(services, register)[name] == register(services[j]).handlers[name]
  {
    if services != [] {
      var n := |services| - 1;
      var init := services[..n];
      HandlerOwner(init, register, name);
      assert forall j :: 0 <= j < n ==> init[j] == services[j];
      if name in register(services[n]).handlers {
      } else {
        if name in Handlers(services, register) {
          var j :| 0 <= j < n && name in register(init[j]).handlers;
          assert name in register(services[j]).handlers;
        }
      }
    }
  }

  /** The answer to `initialize`. */
  datatype InitializeResult = InitializeResult(
    serverName: string,
    serverVersion: string,
    protocolVersion: string,
    toolsCapability: bool)

  /** A request the protocol handlers accept. */
  datatype Request =
    | InitializeRequest
    | PingRequest
    | ListToolsRequest
    | CallToolRequest(toolName: string, arguments: Json)

  function KindOf(req: Request): RequestKind {
    match req
    case InitializeRequest => InitializeKind
    case PingRequest => PingKind
    case ListToolsRequest => ListToolsKind
    case CallToolRequest(_, _) => CallToolKind
  }

  datatype Response =
    | Initialized(info: InitializeResult)
    | EmptyResult
    | ToolList(tools: seq<Tool>)
    | ToolContent(content: Json)

  /** `handle_initialize`: a constant answer naming the server, its version, the protocol
      version and the tools capability. */
  function HandleInitialize(): (r: InitializeResult)
    ensures r.serverName == "Databricks Unified MCP Server"
    ensures r.serverVersion == "0.1.0" && r.protocolVersion == "2024-11-05"
    ensures r.toolsCapability
  {
    InitializeResult(ServerName, ServerVersion, ProtocolVersion, true)
  }

  /** `handle_list_tools`: calls every provider in order and concatenates what they yield. */
  method HandleListTools(s: Server) returns (allTools: seq<Tool>)
    ensures allTools == Listing(s.tools)
  {
    allTools := [];
    for i := 0 to |s.tools|
      invariant allTools == Listing(s.tools[..i])
    {
      assert s.tools[..i + 1][..i] == s.tools[..i];
      var toolList := s.tools[i]();
      allTools := allTools + toolList;
    }
    assert s.tools[..|s.tools|] == s.tools;
  }

  /** The message for a tool name without a handler. */
  function UnknownToolMessage(name: string): string {
    "Unknown tool: " + name
  }

  /** `handle_call_tool`: an unknown name raises before any handler runs; a known one runs
      exactly its handler on the arguments and passes the content through. `calls` lists the
      handler invocations. */
  method HandleCallTool(s: Server, name: string, arguments: Json)
    returns (r: Result<Json>, calls: seq<(string, Json)>)
    ensures name !in s.toolHandlers <==> r == Err(Error(ValueError, UnknownToolMessage(name)))
                                         && calls == []
    ensures name in s.toolHandlers ==> r == s.toolHandlers[name](arguments)
                                       && calls == [(name, arguments)]
  {
    if name !in s.toolHandlers {
      return Err(Error(ValueError, UnknownToolMessage(name))), [];
    }
    var content := s.toolHandlers[name](arguments);
    return content, [(name, arguments)];
  }

  /** The server's dispatch: every request kind it accepts goes to its handler. */
  method Handle(s: Server, req: Request) returns (r: Result<Response>, calls: seq<(string, Json)>)
    requires KindOf(req) in s.requestKinds
    ensures req.InitializeRequest? ==> r == Ok(Initialized(HandleInitialize())) && calls == []
    ensures req.PingRequest? ==> r == Ok(EmptyResult) && calls == []
    ensures req.ListToolsRequest? ==> r == Ok(ToolList(Listing(s.tools))) && calls == []
    ensures req.CallToolRequest? && req.toolName !in s.toolHandlers ==>
              r == Err(Error(ValueError, UnknownToolMessage(req.toolName))) && calls == []
    ensures req.CallToolRequest? && req.toolName in s.toolHandlers ==>
              var h := s.toolHandlers[req.toolName](req.arguments);
              && calls == [(req.toolName, req.arguments)]
              && r == (if h.Ok? then Ok(ToolContent(h.value)) else Err(h.error))
  {
    match req
    case InitializeRequest =>
      r, calls := Ok(Initialized(HandleInitialize())), [];
    case PingRequest =>
      r, calls := Ok(EmptyResult), [];
    case ListToolsRequest =>
      var tools := HandleListTools(s);
      r, calls := Ok(ToolList(tools)), [];
    case CallToolRequest(name, arguments) =>
      var content;
      content, calls := HandleCallTool(s, name, arguments);
      if content.Err? {
        r := Err(content.error);
      } else {
        r := Ok(ToolContent(content.value));
      }
  }
}
