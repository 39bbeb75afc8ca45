/** `MCPClient` and its three transports (stdio, SSE, streamable HTTP):
    connecting, listing the server's tools as agent tools, calling a tool,
    and closing once. */
module Mcp {
  import opened Wrappers
  import opened Errors
  import opened Json
  import opened OrderedDict
  import opened Tool

  /** An entry of `list_tools().tools`. */
  datatype ListedTool = ListedTool(name: string, description: Option<string>, inputSchema: Json)

  /** An entry of `CallToolResult.content`: a text part has `text`; image,
      audio and resource parts have none. */
  datatype ContentPart = ContentPart(text: Option<string>)

  datatype CallToolResult = CallToolResult(content: seq<ContentPart>)

  /** How the server behind a transport answers each step of the
      life-cycle: whether the transport context and the `ClientSession`
      context can be entered, whether `initialize` succeeds, what
      `list_tools` returns (`None` when it raises), what `call_tool`
      returns for a name and arguments, and whether the session's and the
      transport's `__aexit__` return or raise. */
  datatype Server = Server(
    clientEnters: bool,
    sessionEnters: bool,
    initializes: bool,
    listTools: Option<seq<ListedTool>>,
    callTool: (string, Json) -> Result<CallToolResult, Error>,
    sessionExits: bool,
    transportExits: bool)

  /** `call_tool(name, arguments)`: the `text` of the first content part. */
  function CallTool(server: Server, name: string, arguments: Json): (r: Result<string, Error>)
    ensures var res := server.callTool(name, arguments);
            && (r.Success? <==> res.Success? && res.value.content != [] && res.value.content[0].text.Some?)
            && (r.Success? ==> r.value == res.value.content[0].text.value)
            && (res.Failure? ==> r == Failure(res.error))
            && (res.Success? && res.value.content == [] ==> r.Failure? && r.error.IndexError?)
  {
    var res := server.callTool(name, arguments);
    if res.Failure? then Failure(res.error)
    else if res.value.content == [] then Failure(IndexError("list index out of range"))
    else if res.value.content[0].text.None? then Failure(AttributeError("content part has no attribute 'text'"))
    else Success(res.value.content[0].text.value)
  }

  /** The `Tool` the comprehension builds for a listed tool; its callable is
      `lambda arguments, name=tool.name: self.call_tool(name, arguments)`,
      so it keeps the name of its own listed tool. */
  function MakeTool(server: Server, t: ListedTool): AgentTool
  {
    var description := if t.description.Some? then JStr(t.description.value) else JNull;
    Tool(t.name, FunctionDefine(t.name, description, t.inputSchema),
         (arguments: Json) => CallTool(server, t.name, arguments))
  }

  /** `{tool.name: Tool(...) for tool in listed}` */
  function BuildTools(server: Server, listed: seq<ListedTool>): (r: ToolMap)
    ensures r.Valid()
  {
    if listed == [] then Empty()
    else
      var last := listed[|listed| - 1];
      BuildTools(server, listed[..|listed| - 1]).Set(last.name, MakeTool(server, last))
  }

  /** The names of the listed tools, in listing order. */
  function Names(listed: seq<ListedTool>): (r: seq<string>)
    ensures |r| == |listed| && forall i :: 0 <= i < |listed| ==> r[i] == listed[i].name
  {
    if listed == [] then [] else Names(listed[..|listed| - 1]) + [listed[|listed| - 1].name]
  }

  /** The last listed tool called `name`. */
  function LastNamed(listed: seq<ListedTool>, name: string): (r: Option<ListedTool>)
    ensures r.None? <==> name !in Names(listed)
    ensures r.Some? ==> r.value.name == name && r.value in listed
  {
    if listed == [] then None
    else if listed[|listed| - 1].name == name then Some(listed[|listed| - 1])
    else
      var r := LastNamed(listed[..|listed| - 1], name);
      assert Names(listed) == Names(listed[..|listed| - 1]) + [listed[|listed| - 1].name];
      r
  }

  /** The dict has one key per distinct listed name, in order of first
      listing. */
  lemma {:induction false} BuildToolsKeys(server: Server, listed: seq<ListedTool>)
    ensures BuildTools(server, listed).keys == AppendNew([], Names(listed))
    decreases |listed|
  {
    if listed != [] {
      var n := |listed|;
      var pre := listed[..n - 1];
      assert Names(listed) == Names(pre) + [listed[n - 1].name];
      assert BuildTools(server, pre).keys == AppendNew([], Names(pre)) by {
        BuildToolsKeys(server, pre);
      }
      AppendNewSnoc([], Names(pre), listed[n - 1].name);
    }
  }

  /** The dict's keys are exactly the listed names. */
  lemma {:induction false} BuildToolsKeySet(server: Server, listed: seq<ListedTool>)
    ensures BuildTools(server, listed).Keys() == Elements(Names(listed))
  {
    BuildToolsKeys(server, listed);
    AppendNewElements([], Names(listed));
  }

  /** Each name holds the tool built from the LAST listed tool of that name:
      a later duplicate replaces an earlier one. */
  lemma {:induction false} BuildToolsGet(server: Server, listed: seq<ListedTool>, name: string)
    ensures BuildTools(server, listed).Get(name)
         == if LastNamed(listed, name).Some? then Some(MakeTool(server, LastNamed(listed, name).value)) else None
    decreases |listed|
  {
    if listed != [] {
      var last := listed[|listed| - 1];
      BuildToolsGet(server, listed[..|listed| - 1], name);
      SetGet(BuildTools(server, listed[..|listed| - 1]), last.name, MakeTool(server, last), name);
    }
  }

  /** A built tool is named after its listed tool, defines a function of
      that name with the listed input schema, and calls the server's
      `call_tool` with that name. */
  lemma {:induction false} MakeToolBound(server: Server, t: ListedTool, arguments: Json)
    ensures var tool := MakeTool(server, t);
            && tool.toolName == t.name
            && DefinedName(tool.toolDefine) == Some(t.name)
            && FunctionField(tool.toolDefine, "parameters") == Some(t.inputSchema)
            && FunctionField(tool.toolDefine, "strict") == Some(JBool(true))
            && tool.Call(arguments) == CallTool(server, t.name, arguments)
  {
    var description := if t.description.Some? then JStr(t.description.value) else JNull;
    var define := FunctionDefine(t.name, description, t.inputSchema);
    assert MakeTool(server, t).toolDefine == define;
  }

  /** Every tool sits under its own name, and its closure calls `call_tool`
      with that name and nothing else. */
  lemma {:induction false} ToolsBoundToOwnName(server: Server, listed: seq<ListedTool>, name: string, arguments: Json)
    requires name in BuildTools(server, listed).keys
    ensures var t := BuildTools(server, listed).Get(name).value;
            && t.toolName == name
            && DefinedName(t.toolDefine) == Some(name)
            && t.Call(arguments) == CallTool(server, name, arguments)
  {
    BuildToolsGet(server, listed, name);
    MakeToolBound(server, LastNamed(listed, name).value, arguments);
  }

  /** The async context managers a client holds: the transport's
      (`_client_cm`) and the `ClientSession`'s (`_session_cm`). */
  datatype Context = TransportContext | SessionContext

  /** The `__aexit__` calls `close` makes when it runs: the session's, then
      the transport's, each only if it was set. */
  function PendingExits(sessionCm: bool, clientCm: bool): seq<Context>
  {
    (if sessionCm then [SessionContext] else []) + (if clientCm then [TransportContext] else [])
  }

  /** What `close` does: the `__aexit__` calls it makes, in order, and the
      exception one of them raised. */
  datatype Closing = Closing(exits: seq<Context>, outcome: Result<(), Error>)

  /** The body of the first `close`: exit the session context, then the
      transport context, each only if it was set. A raising exit propagates,
      so a raising session exit leaves the transport context entered. */
  function Shutdown(server: Server, sessionCm: bool, clientCm: bool): (r: Closing)
    ensures r.outcome.Success? <==> (sessionCm ==> server.sessionExits) && (clientCm ==> server.transportExits)
    ensures r.outcome.Success? ==> r.exits == PendingExits(sessionCm, clientCm)
    ensures r.exits <= PendingExits(sessionCm, clientCm)
    ensures TransportContext in r.exits <==> clientCm && (sessionCm ==> server.sessionExits)
  {
    if sessionCm && !server.sessionExits then
      Closing([SessionContext], Failure(Raised("the session context's __aexit__ raised")))
    else if clientCm && !server.transportExits then
      Closing(PendingExits(sessionCm, clientCm), Failure(Raised("the transport context's __aexit__ raised")))
    else Closing(PendingExits(sessionCm, clientCm), Success(()))
  }

  /** `close()` from any state of the `closed` attribute: while it is unset
      (`None`: the client was not set up by `create`) reading it raises
      `AttributeError`; once it is `True` nothing happens; while it is
      `False` the client shuts down. */
  function CloseEffect(closed: Option<bool>, server: Server, sessionCm: bool, clientCm: bool): (r: Closing)
    ensures closed.None? ==> r.exits == [] && r.outcome.Failure? && r.outcome.error.AttributeError?
    ensures closed == Some(true) ==> r.exits == [] && r.outcome.Success?
    ensures closed == Some(false) ==> r == Shutdown(server, sessionCm, clientCm)
  {
    if closed.None? then Closing([], Failure(AttributeError("object has no attribute 'closed'")))
    else if closed.value then Closing([], Success(()))
    else Shutdown(server, sessionCm, clientCm)
  }

  /** What `create` yields: the tool dict, or the exception it raises. When
      `initialize` fails, `connect` closes the client before raising
      `MCPConnectionError`, and an exception from that `close` takes its
      place. */
  function CreateTools(transport: Transport, server: Server): (r: Result<ToolMap, Error>)
    ensures r.Success? <==> server.clientEnters && server.sessionEnters && server.initializes && server.listTools.Some?
    ensures server.clientEnters && server.sessionEnters && !server.initializes ==>
              r.Failure? && (r.error == McpConnectionError(transport) <==> server.sessionExits && server.transportExits)
    ensures server.clientEnters && server.sessionEnters && !server.initializes && !(server.sessionExits && server.transportExits) ==>
              Failure(r.error) == Shutdown(server, true, true).outcome
    ensures r.Success? ==> r.value == BuildTools(server, server.listTools.value)
  {
    if !server.clientEnters then Failure(Raised("the transport could not be opened"))
    else if !server.sessionEnters then Failure(Raised("the client session could not be opened"))
    else if !server.initializes then
      var closing := Shutdown(server, true, true);
      if closing.outcome.Failure? then Failure(closing.outcome.error) else Failure(McpConnectionError(transport))
    else if server.listTools.None? then Failure(Raised("list_tools failed"))
    else Success(BuildTools(server, server.listTools.value))
  }

  /** Whether `connect` closed the client: the handshake got as far as
      `initialize`, which failed. */
  predicate InitFails(server: Server)
  {
    server.clientEnters && server.sessionEnters && !server.initializes
  }

  class McpClient {
    /** The command and arguments, or the URL, the client was made for. */
    const transport: Transport
    const server: Server
    /** The `closed` attribute: `None` until `create` sets it. */
    var closed: Option<bool>
    /** `_client_cm is not None` */
    var clientCm: bool
    /** `_session_cm is not None` */
    var sessionCm: bool
    /** The contexts whose `__aenter__` succeeded, in order. */
    var entered: seq<Context>
    /** The `__aexit__` calls made so far, in order, including one that raised. */
    var exited: seq<Context>
    var tools: ToolMap

    /** `__init__`: both contexts unset, and no `closed` attribute yet. */
    constructor (transport: Transport, server: Server)
      ensures this.transport == transport && this.server == server
      ensures !clientCm && !sessionCm && closed.None?
      ensures entered == [] && exited == [] && tools == Empty()
    {
      this.transport := transport;
      this.server := server;
      closed := None;
      clientCm := false;
      sessionCm := false;
      entered := [];
      exited := [];
      tools := Empty();
    }

    /** `close()`: the first call marks the client closed, then exits the
      session context before the transport context; an exit that raises
      propagates and skips what follows. Later calls do nothing. Before
      `create` has set `closed`, the call raises `AttributeError`. */
    method Close() returns (r: Result<(), Error>)
      modifies this
      ensures var e := CloseEffect(old(closed), server, old(sessionCm), old(clientCm));
              r == e.outcome && exited == old(exited) + e.exits
      ensures closed == (if old(closed).None? then None else Some(true))
      ensures clientCm == old(clientCm) && sessionCm == old(sessionCm)
      ensures entered == old(entered) && tools == old(tools)
    {
      if closed.None? {
        return Failure(AttributeError("object has no attribute 'closed'"));
      }
      r := Success(());
      if !closed.value {
        closed := Some(true);
        if sessionCm {
          exited := exited + [SessionContext];
          if !server.sessionExits {
            return Failure(Raised("the session context's __aexit__ raised"));
          }
        }
        if clientCm {
          exited := exited + [TransportContext];
          if !server.transportExits {
            return Failure(Raised("the transport context's __aexit__ raised"));
          }
        }
      }
    }

    /** `connect()`: enter the transport context, then the session context,
        then `initialize`; a failing `initialize` closes the client and
        raises `MCPConnectionError` naming the command or URL, unless the
        close itself raises. A failing `__aenter__` raises with nothing
        closed. */
    method Connect() returns (r: Result<(), Error>)
      requires closed == Some(false) && !clientCm && !sessionCm && entered == [] && exited == []
      modifies this
      ensures r.Success? <==> server.clientEnters && server.sessionEnters && server.initializes
      ensures r.Failure? ==> r == CreateTools(transport, server).PropagateFailure()
      ensures clientCm && sessionCm == server.clientEnters && tools == old(tools)
      ensures entered == (if !server.clientEnters then []
                          else if !server.sessionEnters then [TransportContext]
                          else [TransportContext, SessionContext])
      ensures closed == Some(InitFails(server))
      ensures exited == (if InitFails(server) then Shutdown(server, true, true).exits else [])
    {
      clientCm := true;
      if !server.clientEnters {
        return Failure(Raised("the transport could not be opened"));
      }
      entered := entered + [TransportContext];
      sessionCm := true;
      if !server.sessionEnters {
        return Failure(Raised("the client session could not be opened"));
      }
      entered := entered + [SessionContext];
      if !server.initializes {
        var closing := Close();
        if closing.Failure? {
          return Failure(closing.error);
        }
        return Failure(McpConnectionError(transport));
      }
      r := Success(());
    }

    /** `MCPClient.create(...)`: construct, set `closed = False`, connect,
        then build the tool dict from `list_tools`. The client is returned
        only on success; `attempt` is the object either way. When
        `list_tools` raises, the opened contexts are never exited. */
    static method Create(transport: Transport, server: Server) returns (r: Result<McpClient, Error>, ghost attempt: McpClient)
      ensures fresh(attempt) && attempt.transport == transport && attempt.server == server
      ensures r.Success? <==> CreateTools(transport, server).Success?
      ensures r.Success? ==> r.value == attempt && attempt.tools == CreateTools(transport, server).value
      ensures r.Failure? ==> r.error == CreateTools(transport, server).error
      ensures attempt.closed == Some(InitFails(server))
      ensures attempt.exited == (if InitFails(server) then Shutdown(server, true, true).exits else [])
      ensures attempt.clientCm && attempt.sessionCm == server.clientEnters
      ensures attempt.entered == (if !server.clientEnters then []
                                  else if !server.sessionEnters then [TransportContext]
                                  else [TransportContext, SessionContext])
    {
      var c := new McpClient(transport, server);
      attempt := c;
      c.closed := Some(false);
      var connected := c.Connect();
      if connected.Failure? {
        return Failure(connected.error), attempt;
      }
      if server.listTools.None? {
        return Failure(Raised("list_tools failed")), attempt;
      }
      c.tools := BuildTools(server, server.listTools.value);
      r := Success(c);
    }
  }
}
