# A verified model of the MCP/A2A chat agent

This project models the book-keeping core of a Python chat agent. The agent
gathers tools from MCP servers (over stdio, SSE or streamable HTTP) and from
peer agents reached over the A2A protocol. It offers those tools to an
OpenAI-style LLM and runs the LLM's tool calls until the LLM answers without
any.

The modelled pieces:

- **Tool federation** (`Agent.create`). Each provider's name→`Tool` dict is
  merged into `self.tools` unless one of its names is already taken. A
  refused MCP client is closed. Providers are tried in a fixed order: stdio,
  SSE, streamable HTTP, then the remote agents.
- **The chat loop** (`Agent.invoke`). It inserts the system message, appends
  the LLM's reply, answers every tool call with a tool message, asks again
  while tool calls remain, and pops the system message at the end. The
  remote-agent executor answers with the content of the last message.
- **The streamed reply** (`StreamToolAggregator`, `process_stream`). Text
  deltas are concatenated and stripped once. Tool-call fragments are
  gathered by index: the first fragment fills a slot and later fragments only
  extend its argument string.
- **The MCP client** (`MCPClient`). It covers `create`, the tool dict built
  from `list_tools`, `call_tool`'s first-part text, the fail-then-close path
  of `connect`, and `close`. The `closed` flag makes `close` run its two
  context exits at most once, and either exit may raise.
- **The peer-agent registry** (`CustomA2AClient`). Registration is
  first-wins by card name and skips unreachable peers. There is one
  synthetic `call_agent` tool, whose generated description lists agents,
  skills and examples. The module also covers the unknown-agent reply, the
  outgoing payload and reply-text extraction.
- **The `Tool` record**, **the `tool_wrapper` decorator** and the demo MCP
  tools **`greet`** and **`bye`**.

Python values map to Dafny as follows:

- **Dicts** (`OrderedDict.Dict`): keys and values kept in insertion order.
  Assigning to an existing key keeps its place; a new key goes to the end.
- **Exceptions**: the `Failure` case of `Result`.
- **State-changing objects** are classes:
  - `Agent.Agent`, with fields `tools` and `mcpServers`;
  - `Mcp.McpClient`, with `closed`, the two context-manager fields, and the
    contexts entered and exited;
  - `A2aClient.CustomA2AClient`;
  - `Stream.StreamToolAggregator`;
  - `Agent.MessageList`, the caller's message list.
- **The outside world is passed in as values**:
  - the LLM is `Agent.Llm`, an oracle from messages and tool definitions to a
    completion or a stream of chunks;
  - `json.loads` is a partial `parse` function;
  - each MCP server is `Mcp.Server`, the outcome of every transport step;
  - each peer agent is reached through `A2aClient.Peers`.

Most loops of the Python code are methods with loop invariants, each proved
equal to a recursive specification function: `Federate` and `Escape`,
`RunCalls`, `Rounds`, `InvokeSpec`, `AddAll`, `Consume`, `Registry` or
`Blocks`. The lemmas then state what the code promises about those
functions. Two loops are modelled differently. The loop over a reply's
`parts` returns from inside, so it is the recursive function
`A2aClient.FirstText`. The loop of `Agent.close` is proved against its own
`ensures`, client by client.

The model follows the code in these places, where its behaviour may be
unexpected:

- In `invoke`, a tool call whose arguments `json.loads` rejects, or whose
  name is not a known tool, raises out of `invoke`. No tool message records
  the failure (`Agent.RunCallMeaning`).
- `call_tool` returns the `text` of the first content part only. An empty
  content list raises `IndexError`. A first part without text raises
  `AttributeError`. There is no JSON fallback (`Mcp.CallTool`).
- The `call_agent` description puts the first agent straight after the
  prefix `"...Danh sách các agent:"` with no line break. The usage example
  in `tool.py`'s documentation shows a line break there
  (`A2aClient.DescriptionStartsWithFirstAgent`).
- If `list_tools` fails after `connect` succeeded, `create` raises. The
  caller never receives the client, so its two entered contexts are never
  exited (`Mcp.McpClient.Create`).
- A skill whose `examples` is `None` makes `get_tool_define` raise
  `TypeError`. The constructor then raises, and `create` drops the whole
  remote-agent provider (`A2aClient.BlocksSucceed`, `Agent.Agent.AddRemoteAgents`).
- Non-streamed content that is `None` raises `AttributeError` on `.strip()`
  (`Agent.ReplyMeaning`).
- A later stream fragment whose `arguments` is `None` raises `TypeError` in
  `add` (`Stream.AddAllSucceeds`).
- `call_remote_agent` tests `agent_name in self.agents` before anything
  else. A list or dict as the name raises `TypeError`. An unregistered
  integer, boolean or `None` gets the unknown-agent reply, showing the
  value as `str()` does, whatever the message is
  (`A2aClient.UnknownAgentNotSent`, `A2aClient.IntAgentNameAnswered`).
- `MCPClient.__init__` never sets `closed`. Only `create` does, so `close`
  on a client that `create` did not set up raises `AttributeError`
  (`Mcp.CloseEffect`).
- `close` sets `closed` before its two exits. A session exit that raises
  leaves the transport context entered for good (`Mcp.Shutdown`).
- In `create`, a refused client is closed inside a bare `except:` handler.
  An exception from that `close` is not caught: it escapes `create`, and
  the later providers are never tried (`Agent.Escape`). `Agent.close`
  stops at the first client whose `close` raises.

## Model

| member | source | states |
|---|---|---|
| Tool.Tool.Call | agent_code_chay/tool.py:61-103 | calling a tool forwards its argument to `call_tool_function` and returns that function's result unchanged |
| Tool.NameNotChecked | agent_code_chay/tool.py:57-59 | the constructor stores its three arguments unchanged and accepts a `tool_name` that differs from the name in `tool_define` |
| Tool.HelloAliceExample | agent_code_chay/tool.py:48-54 | the documented example: a tool wrapping `"Hello, " + x` answers "Hello, Alice" for "Alice" |
| Tool.FunctionDefine | agent_code_chay/mcp_client.py:63-71 | a function-calling definition has `type` "function", and its `function` holds the given name, description and parameters with `strict` True |
| Mcp.CallTool | agent_code_chay/mcp_client.py:118-119 | `call_tool` succeeds exactly when the server answers with a first content part that has text, and then returns that text; a server exception propagates; an empty content list is an `IndexError` |
| Mcp.BuildTools | agent_code_chay/mcp_client.py:60-77 | the comprehension over the listed tools yields a well-formed dict with distinct keys |
| Mcp.BuildToolsKeys | agent_code_chay/mcp_client.py:60-77 | the dict's keys are the listed names, each once, in order of first listing |
| Mcp.BuildToolsKeySet | agent_code_chay/mcp_client.py:60-77 | the dict has exactly one key per listed tool name |
| Mcp.BuildToolsGet | agent_code_chay/mcp_client.py:60-77 | each name holds the tool built from the last listed tool with that name, so a later duplicate replaces an earlier one |
| Mcp.LastNamed | agent_code_chay/mcp_client.py:60-77 | the last listed tool with a name exists exactly when the name is listed, and it is a listed tool with that name |
| Mcp.MakeToolBound | agent_code_chay/mcp_client.py:61-75 | a built tool is named after its listed tool; its definition carries that name, the listed input schema and `strict` True; calling it is `call_tool` with that name |
| Mcp.MakeTool | agent_code_chay/mcp_client.py:60-75 | the `Tool` built for one listed tool: its name, the function definition with the listed description and input schema, and a closure calling `call_tool` with the name bound when the tool is built |
| Mcp.ToolsBoundToOwnName | agent_code_chay/mcp_client.py:72-74 | the tool stored under a name is named after it and calls `call_tool` with that same name, so no closure captures another tool's name |
| Mcp.CreateTools | agent_code_chay/mcp_client.py:53-77 | `create` yields a tool dict exactly when the transport opens, the session opens, `initialize` succeeds and `list_tools` answers, and the dict is the one built from the listing; a failed `initialize` raises `MCPConnectionError` naming the transport exactly when both exits of the close that `connect` makes return, and otherwise raises what that close raised |
| Mcp.McpClient.constructor | agent_code_chay/mcp_client.py:158-168 | a new client has neither context set, has no `closed` attribute yet, and has entered and exited nothing |
| Mcp.Shutdown | agent_code_chay/mcp_client.py:123-128 | the first close succeeds exactly when every set context exits without raising, and then exits the set contexts, session first; the exits made are always a prefix of that order, and the transport context is exited exactly when it was set and the session exit did not raise |
| Mcp.CloseEffect | agent_code_chay/mcp_client.py:121-128 | with `closed` unset the call raises `AttributeError` and exits nothing; with `closed` True it exits nothing and succeeds; with `closed` False it is `Shutdown` |
| Mcp.McpClient.Close | agent_code_chay/mcp_client.py:121-128 | `close` does what `CloseEffect` says of the old `closed`: before `create` it raises `AttributeError`; the first call marks the client closed and then exits the session context, then the transport context, stopping at an exit that raises and raising it; a later call does nothing; the entered contexts and the tools are unchanged |
| Mcp.McpClient.Connect | agent_code_chay/mcp_client.py:170-184 | `connect` enters the transport and then the session; it succeeds exactly when all three steps do; a failed `initialize` closes the client, exiting what `Shutdown` exits, and raises `MCPConnectionError` unless that close raised first; the same holds for SSE (lines 217-231) and streamable HTTP (lines 264-278) |
| Mcp.McpClient.Create | agent_code_chay/mcp_client.py:29-79 | `create` sets `closed` to False before connecting, so the close made by a failed `initialize` runs and leaves `closed` True; it returns the client, holding the tool dict built from the listing, exactly when `CreateTools` succeeds, and otherwise raises `CreateTools`'s exception; when `list_tools` fails, the entered contexts stay open |
| A2aClient.CardUrlShape | agent_code_chay/a2a_client.py:46-48 | the card URL is the server URL with its trailing slashes removed, followed by the well-known card path |
| Text.RStripChar | agent_code_chay/a2a_client.py:46 | `rstrip("/")` leaves a prefix of the URL that does not end in "/", and removes only slashes |
| A2aClient.Register | agent_code_chay/a2a_client.py:58-66 | registering a card keeps the registry a well-formed dict |
| A2aClient.Registry | agent_code_chay/a2a_client.py:45-66 | the registration loop yields a well-formed dict |
| A2aClient.RegistryFirstWins | agent_code_chay/a2a_client.py:58-66 | under each name the registry holds the first card fetched with that name, and no name is registered that no fetched card carries |
| A2aClient.RegistryKeeps | agent_code_chay/a2a_client.py:58-66 | an agent registered from earlier URLs keeps its card, whatever later URLs serve |
| A2aClient.UnreachableSkipped | agent_code_chay/a2a_client.py:47-55 | a URL whose card cannot be fetched changes nothing: the registry is the same as if that URL were absent, and later URLs are still processed |
| A2aClient.SkillDescriptions | agent_code_chay/a2a_client.py:99 | one description per skill, in order |
| A2aClient.Examples | agent_code_chay/a2a_client.py:100-102 | flattening the examples succeeds exactly when every skill has an examples list |
| A2aClient.AgentBlock | agent_code_chay/a2a_client.py:104-110 | an agent's block can be built exactly when its examples can be flattened |
| A2aClient.BlocksSucceed | agent_code_chay/a2a_client.py:97-110 | the description can be built exactly when every skill of every registered agent lists its examples |
| A2aClient.DescriptionStartsWithFirstAgent | agent_code_chay/a2a_client.py:97-110 | the agent blocks start with the first registered agent's name and description, right after the prefix with no line break |
| A2aClient.CallAgentDefine | agent_code_chay/a2a_client.py:97-133 | `get_tool_define` succeeds exactly when every block does; the definition names `call_agent`, its description is the prefix followed by the blocks in registration order, and it has the fixed parameter schema with `strict` True |
| A2aClient.ParametersRequireBoth | agent_code_chay/a2a_client.py:117-131 | the parameter schema requires exactly `message` and `agent_name` |
| A2aClient.CustomA2AClient.GetToolDefine | agent_code_chay/a2a_client.py:83-133 | the `+=` loop over the agents returns exactly `CallAgentDefine` of the registry, including its failure |
| A2aClient.CustomA2AClient.constructor | agent_code_chay/a2a_client.py:41-42 | a new client starts with no agents and no tools |
| A2aClient.CustomA2AClient.RegisterAll | agent_code_chay/a2a_client.py:44-66 | the registration loop leaves `agents` equal to `Registry` of the URLs and does not touch `tools` |
| A2aClient.ToolsFor | agent_code_chay/a2a_client.py:69-81 | the tools are exactly `{"call_agent": …}` when some agent is registered and `{}` otherwise; they fail exactly when the definition does |
| A2aClient.CustomA2AClient.Create | agent_code_chay/a2a_client.py:34-81 | the constructor registers the peers and builds the tools `ToolsFor` describes, or raises the definition's exception |
| A2aClient.PayloadShape | agent_code_chay/a2a_client.py:173-179 | the outgoing message has role "user", a single text part that holds the message, and the given message id |
| A2aClient.SendPayload | agent_code_chay/a2a_client.py:173-179 | the `send_message_payload` dict for a message, whose shape `PayloadShape` states |
| A2aClient.FirstText | agent_code_chay/a2a_client.py:193-195 | the `text` of the first part that has one, and nothing exactly when no part has one |
| A2aClient.ExtractReply | agent_code_chay/a2a_client.py:190-198 | the reply is the first part's text under `result.parts`; without one, it is `json.dumps` of the whole response |
| A2aClient.ReplyParts | agent_code_chay/a2a_client.py:192-193 | the `result.parts` list of a response dict when the response has `result` holding `parts`, and nothing otherwise; `ExtractReply` states its use |
| A2aClient.UnknownAgentNotSent | agent_code_chay/a2a_client.py:154-155 | a name that is hashable and not registered (any non-string scalar, or an unknown string) gets the literal reply showing `str()` of the name, whatever the message and whatever the peers would answer, so nothing is sent |
| A2aClient.KnownAgentSent | agent_code_chay/a2a_client.py:166-198 | a registered agent is sent the payload of a string message with its registered card, and the reply is extracted from the response, or the request's exception propagates; a message that is not a string fails validation |
| A2aClient.CallRemoteAgent | agent_code_chay/a2a_client.py:135-203 | the membership test comes first: a list or dict as the name raises `TypeError`; any other unregistered name gets the unknown-agent reply with `str()` of the name; a registered name with a non-string message fails before anything is sent |
| A2aClient.UnknownAgentReply | agent_code_chay/a2a_client.py:154-155 | the reply is the label "Agent không tồn tại: ", the name, the label ". Danh sách agent: " and the printed list of registered names, in that order |
| A2aClient.PyStr | agent_code_chay/a2a_client.py:155 | the f-string shows a string as itself and an int as its decimal digits; `None` and booleans as `None`, `True`, `False` |
| A2aClient.CallAgent | agent_code_chay/a2a_client.py:74-76 | `call_remote_agent(**arguments)` raises `TypeError` unless the arguments are a dict of exactly `agent_name` and `message`, and otherwise passes both values on unchanged, whatever their types |
| A2aClient.IntAgentNameAnswered | agent_code_chay/a2a_client.py:154-155 | through the `call_agent` tool, an integer name 1 is answered with "Agent không tồn tại: 1. Danh sách agent: " and the registered names, so the conversation goes on |
| A2aClient.A2aTools | agent_code_chay/a2a_client.py:34-81 | the client's tools are well formed; they are `{"call_agent": …}` when some card was registered and `{}` otherwise, and building them fails exactly when the definition of the registered agents does |
| McpServerUtils.ToolWrapper | mcp_server/utils/mcp_server_utils.py:12-55 | a coroutine function gets the async wrapper and any other function the sync one, and both wrap the function unchanged |
| McpServerUtils.Guard | mcp_server/utils/mcp_server_utils.py:17-31 | a return passes the result through unchanged; any `Exception` becomes the fixed failure text; only a non-`Exception` escapes |
| McpServerUtils.CallWrapper | mcp_server/utils/mcp_server_utils.py:15-53 | calling either wrapper runs the wrapped function on the arguments unchanged and applies `Guard` to its outcome |
| McpServerUtils.WrapperNeverRaises | mcp_server/utils/mcp_server_utils.py:40-53 | a wrapped tool never raises an `Exception`: it returns the tool's result, or the failure text when the tool raises |
| McpServerUtils.SyncAsyncAgree | mcp_server/utils/mcp_server_utils.py:12-55 | the sync and async wrappers map every outcome alike |
| McpServerTools.Greet | mcp_server/tools.py:7-10 | the greeting is "Hello, ", then the name, then "!" |
| McpServerTools.Bye | mcp_server/tools.py:14-17 | the farewell is "Bye, ", then the name, then "!" |
| McpServerTools.GreetByeInjective | mcp_server/tools.py:9-16 | different names give different greetings and different farewells |
| McpServerTools.GreetIsNeverBye | mcp_server/tools.py:9-16 | no greeting equals any farewell |
| McpServerTools.WrappedToolsReply | mcp_server/tools.py:5-17 | the wrapped `greet` and `bye` always reply with their formatted string |
| Stream.AddFragment | agent_code_chay/utils.py:21-35 | `add` keeps every slot stored under its own index, and fails exactly on a fragment whose index already has a slot and whose arguments are `None` |
| Stream.Extend | agent_code_chay/utils.py:31-35 | a later fragment extends a slot exactly when its arguments are not `None`; the slot keeps its index, id and name, and its arguments become `(old or "")` followed by the fragment's |
| Stream.StreamToolAggregator.constructor | agent_code_chay/utils.py:17-19 | the aggregator starts with no slots |
| Stream.StreamToolAggregator.Add | agent_code_chay/utils.py:21-35 | the method is `AddFragment` on the slots; a failing `add` raises before it assigns anything |
| Stream.AddFragmentOthers | agent_code_chay/utils.py:31-35 | a fragment changes no slot but its own |
| Stream.ArgumentsStep | agent_code_chay/utils.py:31-35 | a fragment for an existing slot appends its piece to that slot's arguments (`None` read as ""); a first fragment's arguments become the slot's |
| Stream.AddAllKeyOrder | agent_code_chay/utils.py:27-30 | slots are created in the order their indices first arrive, after the existing ones |
| Stream.AddAllKeys | agent_code_chay/utils.py:27-30 | after a run, the slots are exactly the old indices plus the arrived ones |
| Stream.AddAllSucceeds | agent_code_chay/utils.py:31-35 | a run of `add` fails exactly when a fragment with `None` arguments arrives for an index that already has a slot |
| Stream.AddAllFirstFragment | agent_code_chay/utils.py:27-30 | each slot keeps the id and name of the first fragment with its index |
| Stream.AddAllArguments | agent_code_chay/utils.py:29-35 | each slot's final arguments are the arrival-order concatenation of its fragments' argument pieces |
| Stream.AddFragments | agent_code_chay/utils.py:93-95 | `add` on each fragment of a delta is `AddAll` from the aggregator's slots, stopping at the first failure |
| Stream.StreamToolAggregator.Aggregate | agent_code_chay/utils.py:37-43 | `aggregate` has one tool call per slot, in slot order, each the slot's fragment |
| Stream.AsToolCalls | agent_code_chay/utils.py:43 | one tool call per gathered slot, in order |
| Stream.StepMeaning | agent_code_chay/utils.py:79-95 | one chunk fails exactly when it has no choice or a fragment cannot be added; otherwise it appends its text, adds its fragments, and takes the first response time only if none was taken |
| Stream.Step | agent_code_chay/utils.py:79-95 | one chunk of the `async for` loop: the `choices[0]` access, the first response time, the text concatenation and the fragment adds; `StepMeaning` states it |
| Stream.Consume | agent_code_chay/utils.py:70-95 | the state after the chunks in order, stopping at the first exception; its slots are always well formed |
| Stream.ConsumeSucceeds | agent_code_chay/utils.py:79-95 | the stream loop succeeds exactly when every chunk has a choice and every fragment can be added |
| Stream.ConsumeValue | agent_code_chay/utils.py:70-95 | after the loop, the content is the concatenation of the text deltas in arrival order, the slots are those of all fragments, and the first response time is at the first chunk, or unset for an empty stream |
| Stream.ProcessStreamMeaning | agent_code_chay/utils.py:70-109 | the returned assistant message has the stripped concatenated text and one tool call per distinct index in order of first arrival; each call has its first fragment's id and name and the concatenation of its argument pieces |
| Stream.StreamResult | agent_code_chay/utils.py:70-109 | what `process_stream` returns: the assistant message with the stripped text and the aggregated tool calls, and the chunk position of the first response time; `ProcessStreamMeaning` states it |
| Stream.ProcessStream | agent_code_chay/utils.py:46-109 | the loop over chunks returns exactly `StreamResult` of the stream |
| Text.Strip | agent_code_chay/utils.py:103 | `strip()` yields a string that neither starts nor ends with whitespace |
| Text.StripSlice | agent_code_chay/utils.py:103 | `strip()` is the slice of the input surrounded only by whitespace |
| Text.StripPadded | agent_code_chay/utils.py:103 | stripping whitespace padding from a trimmed string gives that string back |
| Text.StripIdempotent | agent_code_chay/agent.py:227 | stripping twice is stripping once |
| Messages.Message.Role | agent_code_chay/agent.py:299 | a message's role is "system", "tool" or "assistant" exactly for system, tool and assistant messages |
| OrderedDict.Dict.Get | agent_code_chay/a2a_client.py:167 | a lookup finds a key exactly when it is present, and returns the value at that key's position |
| OrderedDict.Dict.Set | agent_code_chay/a2a_client.py:63 | an assignment keeps the keys distinct, keeps the key order, and appends a new key at the end |
| OrderedDict.SetGet | agent_code_chay/a2a_client.py:63 | after an assignment, the key holds the new value and every other key keeps its value |
| OrderedDict.Dict.Update | agent_code_chay/agent.py:116 | `update` yields a well-formed dict |
| OrderedDict.SetAllKeyOrder | agent_code_chay/agent.py:116 | `update` keeps the old keys in place and appends the new ones in first-seen order |
| OrderedDict.SetAllGet | agent_code_chay/agent.py:116 | after a run of assignments, each assigned key holds its last assigned value and every other key keeps its value |
| OrderedDict.UpdateGet | agent_code_chay/agent.py:116 | after `update`, the other dict's keys hold its values and all other keys keep theirs |
| OrderedDict.DisjointUpdate | agent_code_chay/agent.py:111-116 | `update` with no common key appends the other dict's entries, and the key count is the sum of both counts |
| Agent.Transports | agent_code_chay/agent.py:105-169 | one MCP transport per configured stdio command, SSE URL and streamable-HTTP URL, in that order |
| Agent.McpOffers | agent_code_chay/agent.py:104-169 | one offer per MCP transport, in order |
| Agent.McpOffersAt | agent_code_chay/agent.py:104-169 | the offer of each transport is what creating its client yields, independent of the transports before it |
| Agent.Offers | agent_code_chay/agent.py:104-182 | the providers `create` asks: the MCP offers in transport order, then the remote agents' tools as one last offer exactly when there are remote URLs |
| Agent.Admits | agent_code_chay/agent.py:111-116 | a provider is merged exactly when it was created and none of its names is already taken |
| Agent.Federate | agent_code_chay/agent.py:104-182 | federating the providers always yields a well-formed tool dict |
| Agent.FederateStep | agent_code_chay/agent.py:111-116 | a refused provider leaves the tools unchanged; an admitted one adds its names to the old ones, the count grows by its size, old tools are kept and its own tools come in unchanged |
| Agent.FederateKeys | agent_code_chay/agent.py:104-182 | the final names are the union of the admitted providers' names, and their count is the sum of those providers' tool counts |
| Agent.AcceptedDisjoint | agent_code_chay/agent.py:111-113 | no two admitted providers share a tool name |
| Agent.FederateKeeps | agent_code_chay/agent.py:111-116 | every tool of every admitted provider ends up in the final dict, bound as its provider bound it |
| Agent.Refusal | agent_code_chay/agent.py:118-125 | a pass raises exactly when its client was created, collides with the names taken, and one of its exits raises; any other pass raises nothing |
| Agent.Escape | agent_code_chay/agent.py:104-169 | the exception that escapes the MCP provider loops: the first failure among the passes' refusals |
| Agent.EscapeMeaning | agent_code_chay/agent.py:104-169 | nothing escapes exactly when no pass raises while closing a refused client; otherwise what escapes is the exception of the first pass that does |
| Agent.RefusalsAt | agent_code_chay/agent.py:111-125 | pass `i` refuses or keeps the `i`-th transport against the tools merged from the transports before it |
| Agent.EscapeKept | agent_code_chay/agent.py:118-125 | once an exception has escaped, the later transports are never tried and change nothing |
| Agent.Agent.constructor | agent_code_chay/agent.py:100-102 | the agent starts with no tools and no MCP clients |
| Agent.Agent.Keep | agent_code_chay/agent.py:115-116 | an accepted client is appended to `mcp_servers` and its tools are merged with `update` |
| Agent.Agent.Absorb | agent_code_chay/agent.py:111-125 | a created client whose names are free is kept and merged; one whose names collide is closed (session then transport, as far as its exits get), nothing else changes, and what its close raises propagates; a failed creation changes nothing |
| Agent.Agent.AddMcpServer | agent_code_chay/agent.py:105-125 | one provider pass: the tools become the old tools plus the provider's when it is admitted, and stay unchanged otherwise; the client is kept exactly when admitted; a created but colliding client is closed, and the pass raises what `Refusal` says |
| Agent.Agent.AddMcpServers | agent_code_chay/agent.py:105-169 | a provider loop raises exactly when `Escape` says, with that exception; otherwise it leaves the tools equal to `Federate` of the providers so far and keeps the clients of the admitted transports in order |
| Agent.Agent.RemoteTools | agent_code_chay/agent.py:174 | constructing the A2A client yields `A2aTools` of the remote URLs |
| Agent.Agent.Merge | agent_code_chay/agent.py:175-178 | the conflict check and `update` for a provider whose client is not kept |
| Agent.Agent.AddRemoteAgents | agent_code_chay/agent.py:172-182 | the remote agents' tools are merged when admitted; the A2A client is never added to `mcp_servers` |
| Agent.Agent.Create | agent_code_chay/agent.py:100-184 | `create` raises exactly the exception `Escape` gives for its transports; otherwise it leaves the tools equal to `Federate` of the providers in order (stdio, SSE, streamable HTTP, remote agents) and keeps exactly the admitted MCP clients, in order, each connected |
| Agent.Agent.Close | agent_code_chay/agent.py:471-474 | `close` closes the kept clients in order, each as `CloseEffect` says, and stops at the first client whose close raises, raising it and leaving the later clients untouched; for an agent as `create` leaves it, a successful close has each client closed after exiting its session context and then its transport context |
| Agent.Reply | agent_code_chay/agent.py:199-229 | a successful LLM call yields an assistant message whose content is stripped |
| Agent.Catalog | agent_code_chay/agent.py:205 | the tool definitions offered to the LLM: one per tool, in dict order |
| Agent.ReplyMeaning | agent_code_chay/agent.py:199-229 | a streamed reply is what `process_stream` assembles; a non-streamed one succeeds exactly when the completion has a first choice with content, and carries that choice's tool calls; no choice is an `IndexError` and `None` content an `AttributeError` |
| Agent.Complete | agent_code_chay/agent.py:199-229 | one LLM call returns exactly `Reply` |
| Agent.RunCall | agent_code_chay/agent.py:245-256 | a successful call yields a tool message carrying the call's id |
| Agent.RunCallMeaning | agent_code_chay/agent.py:245-256 | a call is answered exactly when its arguments parse, its name is a tool's and that tool returns, and the answer holds the tool's result; bad JSON raises `JSONDecodeError` and an unknown or missing name raises `KeyError` |
| Agent.RunCalls | agent_code_chay/agent.py:244-256 | the calls append at most one message each |
| Agent.RunCallsMeaning | agent_code_chay/agent.py:244-256 | the calls run in order, each appending its own answer; all complete exactly when nothing is raised, and an exception is the first failing call's |
| Agent.CallsAnswered | agent_code_chay/agent.py:244-256 | when every call completes, call i is answered by the i-th appended tool message, carrying its id |
| Agent.Agent.RunToolCalls | agent_code_chay/agent.py:244-256 | the inner loop appends exactly the messages `RunCalls` describes and raises its exception |
| Agent.RoundsMeaning | agent_code_chay/agent.py:242-296 | the rounds only append; without an exception, what they append is one tool message per call and then one new assistant message, repeated until a reply has no tool calls |
| Agent.Rounds | agent_code_chay/agent.py:242-296 | the `while tool_calls` loop as a function: run the calls, ask again, stop at a reply without tool calls or at the first exception; `RoundsMeaning` states it |
| Agent.TranscriptEnds | agent_code_chay/agent.py:243 | the loop stops with a last message that has no tool calls |
| Agent.Agent.Loop | agent_code_chay/agent.py:242-296 | the `while tool_calls` loop changes the list and raises exactly as `Rounds` describes |
| Agent.MessageList.InsertFirst | agent_code_chay/agent.py:197 | `insert(0, m)` puts the message in front |
| Agent.MessageList.Append | agent_code_chay/agent.py:231 | `append(m)` adds the message at the end |
| Agent.MessageList.PopFirst | agent_code_chay/agent.py:300 | `pop(0)` removes the first message |
| Agent.InvokeSucceeds | agent_code_chay/agent.py:186-301 | a successful `invoke` returns the caller's messages (a caller's leading system message is dropped when no system message is configured), then the first reply and its rounds; the last message is an assistant message with no tool calls |
| Agent.InvokeSpec | agent_code_chay/agent.py:186-301 | `invoke` as a function: insert the system message, reply, run the rounds, pop a leading system message on success; `InvokeSucceeds` and `InvokeFailureKeeps` state it |
| Agent.WithSystem | agent_code_chay/agent.py:196-197 | the system message is inserted at the head exactly when it is non-empty |
| Agent.DropSystem | agent_code_chay/agent.py:299-300 | a leading message with role "system" is popped |
| Agent.InvokeFailureKeeps | agent_code_chay/agent.py:186-301 | when `invoke` raises, the inserted system message, the caller's messages and everything appended so far stay in the list |
| Agent.Agent.Invoke | agent_code_chay/agent.py:186-301 | `invoke` changes the caller's list in place as `InvokeSpec` says and returns that same list, or raises the exception `InvokeSpec` records |
| Agent.ExecuteAnswers | agent_code_chay/agent.py:490-500 | the executor's answer is the content of the final assistant message, which has no tool calls, of a conversation that starts with the user's input |
| Agent.ExecuteSpec | agent_code_chay/agent.py:490-500 | the executor's answer: `invoke` on the user's input, then the content of the last message; `ExecuteAnswers` states it |
| Agent.Agent.Execute | agent_code_chay/agent.py:490-500 | `execute` returns exactly `ExecuteSpec` |
| Agent.Cancel | agent_code_chay/agent.py:502-506 | `cancel` always raises |

## Left out

- The LLM (`openai_client.chat.completions.create`) is an oracle
  (`Agent.Llm`). The model name and temperature are fixed per agent and not
  modelled.
- `json.loads` is a partial function passed in as `parse`. `json.dumps(…,
  indent=2)` is a function passed in as `dumps`.
- The transports (`stdio_client`, `sse_client`, `streamablehttp_client`,
  `ClientSession`) are foreign calls. `Mcp.Server` gives the outcome of
  each of their steps: entering each context, `initialize`, `list_tools`,
  `call_tool`, and each context's `__aexit__`. The exception an exit raises
  is one fixed value per context. The three client subclasses become one
  class with a `Transport` value.
- The network: `requests.get` of agent cards is the `fetch` function. The
  httpx/`A2AClient.send_message` call is `Peers.send`. The httpx timeouts
  are floats and are not modelled.
- The value of `AGENT_CARD_WELL_KNOWN_PATH` comes from the A2A library, which
  is not part of this model. It is taken as "/.well-known/agent-card.json".
- `uuid.uuid4()` is the parameter `messageId`. The request id is not
  modelled.
- All `time.perf_counter` values are left out. So are all logging calls and
  the printing and Streamlit display in `process_stream`. The first response
  time is modelled as the position of the chunk at which it was taken.
- `Agent.serve_as_chat_ui` (Streamlit) and the uvicorn/A2A server wiring of
  `serve_as_remote_agent` are left out, except the executor's `execute` and
  `cancel`. The event queue is the returned answer.
- `call_chat_api` in `mcp_server/tools.py` is left out: it is an HTTP POST to
  an external service.
- Async scheduling: every `await` is a sequential call.
- Agent.Agent.Invoke: the Python `while tool_calls` loop has no bound. The
  model bounds it by `maxRounds` rounds and raises `RoundLimitReached` when
  the bound is hit, so conversations that never stop calling tools are not
  modelled.
- Agent.Agent.Close: requires the kept clients to be distinct objects. `create`
  guarantees this, since each pass creates a fresh client.
- A2aClient.ExtractReply: the `except` branch that returns `str(response)`
  is not modelled. The response is already a JSON value here, so
  `model_dump` cannot fail.
- A2aClient.UnknownAgentReply: `repr` of the agent names is modelled as
  quoting with `'`. Python's escaping of names that contain quotes or
  backslashes is not modelled.
- Tool.Tool.Call: Python's `*args, **kwds` is one argument of type `A`.
  Several arguments are modelled as a tuple.
- The `Tool` closures return strings. `str(result)` of a string is the
  string itself, so the tool message carries the result unchanged.
