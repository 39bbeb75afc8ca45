/** `agent_code_chay/agent.py`: the agent. `create` gathers tools from MCP
    servers and remote agents, refusing any provider whose tool names
    collide with names already taken; `invoke` runs the chat loop, asking
    the LLM, running the tool calls it makes and asking again until it
    answers without tool calls; `close` closes the MCP clients; the remote
    agent executor answers one user input with the last message of an
    `invoke`. */
module Agent {
  import opened Wrappers
  import opened Errors
  import opened Json
  import opened Text
  import opened OrderedDict
  import opened Tool
  import opened Messages
  import opened Stream
  import opened Mcp
  import opened A2aClient

  // ---------------------------------------------------------------------
  // Configuration and the outside world
  // ---------------------------------------------------------------------

  /** The constructor arguments `create` and `invoke` use. Each stdio
      command is the command and its argument list. */
  datatype Config = Config(
    systemMessage: string,
    stream: bool,
    stdioCommands: seq<(string, seq<string>)>,
    sseUrls: seq<string>,
    httpUrls: seq<string>,
    remoteUrls: seq<string>)

  /** What lies outside the process: the MCP server behind each transport,
      the agent card served at each remote URL, and the remote agents. */
  datatype World = World(servers: Transport -> Server, fetch: string -> Option<AgentCard>, peers: Peers)

  /** The MCP transports `create` tries, in its order: the stdio commands,
      then the SSE URLs, then the streamable-HTTP URLs. */
  function Transports(config: Config): (r: seq<Transport>)
    ensures |r| == |config.stdioCommands| + |config.sseUrls| + |config.httpUrls|
  {
    StdioTransports(config.stdioCommands) + SseTransports(config.sseUrls) + HttpTransports(config.httpUrls)
  }

  function StdioTransports(commands: seq<(string, seq<string>)>): seq<Transport>
  {
    seq(|commands|, i requires 0 <= i < |commands| => Stdio(commands[i].0, commands[i].1))
  }

  function SseTransports(urls: seq<string>): seq<Transport>
  {
    seq(|urls|, i requires 0 <= i < |urls| => Sse(urls[i]))
  }

  function HttpTransports(urls: seq<string>): seq<Transport>
  {
    seq(|urls|, i requires 0 <= i < |urls| => StreamableHttp(urls[i]))
  }

  // ---------------------------------------------------------------------
  // Tool federation
  // ---------------------------------------------------------------------

  /** The tool dict each MCP transport offers: what creating its client
      would leave in `client.tools`, or why creating it fails. */
  function McpOffers(world: World, ts: seq<Transport>): (r: seq<Result<ToolMap, Error>>)
    ensures |r| == |ts|
  {
    if ts == [] then []
    else McpOffers(world, ts[..|ts| - 1]) + [CreateTools(ts[|ts| - 1], world.servers(ts[|ts| - 1]))]
  }

  lemma {:induction false} McpOffersSnoc(world: World, ts: seq<Transport>, t: Transport)
    ensures McpOffers(world, ts + [t]) == McpOffers(world, ts) + [CreateTools(t, world.servers(t))]
  {
    assert (ts + [t])[..|ts|] == ts;
  }

  lemma {:induction false} ConcatPrefix<T>(done: seq<T>, ts: seq<T>, j: nat)
    requires j <= |ts|
    ensures (done + ts)[..|done| + j] == done + ts[..j]
  {
  }

  /** The offer of the `i`-th transport is what creating its client yields,
      whatever was offered before it. */
  lemma {:induction false} McpOffersAt(world: World, ts: seq<Transport>, i: nat)
    requires i < |ts|
    ensures McpOffers(world, ts)[i] == CreateTools(ts[i], world.servers(ts[i]))
    decreases |ts|
  {
    if i < |ts| - 1 {
      var pre := ts[..|ts| - 1];
      McpOffersAt(world, pre, i);
      assert pre[i] == ts[i];
    }
  }

  lemma {:induction false} SnocSlice<T>(done: seq<T>, ts: seq<T>, i: nat)
    requires i < |ts|
    ensures done + ts[..i + 1] == (done + ts[..i]) + [ts[i]]
  {
    assert ts[..i + 1] == ts[..i] + [ts[i]];
  }

  /** Every provider `create` asks, in order: the MCP transports, then the
      remote agents as one provider when there are remote URLs. */
  function Offers(config: Config, world: World): (r: seq<Result<ToolMap, Error>>)
    ensures |r| == |Transports(config)| + (if config.remoteUrls != [] then 1 else 0)
    ensures r[..|Transports(config)|] == McpOffers(world, Transports(config))
    ensures config.remoteUrls != [] ==> r[|r| - 1] == A2aTools(world.fetch, world.peers, config.remoteUrls)
  {
    McpOffers(world, Transports(config))
      + (if config.remoteUrls != [] then [A2aTools(world.fetch, world.peers, config.remoteUrls)] else [])
  }

  /** A provider is merged when it was created and none of its tool names is
      already taken. */
  predicate Admits(tools: ToolMap, offer: Result<ToolMap, Error>)
  {
    offer.Success? && offer.value.Valid() && tools.Keys() !! offer.value.Keys()
  }

  /** `self.tools` after offering `offers` one after the other: an admitted
      provider's tools are merged with `update`, any other is skipped. */
  function Federate(offers: seq<Result<ToolMap, Error>>): (r: ToolMap)
    ensures r.Valid()
  {
    if offers == [] then Empty()
    else
      var p := Federate(offers[..|offers| - 1]);
      var o := offers[|offers| - 1];
      if Admits(p, o) then p.Update(o.value) else p
  }

  /** The tool dicts of the admitted providers, in order. */
  function Accepted(offers: seq<Result<ToolMap, Error>>): (r: seq<ToolMap>)
    ensures forall i :: 0 <= i < |r| ==> r[i].Valid()
  {
    if offers == [] then []
    else
      var pre := offers[..|offers| - 1];
      var o := offers[|offers| - 1];
      Accepted(pre) + (if Admits(Federate(pre), o) then [o.value] else [])
  }

  function UnionKeys(ms: seq<ToolMap>): set<string>
  {
    if ms == [] then {} else UnionKeys(ms[..|ms| - 1]) + ms[|ms| - 1].Keys()
  }

  function TotalSize(ms: seq<ToolMap>): nat
  {
    if ms == [] then 0 else TotalSize(ms[..|ms| - 1]) + |ms[|ms| - 1].Keys()|
  }

  lemma {:induction false} FederateSnoc(offers: seq<Result<ToolMap, Error>>, o: Result<ToolMap, Error>)
    ensures Federate(offers + [o]) == if Admits(Federate(offers), o) then Federate(offers).Update(o.value) else Federate(offers)
  {
    assert (offers + [o])[..|offers|] == offers;
  }

  /** One more provider: a refused one leaves the tools as they were; an
      admitted one adds its names to the old ones, keeps every old tool and
      brings its own tools in unchanged. */
  lemma {:induction false} FederateStep(offers: seq<Result<ToolMap, Error>>, o: Result<ToolMap, Error>, k: string)
    ensures var p := Federate(offers);
            var r := Federate(offers + [o]);
            && Accepted(offers + [o]) == Accepted(offers) + (if Admits(p, o) then [o.value] else [])
            && (!Admits(p, o) ==> r == p)
            && (Admits(p, o) ==>
                  && r.Keys() == p.Keys() + o.value.Keys()
                  && |r.Keys()| == |p.Keys()| + |o.value.Keys()|
                  && (k in p.Keys() ==> r.Get(k) == p.Get(k))
                  && (k in o.value.Keys() ==> r.Get(k) == o.value.Get(k)))
  {
    assert (offers + [o])[..|offers|] == offers;
    var p := Federate(offers);
    if Admits(p, o) {
      DisjointUpdate(p, o.value);
      UpdateGet(p, o.value, k);
    }
  }

  /** The merged names are the admitted providers' names, and there are as
      many as those providers bring together: no name is merged twice. */
  lemma {:induction false} FederateKeys(offers: seq<Result<ToolMap, Error>>)
    ensures Federate(offers).Keys() == UnionKeys(Accepted(offers))
    ensures |Federate(offers).Keys()| == TotalSize(Accepted(offers))
    decreases |offers|
  {
    if offers != [] {
      var pre := offers[..|offers| - 1];
      var o := offers[|offers| - 1];
      assert offers == pre + [o];
      FederateKeys(pre);
      FederateStep(pre, o, "");
      var a := Accepted(pre);
      if Admits(Federate(pre), o) {
        assert Accepted(offers) == a + [o.value];
        assert (a + [o.value])[..|a|] == a;
        assert UnionKeys(a + [o.value]) == UnionKeys(a) + o.value.Keys();
        assert TotalSize(a + [o.value]) == TotalSize(a) + |o.value.Keys()|;
      } else {
        assert Accepted(offers) == a;
      }
    }
  }

  lemma {:induction false} UnionKeysHas(ms: seq<ToolMap>, i: nat)
    requires i < |ms|
    ensures ms[i].Keys() <= UnionKeys(ms)
    decreases |ms|
  {
    if i < |ms| - 1 {
      UnionKeysHas(ms[..|ms| - 1], i);
    }
  }

  /** No two admitted providers share a tool name. */
  lemma {:induction false} AcceptedDisjoint(offers: seq<Result<ToolMap, Error>>)
    ensures var a := Accepted(offers);
            forall i, j :: 0 <= i < j < |a| ==> a[i].Keys() !! a[j].Keys()
    decreases |offers|
  {
    if offers != [] {
      var pre := offers[..|offers| - 1];
      var o := offers[|offers| - 1];
      assert offers == pre + [o];
      AcceptedDisjoint(pre);
      FederateStep(pre, o, "");
      var a := Accepted(pre);
      if Admits(Federate(pre), o) {
        FederateKeys(pre);
        forall i | 0 <= i < |a|
          ensures a[i].Keys() !! o.value.Keys()
        {
          UnionKeysHas(a, i);
        }
      }
    }
  }

  /** Every tool of every admitted provider is in the merged dict, bound as
      its provider bound it: no merge ever replaces a tool. */
  lemma {:induction false} FederateKeeps(offers: seq<Result<ToolMap, Error>>, i: nat, k: string)
    requires i < |Accepted(offers)| && k in Accepted(offers)[i].keys
    ensures Federate(offers).Get(k) == Accepted(offers)[i].Get(k)
    decreases |offers|
  {
    var pre := offers[..|offers| - 1];
    var o := offers[|offers| - 1];
    assert offers == pre + [o];
    FederateStep(pre, o, k);
    var a := Accepted(pre);
    if i < |a| {
      FederateKeeps(pre, i, k);
      FederateKeys(pre);
      UnionKeysHas(a, i);
    }
  }

  /** The transport and server of each client, in order. */
  function Endpoints(servers: seq<McpClient>): (r: seq<(Transport, Server)>)
    ensures |r| == |servers|
  {
    if servers == [] then [] else Endpoints(servers[..|servers| - 1]) + [(servers[|servers| - 1].transport, servers[|servers| - 1].server)]
  }

  lemma {:induction false} EndpointsSnoc(servers: seq<McpClient>, c: McpClient)
    ensures Endpoints(servers + [c]) == Endpoints(servers) + [(c.transport, c.server)]
  {
    assert (servers + [c])[..|servers|] == servers;
  }

  /** The transports among `ts` whose clients are kept, with their servers. */
  function AcceptedEndpoints(world: World, ts: seq<Transport>): seq<(Transport, Server)>
  {
    if ts == [] then []
    else
      var pre := ts[..|ts| - 1];
      var t := ts[|ts| - 1];
      AcceptedEndpoints(world, pre)
        + (if Admits(Federate(McpOffers(world, pre)), CreateTools(t, world.servers(t))) then [(t, world.servers(t))] else [])
  }

  lemma {:induction false} AcceptedEndpointsSnoc(world: World, ts: seq<Transport>, t: Transport)
    ensures AcceptedEndpoints(world, ts + [t])
            == AcceptedEndpoints(world, ts)
               + (if Admits(Federate(McpOffers(world, ts)), CreateTools(t, world.servers(t))) then [(t, world.servers(t))] else [])
  {
    assert (ts + [t])[..|ts|] == ts;
  }

  /** What closing the client of `t` raises in a provider loop that has
      merged `tools`: a created client whose names collide is closed, and
      its `close()` may raise; any other pass closes nothing. */
  function Refusal(tools: ToolMap, t: Transport, server: Server): (r: Result<(), Error>)
    ensures r.Failure? <==> CreateTools(t, server).Success? && !Admits(tools, CreateTools(t, server))
                            && !(server.sessionExits && server.transportExits)
  {
    var offer := CreateTools(t, server);
    if offer.Success? && !Admits(tools, offer) then Shutdown(server, true, true).outcome else Success(())
  }

  /** What each pass of the MCP provider loops over `ts` raises while
      closing a refused client, in order. */
  function Refusals(world: World, ts: seq<Transport>): (r: seq<Result<(), Error>>)
    ensures |r| == |ts|
  {
    if ts == [] then []
    else
      var pre := ts[..|ts| - 1];
      var t := ts[|ts| - 1];
      Refusals(world, pre) + [Refusal(Federate(McpOffers(world, pre)), t, world.servers(t))]
  }

  /** The first failure among `rs`. */
  function FirstFailure(rs: seq<Result<(), Error>>): Option<Error>
  {
    if rs == [] then None
    else if FirstFailure(rs[..|rs| - 1]).Some? then FirstFailure(rs[..|rs| - 1])
    else if rs[|rs| - 1].Failure? then Some(rs[|rs| - 1].error)
    else None
  }

  /** The exception that escapes the MCP provider loops of `create` over
      `ts`: the first refused client whose `close()` raises. Such an
      exception is raised inside the bare `except:` handler, so nothing
      catches it and the later transports are never tried. */
  function Escape(world: World, ts: seq<Transport>): Option<Error>
  {
    FirstFailure(Refusals(world, ts))
  }

  lemma {:induction false} FirstFailureNone(rs: seq<Result<(), Error>>)
    ensures FirstFailure(rs).None? <==> forall i :: 0 <= i < |rs| ==> rs[i].Success?
    decreases |rs|
  {
    if rs != [] {
      var pre := rs[..|rs| - 1];
      FirstFailureNone(pre);
      assert forall i :: 0 <= i < |pre| ==> pre[i] == rs[i];
    }
  }

  lemma {:induction false} FirstFailureFirst(rs: seq<Result<(), Error>>)
    requires FirstFailure(rs).Some?
    ensures exists i :: 0 <= i < |rs| && rs[i] == Failure(FirstFailure(rs).value)
                        && forall k :: 0 <= k < i ==> rs[k].Success?
    decreases |rs|
  {
    var pre := rs[..|rs| - 1];
    assert forall i :: 0 <= i < |pre| ==> pre[i] == rs[i];
    if FirstFailure(pre).Some? {
      FirstFailureFirst(pre);
      var i :| 0 <= i < |pre| && pre[i] == Failure(FirstFailure(pre).value)
               && forall k :: 0 <= k < i ==> pre[k].Success?;
      assert rs[i] == Failure(FirstFailure(rs).value);
    } else {
      FirstFailureNone(pre);
      assert rs[|pre|] == Failure(FirstFailure(rs).value);
    }
  }

  lemma {:induction false} FirstFailureKept(rs: seq<Result<(), Error>>, j: nat)
    requires j <= |rs| && FirstFailure(rs[..j]).Some?
    ensures FirstFailure(rs) == FirstFailure(rs[..j])
    decreases |rs|
  {
    if j == |rs| {
      assert rs[..j] == rs;
    } else {
      var pre := rs[..|rs| - 1];
      assert pre[..j] == rs[..j];
      FirstFailureKept(pre, j);
    }
  }

  lemma {:induction false} RefusalsPrefix(world: World, ts: seq<Transport>, j: nat)
    requires j <= |ts|
    ensures Refusals(world, ts[..j]) == Refusals(world, ts)[..j]
    decreases |ts|
  {
    if j == |ts| {
      assert ts[..j] == ts;
    } else {
      var pre := ts[..|ts| - 1];
      assert pre[..j] == ts[..j];
      RefusalsPrefix(world, pre, j);
    }
  }

  lemma {:induction false} EscapeSnoc(world: World, ts: seq<Transport>, t: Transport)
    ensures Escape(world, ts + [t])
            == if Escape(world, ts).Some? then Escape(world, ts)
               else
                 var c := Refusal(Federate(McpOffers(world, ts)), t, world.servers(t));
                 if c.Failure? then Some(c.error) else None
  {
    var c := Refusal(Federate(McpOffers(world, ts)), t, world.servers(t));
    assert (ts + [t])[..|ts|] == ts;
    var rs := Refusals(world, ts + [t]);
    assert rs == Refusals(world, ts) + [c];
    assert rs[..|rs| - 1] == Refusals(world, ts);
  }

  /** Once an exception has escaped, later transports change nothing. */
  lemma {:induction false} EscapeKept(world: World, ts: seq<Transport>, j: nat)
    requires j <= |ts| && Escape(world, ts[..j]).Some?
    ensures Escape(world, ts) == Escape(world, ts[..j])
  {
    RefusalsPrefix(world, ts, j);
    FirstFailureKept(Refusals(world, ts), j);
  }

  /** `create` gets through its MCP providers exactly when no refused
      client's `close()` raises; otherwise the exception it raises is the
      one from the first such client. */
  lemma {:induction false} EscapeMeaning(world: World, ts: seq<Transport>)
    ensures Escape(world, ts).None? <==> forall i :: 0 <= i < |Refusals(world, ts)| ==> Refusals(world, ts)[i].Success?
    ensures Escape(world, ts).Some? ==>
              exists i :: 0 <= i < |Refusals(world, ts)| && Refusals(world, ts)[i] == Failure(Escape(world, ts).value)
                          && forall k :: 0 <= k < i ==> Refusals(world, ts)[k].Success?
  {
    var rs := Refusals(world, ts);
    FirstFailureNone(rs);
    if FirstFailure(rs).Some? {
      FirstFailureFirst(rs);
      var i :| 0 <= i < |rs| && rs[i] == Failure(FirstFailure(rs).value)
               && forall k :: 0 <= k < i ==> rs[k].Success?;
      assert !Refusals(world, ts)[i].Success?;
    }
  }

  /** Pass `i` of the loops refuses the `i`-th transport against the tools
      merged from the transports before it. */
  lemma {:induction false} RefusalsAt(world: World, ts: seq<Transport>, i: nat)
    requires i < |ts|
    ensures Refusals(world, ts)[i] == Refusal(Federate(McpOffers(world, ts[..i])), ts[i], world.servers(ts[i]))
  {
    var p := ts[..i + 1];
    RefusalsPrefix(world, ts, i + 1);
    assert p[..i] == ts[..i] && p[i] == ts[i];
    var x := Refusal(Federate(McpOffers(world, ts[..i])), ts[i], world.servers(ts[i]));
    assert Refusals(world, p) == Refusals(world, p[..i]) + [x];
    assert Refusals(world, ts)[i] == Refusals(world, p)[i];
  }

  /** One more pass of a provider loop that nothing has escaped so far. */
  lemma {:induction false} EscapeStep(world: World, done: seq<Transport>, ts: seq<Transport>, i: nat)
    requires i < |ts| && Escape(world, done + ts[..i]).None?
    ensures var c := Refusal(Federate(McpOffers(world, done + ts[..i])), ts[i], world.servers(ts[i]));
            Escape(world, done + ts[..i + 1]) == if c.Failure? then Some(c.error) else None
  {
    SnocSlice(done, ts, i);
    EscapeSnoc(world, done + ts[..i], ts[i]);
  }

  /** An exception that escapes pass `i` escapes the whole loop. */
  lemma {:induction false} EscapeStops(world: World, done: seq<Transport>, ts: seq<Transport>, i: nat)
    requires i < |ts| && Escape(world, done + ts[..i + 1]).Some?
    ensures Escape(world, done + ts) == Escape(world, done + ts[..i + 1])
  {
    var whole, j := done + ts, |done| + i + 1;
    ConcatPrefix(done, ts, i + 1);
    assert whole[..j] == done + ts[..i + 1];
    EscapeKept(world, whole, j);
  }

  /** A client `create` returned: initialised, both contexts entered, not
      closed. */
  ghost predicate Connected(c: McpClient)
    reads c
  {
    c.closed == Some(false) && c.clientCm && c.sessionCm && c.entered == [TransportContext, SessionContext] && c.exited == []
  }

  /** A client `create` closed because of a name clash: marked closed, with
      the exits its shutdown made, session first. */
  ghost predicate Discarded(c: McpClient)
    reads c
  {
    c.closed == Some(true) && c.exited == Shutdown(c.server, true, true).exits
  }

  ghost predicate AllConnected(cs: seq<McpClient>)
    reads cs
  {
    forall k :: 0 <= k < |cs| ==> Connected(cs[k])
  }

  // ---------------------------------------------------------------------
  // The LLM and one reply
  // ---------------------------------------------------------------------

  /** `response.choices[i].message`: its content and tool calls, either of
      which may be `None`. */
  datatype CompletionMessage = CompletionMessage(content: Option<string>, toolCalls: Option<seq<ToolCall>>)

  datatype Completion = Completion(choices: seq<CompletionMessage>)

  /** `chat.completions.create` given the messages and the tool definitions:
      a whole completion, or (with `stream=True`) its chunks. Model name and
      temperature are fixed per agent and left implicit. */
  datatype Llm = Llm(
    complete: (seq<Message>, seq<Json>) -> Result<Completion, Error>,
    streamed: (seq<Message>, seq<Json>) -> Result<seq<Chunk>, Error>)

  /** `[t.tool_define for t in self.tools.values()]` */
  function Catalog(tools: ToolMap): (r: seq<Json>)
    ensures |r| == |tools.values|
    ensures forall i :: 0 <= i < |r| ==> r[i] == tools.values[i].toolDefine
  {
    seq(|tools.values|, i requires 0 <= i < |tools.values| => tools.values[i].toolDefine)
  }

  /** The assistant message one LLM call yields. Streamed: what
      `process_stream` assembles. Not streamed: the first choice's content,
      stripped, and its tool calls; no choice is an `IndexError` and a `None`
      content an `AttributeError`. */
  function Reply(stream: bool, llm: Llm, messages: seq<Message>, catalog: seq<Json>): (r: Result<Message, Error>)
    ensures r.Success? ==> r.value.AssistantMessage? && Trimmed(r.value.content)
  {
    if stream then
      var chunks := llm.streamed(messages, catalog);
      if chunks.Failure? then Failure(chunks.error)
      else
        var out := StreamResult(chunks.value);
        if out.Failure? then Failure(out.error) else Success(out.value.0)
    else
      var response := llm.complete(messages, catalog);
      if response.Failure? then Failure(response.error)
      else if response.value.choices == [] then Failure(IndexError("list index out of range"))
      else
        var choice := response.value.choices[0];
        if choice.content.None? then Failure(AttributeError("'NoneType' object has no attribute 'strip'"))
        else Success(AssistantMessage(Strip(choice.content.value), choice.toolCalls))
  }

  /** When one LLM call yields a reply: streamed, when the chunks arrive
      and `process_stream` assembles them; not streamed, when the completion
      has a first choice whose content is not `None`. An empty choice list
      is an `IndexError` and a `None` content an `AttributeError`. */
  lemma {:induction false} ReplyMeaning(stream: bool, llm: Llm, messages: seq<Message>, catalog: seq<Json>)
    ensures var r := Reply(stream, llm, messages, catalog);
            var c := llm.complete(messages, catalog);
            var s := llm.streamed(messages, catalog);
            && (stream ==> (r.Success? <==> s.Success? && StreamResult(s.value).Success?))
            && (!stream ==> (r.Success? <==> c.Success? && c.value.choices != [] && c.value.choices[0].content.Some?))
            && (!stream && c.Success? && c.value.choices == [] ==> r.Failure? && r.error.IndexError?)
            && (!stream && c.Success? && c.value.choices != [] && c.value.choices[0].content.None?
                ==> r.Failure? && r.error.AttributeError?)
            && (!stream && r.Success? ==> r.value.toolCalls == c.value.choices[0].toolCalls)
            && (stream && r.Success? ==> r.value == StreamResult(s.value).value.0)
  {
  }

  /** One LLM call and the assistant message made of its answer. */
  method Complete(stream: bool, llm: Llm, messages: seq<Message>, catalog: seq<Json>) returns (r: Result<Message, Error>)
    ensures r == Reply(stream, llm, messages, catalog)
  {
    if stream {
      var chunks := llm.streamed(messages, catalog);
      if chunks.Failure? {
        return Failure(chunks.error);
      }
      var out := ProcessStream(chunks.value);
      if out.Failure? {
        return Failure(out.error);
      }
      r := Success(out.value.0);
    } else {
      var response := llm.complete(messages, catalog);
      if response.Failure? {
        return Failure(response.error);
      }
      if response.value.choices == [] {
        return Failure(IndexError("list index out of range"));
      }
      var choice := response.value.choices[0];
      if choice.content.None? {
        return Failure(AttributeError("'NoneType' object has no attribute 'strip'"));
      }
      r := Success(AssistantMessage(Strip(choice.content.value), choice.toolCalls));
    }
  }

  // ---------------------------------------------------------------------
  // Running tool calls
  // ---------------------------------------------------------------------

  /** `name = tool_call.function.name`, `args = json.loads(arguments)`,
      `result = await self.tools[name](args)`, then the tool message.
      `parse` is `json.loads`. The arguments are parsed before the name is
      looked up. */
  function RunCall(tools: ToolMap, parse: string -> Option<Json>, call: ToolCall): (r: Result<Message, Error>)
    requires tools.Valid()
    ensures r.Success? ==> r.value.ToolMessage? && r.value.toolCallId == call.id
  {
    if call.arguments.None? then Failure(TypeError("the JSON object must be str, bytes or bytearray, not NoneType"))
    else
      var args := parse(call.arguments.value);
      if args.None? then Failure(JsonDecodeError(call.arguments.value))
      else if call.name.None? || call.name.value !in tools.keys then Failure(KeyError(call.name))
      else
        var result := tools.Get(call.name.value).value.Call(args.value);
        if result.Failure? then Failure(result.error)
        else Success(ToolMessage(call.id, result.value))
  }

  /** A call is answered exactly when its arguments parse, its name is a
      tool's and that tool returns; the answer carries the call's id and the
      tool's result. Bad JSON and an unknown name raise instead of being
      answered. */
  lemma {:induction false} RunCallMeaning(tools: ToolMap, parse: string -> Option<Json>, call: ToolCall)
    requires tools.Valid()
    ensures var r := RunCall(tools, parse, call);
            && (r.Success? <==> call.arguments.Some? && parse(call.arguments.value).Some?
                                && call.name.Some? && call.name.value in tools.keys
                                && tools.Get(call.name.value).value.Call(parse(call.arguments.value).value).Success?)
            && (r.Success? ==> r.value.content == tools.Get(call.name.value).value.Call(parse(call.arguments.value).value).value)
            && (call.arguments.None? ==> r.Failure? && r.error.TypeError?)
            && (call.arguments.Some? && parse(call.arguments.value).None? ==> r == Failure(JsonDecodeError(call.arguments.value)))
            && (call.arguments.Some? && parse(call.arguments.value).Some? && (call.name.None? || call.name.value !in tools.keys)
                ==> r == Failure(KeyError(call.name)))
  {
  }

  /** What running some tool calls appended, and the exception that stopped
      them, if one did. */
  datatype Progress = Progress(appended: seq<Message>, error: Option<Error>)

  /** The `for tool_call in tool_calls` loop: each call's message is
      appended; the first failing call ends the loop with its exception. */
  function RunCalls(tools: ToolMap, parse: string -> Option<Json>, calls: seq<ToolCall>): (r: Progress)
    requires tools.Valid()
    ensures |r.appended| <= |calls|
  {
    if calls == [] then Progress([], None)
    else
      var p := RunCalls(tools, parse, calls[..|calls| - 1]);
      if p.error.Some? then p
      else
        var m := RunCall(tools, parse, calls[|calls| - 1]);
        if m.Failure? then Progress(p.appended, Some(m.error)) else Progress(p.appended + [m.value], None)
  }

  /** The calls run in order, each appending the message of its own
      successful run; they all complete exactly when no exception is raised,
      and an exception is the one raised by the first call that fails. */
  lemma {:induction false} RunCallsMeaning(tools: ToolMap, parse: string -> Option<Json>, calls: seq<ToolCall>)
    requires tools.Valid()
    ensures var r := RunCalls(tools, parse, calls);
            && (forall i :: 0 <= i < |r.appended| ==> RunCall(tools, parse, calls[i]) == Success(r.appended[i]))
            && (r.error.None? <==> |r.appended| == |calls|)
            && (r.error.Some? ==> RunCall(tools, parse, calls[|r.appended|]) == Failure(r.error.value))
    decreases |calls|
  {
    if calls != [] {
      var n := |calls|;
      var pre := calls[..n - 1];
      RunCallsMeaning(tools, parse, pre);
      var p := RunCalls(tools, parse, pre);
      assert forall i :: 0 <= i < n - 1 ==> calls[i] == pre[i];
      if p.error.None? {
        var m := RunCall(tools, parse, calls[n - 1]);
        if m.Success? {
          var r := p.appended + [m.value];
          assert forall i :: 0 <= i < n ==> RunCall(tools, parse, calls[i]) == Success(r[i]) by {
            forall i | 0 <= i < n
              ensures RunCall(tools, parse, calls[i]) == Success(r[i])
            {
              if i < n - 1 {
                assert r[i] == p.appended[i];
              }
            }
          }
        }
      }
    }
  }

  /** Once a call has failed, later calls change nothing. */
  lemma {:induction false} RunCallsFailed(tools: ToolMap, parse: string -> Option<Json>, calls: seq<ToolCall>, j: nat)
    requires tools.Valid() && j <= |calls| && RunCalls(tools, parse, calls[..j]).error.Some?
    ensures RunCalls(tools, parse, calls) == RunCalls(tools, parse, calls[..j])
    decreases |calls| - j
  {
    if j < |calls| {
      assert calls[..j + 1][..j] == calls[..j];
      RunCallsFailed(tools, parse, calls, j + 1);
    } else {
      assert calls[..j] == calls;
    }
  }

  // ---------------------------------------------------------------------
  // The chat loop
  // ---------------------------------------------------------------------

  /** The messages after an `invoke`, and the exception it raised, if any. */
  datatype Run = Run(messages: seq<Message>, error: Option<Error>)

  /** `while tool_calls:` from the latest assistant message `message`, the
      last of `messages`: run its calls, ask the LLM again, repeat. `fuel`
      bounds the rounds; the source loops without a bound. */
  function Rounds(config: Config, tools: ToolMap, llm: Llm, parse: string -> Option<Json>,
                  messages: seq<Message>, message: Message, fuel: nat): Run
    requires tools.Valid()
    decreases fuel
  {
    if !message.HasToolCalls() then Run(messages, None)
    else if fuel == 0 then Run(messages, Some(RoundLimitReached))
    else
      var calls := RunCalls(tools, parse, message.toolCalls.value);
      var after := messages + calls.appended;
      if calls.error.Some? then Run(after, calls.error)
      else
        var next := Reply(config.stream, llm, after, Catalog(tools));
        if next.Failure? then Run(after, Some(next.error))
        else Rounds(config, tools, llm, parse, after + [next.value], next.value, fuel - 1)
  }

  /** A round whose calls and reply succeed hands over to the next round. */
  lemma {:induction false} RoundsStep(config: Config, tools: ToolMap, llm: Llm, parse: string -> Option<Json>,
                   messages: seq<Message>, message: Message, fuel: nat, next: Message, fuel': nat)
    requires tools.Valid() && message.HasToolCalls() && fuel == fuel' + 1
    requires RunCalls(tools, parse, message.toolCalls.value).error.None?
    requires Reply(config.stream, llm, messages + RunCalls(tools, parse, message.toolCalls.value).appended, Catalog(tools)) == Success(next)
    ensures Rounds(config, tools, llm, parse, messages, message, fuel)
            == Rounds(config, tools, llm, parse, messages + RunCalls(tools, parse, message.toolCalls.value).appended + [next], next, fuel')
  {
  }

  /** `messages` with the system message in front when there is one. */
  function WithSystem(systemMessage: string, messages: seq<Message>): (r: seq<Message>)
    ensures |r| == |messages| + (if systemMessage != "" then 1 else 0)
    ensures r[|r| - |messages|..] == messages
    ensures systemMessage != "" ==> r[0] == SystemMessage(systemMessage)
  {
    if systemMessage != "" then [SystemMessage(systemMessage)] + messages else messages
  }

  /** `if messages[0]["role"] == "system": messages.pop(0)` (the list is
      never empty there). */
  function DropSystem(messages: seq<Message>): (r: seq<Message>)
    ensures |r| <= |messages| <= |r| + 1
    ensures r == messages[|messages| - |r|..]
    ensures |r| < |messages| <==> messages != [] && messages[0].Role() == "system"
  {
    if messages != [] && messages[0].Role() == "system" then messages[1..] else messages
  }

  /** `invoke(messages)`. On success the list is returned without the system
      message at its head; an exception leaves in the list everything
      inserted and appended until then. */
  function InvokeSpec(config: Config, tools: ToolMap, llm: Llm, parse: string -> Option<Json>,
                      messages: seq<Message>, maxRounds: nat): Run
    requires tools.Valid()
  {
    var start := WithSystem(config.systemMessage, messages);
    var first := Reply(config.stream, llm, start, Catalog(tools));
    if first.Failure? then Run(start, Some(first.error))
    else
      var run := Rounds(config, tools, llm, parse, start + [first.value], first.value, maxRounds);
      if run.error.Some? then run else Run(DropSystem(run.messages), None)
  }

  /** The messages the rounds append after the assistant message `message`:
      when it carries tool calls, one tool message per call, in order, each
      answering its call's id, then the next assistant message and its own
      rounds; when it carries none, nothing. */
  ghost predicate Transcript(message: Message, rest: seq<Message>)
    decreases |rest|
  {
    if !message.HasToolCalls() then rest == []
    else
      var calls := message.toolCalls.value;
      && |rest| > |calls|
      && (forall i :: 0 <= i < |calls| ==> rest[i].ToolMessage? && rest[i].toolCallId == calls[i].id)
      && rest[|calls|].AssistantMessage?
      && Transcript(rest[|calls|], rest[|calls| + 1..])
  }

  /** When every call completes, each call is answered, in order, by a tool
      message carrying its id. */
  lemma {:induction false} CallsAnswered(tools: ToolMap, parse: string -> Option<Json>, calls: seq<ToolCall>)
    requires tools.Valid() && RunCalls(tools, parse, calls).error.None?
    ensures var appended := RunCalls(tools, parse, calls).appended;
            && |appended| == |calls|
            && forall i :: 0 <= i < |calls| ==> appended[i].ToolMessage? && appended[i].toolCallId == calls[i].id
  {
    RunCallsMeaning(tools, parse, calls);
    var appended := RunCalls(tools, parse, calls).appended;
    forall i | 0 <= i < |calls|
      ensures appended[i].ToolMessage? && appended[i].toolCallId == calls[i].id
    {
      assert RunCall(tools, parse, calls[i]) == Success(appended[i]);
    }
  }

  /** One answered round followed by a transcript is a transcript. */
  lemma {:induction false} TranscriptCons(message: Message, answers: seq<Message>, next: Message, tail: seq<Message>)
    requires message.HasToolCalls() && |answers| == |message.toolCalls.value|
    requires forall i :: 0 <= i < |answers| ==> answers[i].ToolMessage? && answers[i].toolCallId == message.toolCalls.value[i].id
    requires next.AssistantMessage? && Transcript(next, tail)
    ensures Transcript(message, answers + [next] + tail)
  {
    var rest := answers + [next] + tail;
    var n := |answers|;
    assert rest[n] == next;
    assert rest[n + 1..] == tail;
    forall i | 0 <= i < n
      ensures rest[i].ToolMessage? && rest[i].toolCallId == message.toolCalls.value[i].id
    {
      assert rest[i] == answers[i];
    }
  }

  /** A list that extends `messages + mid` extends `messages`, and what
      follows `messages` in it is `mid` and then the rest. */
  lemma {:induction false} ExtendsPrefix<T>(messages: seq<T>, mid: seq<T>, out: seq<T>)
    requires |out| >= |messages + mid| && out[..|messages + mid|] == messages + mid
    ensures |out| >= |messages| && out[..|messages|] == messages
    ensures out[|messages|..] == mid + out[|messages + mid|..]
  {
    assert out[..|messages|] == (messages + mid)[..|messages|];
    calc {
      out[|messages|..];
      out[|messages|..|messages + mid|] + out[|messages + mid|..];
      mid + out[|messages + mid|..];
    }
  }

  /** The rounds only append. When they end without an exception, what they
      appended has the shape `Transcript` describes, so the list ends with
      an assistant message that has no tool calls. */
  lemma {:induction false} RoundsMeaning(config: Config, tools: ToolMap, llm: Llm, parse: string -> Option<Json>,
                                         messages: seq<Message>, message: Message, fuel: nat)
    requires tools.Valid() && message.AssistantMessage?
    ensures var r := Rounds(config, tools, llm, parse, messages, message, fuel);
            && |r.messages| >= |messages| && r.messages[..|messages|] == messages
            && (r.error.None? ==> Transcript(message, r.messages[|messages|..]))
    decreases fuel
  {
    var r := Rounds(config, tools, llm, parse, messages, message, fuel);
    if !message.HasToolCalls() {
      assert r.messages == messages;
    } else if fuel == 0 {
      assert r.messages == messages;
    } else {
      var calls := message.toolCalls.value;
      var p := RunCalls(tools, parse, calls);
      var after := messages + p.appended;
      if p.error.Some? {
        assert r.messages == after;
        ExtendsPrefix(messages, p.appended, after);
      } else {
        var next := Reply(config.stream, llm, after, Catalog(tools));
        if next.Failure? {
          assert r.messages == after;
          ExtendsPrefix(messages, p.appended, after);
        } else {
          var fuel' := fuel - 1;
          RoundsStep(config, tools, llm, parse, messages, message, fuel, next.value, fuel');
          var more := after + [next.value];
          RoundsMeaning(config, tools, llm, parse, more, next.value, fuel');
          assert messages + (p.appended + [next.value]) == more;
          ExtendsPrefix(messages, p.appended + [next.value], r.messages);
          if r.error.None? {
            CallsAnswered(tools, parse, calls);
            TranscriptCons(message, p.appended, next.value, r.messages[|more|..]);
          }
        }
      }
    }
  }

  /** A transcript ends with an assistant message that has no tool calls. */
  lemma {:induction false} TranscriptEnds(message: Message, rest: seq<Message>)
    requires Transcript(message, rest)
    ensures !([message] + rest)[|rest|].HasToolCalls()
    decreases |rest|
  {
    if message.HasToolCalls() {
      var n := |message.toolCalls.value|;
      TranscriptEnds(rest[n], rest[n + 1..]);
      assert ([message] + rest)[|rest|] == ([rest[n]] + rest[n + 1..])[|rest[n + 1..]|];
    }
  }

  /** What of the caller's list survives a successful `invoke`: all of it,
      except that with an empty system message a system message of the
      caller's own at the head is popped. */
  function Kept(systemMessage: string, messages: seq<Message>): seq<Message>
  {
    if systemMessage == "" && messages != [] && messages[0].SystemMessage? then messages[1..] else messages
  }

  /** Popping a leading system message after the rounds leaves what `Kept`
      says of the caller's messages, then what was appended after them. */
  lemma {:induction false} DropKept(systemMessage: string, messages: seq<Message>, tail: seq<Message>)
    requires tail != [] && tail[0].AssistantMessage?
    ensures DropSystem(WithSystem(systemMessage, messages) + tail) == Kept(systemMessage, messages) + tail
  {
    var all := WithSystem(systemMessage, messages) + tail;
    if systemMessage != "" {
      assert all[0] == SystemMessage(systemMessage);
      assert all[1..] == messages + tail;
    } else if messages != [] {
      assert all[0] == messages[0];
      if messages[0].SystemMessage? {
        assert all[1..] == messages[1..] + tail;
      }
    } else {
      assert all == tail;
    }
  }

  /** The shape of a successful `invoke`'s list, position by position. */
  lemma {:induction false} InvokeShape(kept: seq<Message>, first: Message, rest: seq<Message>)
    requires first.AssistantMessage? && Transcript(first, rest)
    ensures var out := kept + ([first] + rest);
            && |out| > |kept| && out[..|kept|] == kept
            && out[|kept|] == first && out[|kept| + 1..] == rest
            && out[|out| - 1].AssistantMessage? && !out[|out| - 1].HasToolCalls()
  {
    var out := kept + ([first] + rest);
    assert out[..|kept|] == kept;
    assert out[|kept| + 1..] == rest;
    TranscriptEnds(first, rest);
    assert out[|out| - 1] == ([first] + rest)[|rest|];
    if rest != [] {
      TranscriptLast(first, rest);
      assert ([first] + rest)[|rest|] == rest[|rest| - 1];
    }
  }

  /** A successful `invoke` returns the caller's messages (as `Kept` says),
      then the first assistant reply and its transcript; the last message
      is an assistant message with no tool calls. */
  lemma {:induction false} InvokeSucceeds(config: Config, tools: ToolMap, llm: Llm, parse: string -> Option<Json>,
                       messages: seq<Message>, maxRounds: nat)
    requires tools.Valid() && InvokeSpec(config, tools, llm, parse, messages, maxRounds).error.None?
    ensures var out := InvokeSpec(config, tools, llm, parse, messages, maxRounds).messages;
            var kept := Kept(config.systemMessage, messages);
            && |out| > |kept| && out[..|kept|] == kept
            && out[|kept|].AssistantMessage? && Transcript(out[|kept|], out[|kept| + 1..])
            && out[|out| - 1].AssistantMessage? && !out[|out| - 1].HasToolCalls()
  {
    var first, rest := InvokeParts(config, tools, llm, parse, messages, maxRounds);
    InvokeShape(Kept(config.systemMessage, messages), first, rest);
  }

  /** A successful `invoke`'s list splits into the kept caller messages, the
      first reply and that reply's transcript. */
  lemma {:induction false} InvokeParts(config: Config, tools: ToolMap, llm: Llm, parse: string -> Option<Json>,
                       messages: seq<Message>, maxRounds: nat) returns (first: Message, rest: seq<Message>)
    requires tools.Valid() && InvokeSpec(config, tools, llm, parse, messages, maxRounds).error.None?
    ensures first.AssistantMessage? && Transcript(first, rest)
    ensures InvokeSpec(config, tools, llm, parse, messages, maxRounds).messages
            == Kept(config.systemMessage, messages) + ([first] + rest)
  {
    var start := WithSystem(config.systemMessage, messages);
    first := Reply(config.stream, llm, start, Catalog(tools)).value;
    var run := Rounds(config, tools, llm, parse, start + [first], first, maxRounds);
    assert InvokeSpec(config, tools, llm, parse, messages, maxRounds).messages == DropSystem(run.messages);
    rest := RoundsAfter(config, tools, llm, parse, start, first, maxRounds);
    DropKept(config.systemMessage, messages, [first] + rest);
  }

  /** Rounds that end without an exception leave the list as it was, then
      the assistant message they started from, then its transcript. */
  lemma {:induction false} RoundsAfter(config: Config, tools: ToolMap, llm: Llm, parse: string -> Option<Json>,
                    start: seq<Message>, first: Message, fuel: nat) returns (rest: seq<Message>)
    requires tools.Valid() && first.AssistantMessage?
    requires Rounds(config, tools, llm, parse, start + [first], first, fuel).error.None?
    ensures Rounds(config, tools, llm, parse, start + [first], first, fuel).messages == start + ([first] + rest)
    ensures Transcript(first, rest)
  {
    var head := start + [first];
    var out := Rounds(config, tools, llm, parse, head, first, fuel).messages;
    RoundsMeaning(config, tools, llm, parse, head, first, fuel);
    rest := out[|head|..];
    ExtendsPrefix(start, [first], out);
    assert out == out[..|start|] + out[|start|..];
  }

  /** The last message of a non-empty transcript is an assistant message. */
  lemma {:induction false} TranscriptLast(message: Message, rest: seq<Message>)
    requires Transcript(message, rest) && rest != []
    ensures rest[|rest| - 1].AssistantMessage?
    decreases |rest|
  {
    var n := |message.toolCalls.value|;
    if rest[n + 1..] != [] {
      TranscriptLast(rest[n], rest[n + 1..]);
    }
  }

  /** When `invoke` raises, nothing is removed: the caller's list holds the
      system message (when one was inserted), the caller's messages and all
      that was appended before the exception. */
  lemma {:induction false} InvokeFailureKeeps(config: Config, tools: ToolMap, llm: Llm, parse: string -> Option<Json>,
                           messages: seq<Message>, maxRounds: nat)
    requires tools.Valid() && InvokeSpec(config, tools, llm, parse, messages, maxRounds).error.Some?
    ensures var out := InvokeSpec(config, tools, llm, parse, messages, maxRounds).messages;
            var start := WithSystem(config.systemMessage, messages);
            |out| >= |start| && out[..|start|] == start
  {
    var start := WithSystem(config.systemMessage, messages);
    var first := Reply(config.stream, llm, start, Catalog(tools));
    if first.Success? {
      var head := start + [first.value];
      RoundsMeaning(config, tools, llm, parse, head, first.value, maxRounds);
      assert head[..|start|] == start;
    }
  }

  /** The list `invoke` is given; it is changed in place and returned. */
  class MessageList {
    var items: seq<Message>

    constructor (items: seq<Message>)
      ensures this.items == items
    {
      this.items := items;
    }

    /** `insert(0, m)` */
    method InsertFirst(m: Message)
      modifies this
      ensures items == [m] + old(items)
    {
      items := [m] + items;
    }

    /** `append(m)` */
    method Append(m: Message)
      modifies this
      ensures items == old(items) + [m]
    {
      items := items + [m];
    }

    /** `pop(0)` */
    method PopFirst()
      requires items != []
      modifies this
      ensures items == old(items)[1..]
    {
      items := items[1..];
    }
  }

  // ---------------------------------------------------------------------
  // The remote-agent executor
  // ---------------------------------------------------------------------

  /** `CustomAgentExecutor.execute`: invoke on `[{"role": "user", …}]` and
      answer with the content of the last message. */
  function ExecuteSpec(config: Config, tools: ToolMap, llm: Llm, parse: string -> Option<Json>,
                       maxRounds: nat, userInput: string): Result<string, Error>
    requires tools.Valid()
  {
    var run := InvokeSpec(config, tools, llm, parse, [UserMessage(userInput)], maxRounds);
    if run.error.Some? then Failure(run.error.value)
    else if run.messages == [] then Failure(IndexError("list index out of range"))
    else Success(run.messages[|run.messages| - 1].content)
  }

  /** The answer sent back is the final assistant reply, one with no tool
      calls, of a conversation that starts with the user's input. */
  lemma {:induction false} ExecuteAnswers(config: Config, tools: ToolMap, llm: Llm, parse: string -> Option<Json>,
                       maxRounds: nat, userInput: string)
    requires tools.Valid() && ExecuteSpec(config, tools, llm, parse, maxRounds, userInput).Success?
    ensures var out := InvokeSpec(config, tools, llm, parse, [UserMessage(userInput)], maxRounds).messages;
            && out != [] && out[0] == UserMessage(userInput)
            && out[|out| - 1].AssistantMessage? && !out[|out| - 1].HasToolCalls()
            && ExecuteSpec(config, tools, llm, parse, maxRounds, userInput).value == out[|out| - 1].content
  {
    var messages := [UserMessage(userInput)];
    InvokeSucceeds(config, tools, llm, parse, messages, maxRounds);
    var out := InvokeSpec(config, tools, llm, parse, messages, maxRounds).messages;
    assert Kept(config.systemMessage, messages) == messages;
    assert out[0] == out[..1][0];
  }

  /** `CustomAgentExecutor.cancel`: always raises. */
  function Cancel(): (r: Result<(), Error>)
    ensures r.Failure? && r.error.Raised?
  {
    Failure(Raised("cancel not supported"))
  }

  // ---------------------------------------------------------------------
  // The agent
  // ---------------------------------------------------------------------

  class Agent {
    const config: Config
    var tools: ToolMap
    /** The MCP clients whose tools were merged, in the order they were added. */
    var mcpServers: seq<McpClient>

    ghost predicate Valid()
      reads this, mcpServers
    {
      && tools.Valid()
      && Distinct(mcpServers)
      && AllConnected(mcpServers)
    }

    /** `self.mcp_servers.append(client)` and `self.tools.update(client.tools)`. */
    method Keep(client: McpClient)
      requires Valid() && Connected(client) && client !in mcpServers
      requires client.tools.Valid() && tools.Keys() !! client.tools.Keys()
      modifies this
      ensures Valid()
      ensures mcpServers == old(mcpServers) + [client] && tools == old(tools).Update(client.tools)
    {
      mcpServers := mcpServers + [client];
      tools := tools.Update(client.tools);
    }

    /** `cls(*args, **kwargs)`, then `self.tools = {}` and `self.mcp_servers = []`. */
    constructor (config: Config)
      ensures this.config == config && tools == Empty() && mcpServers == []
    {
      this.config := config;
      tools := Empty();
      mcpServers := [];
    }

    /** One pass of a provider loop in `create`: create the client; when
        its tool names collide with names taken, close it; otherwise keep it
        and merge its tools. A client that could not be created is not
        closed. An exception from that `close()` escapes the pass. */
    method AddMcpServer(transport: Transport, server: Server) returns (r: Result<(), Error>, ghost rejected: Option<McpClient>)
      requires Valid()
      modifies this
      ensures Valid()
      ensures var offer := CreateTools(transport, server);
              tools == (if Admits(old(tools), offer) then old(tools).Update(offer.value) else old(tools))
      ensures Endpoints(mcpServers) == Endpoints(old(mcpServers)) + (if Admits(old(tools), CreateTools(transport, server)) then [(transport, server)] else [])
      ensures rejected.Some? <==> CreateTools(transport, server).Success? && !Admits(old(tools), CreateTools(transport, server))
      ensures rejected.Some? ==> Discarded(rejected.value)
      ensures r == Refusal(old(tools), transport, server)
    {
      var created, attempt := McpClient.Create(transport, server);
      r, rejected := Absorb(created);
    }

    /** The rest of a provider-loop pass, once `create` has returned or
        raised: a created client whose names are free is kept, one whose
        names collide is closed, and what that `close()` raises propagates. */
    method Absorb(created: Result<McpClient, Error>) returns (r: Result<(), Error>, ghost rejected: Option<McpClient>)
      requires Valid()
      requires created.Success? ==> Connected(created.value) && created.value.tools.Valid() && created.value !in mcpServers
      modifies this, if created.Success? then {created.value} else {}
      ensures Valid()
      ensures created.Success? ==> created.value.tools == old(created.value.tools)
      ensures var taken := created.Success? && old(tools).Keys() !! created.value.tools.Keys();
              && tools == (if taken then old(tools).Update(created.value.tools) else old(tools))
              && Endpoints(mcpServers) == Endpoints(old(mcpServers)) + (if taken then [(created.value.transport, created.value.server)] else [])
              && (rejected.Some? <==> created.Success? && !taken)
      ensures rejected.Some? ==> rejected.value == created.value && Discarded(rejected.value)
      ensures r == (if rejected.Some? then Shutdown(rejected.value.server, true, true).outcome else Success(()))
    {
      rejected := None;
      r := Success(());
      if created.Success? {
        var client := created.value;
        if tools.Keys() !! client.tools.Keys() {
          EndpointsSnoc(mcpServers, client);
          Keep(client);
        } else {
          r := client.Close();
          rejected := Some(client);
        }
      }
    }

    /** A provider loop of `create` over `ts`, after the transports `done`.
        It stops at the first exception that escapes a pass. */
    method AddMcpServers(world: World, ghost done: seq<Transport>, ts: seq<Transport>) returns (r: Result<(), Error>)
      requires Valid()
      requires Escape(world, done).None?
      requires tools == Federate(McpOffers(world, done))
      requires Endpoints(mcpServers) == AcceptedEndpoints(world, done)
      modifies this
      ensures Valid()
      ensures r.Success? <==> Escape(world, done + ts).None?
      ensures r.Failure? ==> Escape(world, done + ts) == Some(r.error)
      ensures r.Success? ==> tools == Federate(McpOffers(world, done + ts))
                             && Endpoints(mcpServers) == AcceptedEndpoints(world, done + ts)
    {
      assert done + ts[..0] == done;
      for i := 0 to |ts|
        invariant Valid()
        invariant Escape(world, done + ts[..i]).None?
        invariant tools == Federate(McpOffers(world, done + ts[..i]))
        invariant Endpoints(mcpServers) == AcceptedEndpoints(world, done + ts[..i])
      {
        var t := ts[i];
        SnocSlice(done, ts, i);
        McpOffersSnoc(world, done + ts[..i], t);
        AcceptedEndpointsSnoc(world, done + ts[..i], t);
        FederateSnoc(McpOffers(world, done + ts[..i]), CreateTools(t, world.servers(t)));
        EscapeStep(world, done, ts, i);
        var step, rejected := AddMcpServer(t, world.servers(t));
        if step.Failure? {
          EscapeStops(world, done, ts, i);
          return step;
        }
      }
      assert ts[..|ts|] == ts;
      r := Success(());
    }

    /** `CustomA2AClient(a2a_server_urls=urls)` and its `tools`. */
    static method RemoteTools(world: World, urls: seq<string>) returns (r: Result<ToolMap, Error>)
      ensures r == A2aTools(world.fetch, world.peers, urls)
      ensures r.Success? ==> r.value.Valid()
    {
      var a2a := CustomA2AClient.Create(world.fetch, world.peers, urls);
      if a2a.Failure? {
        return Failure(a2a.error);
      }
      r := Success(a2a.value.tools);
    }

    /** The remote-agent step of `create`: merge the remote agents' tools
        unless one of their names is taken. */
    method AddRemoteAgents(world: World)
      requires Valid()
      modifies this
      ensures Valid() && mcpServers == old(mcpServers)
      ensures var offer := A2aTools(world.fetch, world.peers, config.remoteUrls);
              tools == (if Admits(old(tools), offer) then old(tools).Update(offer.value) else old(tools))
    {
      var offer := RemoteTools(world, config.remoteUrls);
      Merge(offer);
    }

    /** The conflict check and `self.tools.update(...)` for a provider whose
        client is not kept. */
    method Merge(offer: Result<ToolMap, Error>)
      requires Valid() && (offer.Success? ==> offer.value.Valid())
      modifies this
      ensures Valid() && mcpServers == old(mcpServers)
      ensures tools == (if Admits(old(tools), offer) then old(tools).Update(offer.value) else old(tools))
    {
      if offer.Success? && tools.Keys() !! offer.value.Keys() {
        tools := tools.Update(offer.value);
      }
    }

    /** `Agent.create`: the stdio, SSE and streamable-HTTP providers one
        after the other, then the remote agents when there are remote URLs.
        The remote agents' tools are merged but their client is not kept in
        `mcp_servers`. An exception raised while closing a refused client
        escapes `create`. */
    static method Create(config: Config, world: World) returns (r: Result<Agent, Error>)
      ensures r.Success? <==> Escape(world, Transports(config)).None?
      ensures r.Failure? ==> Escape(world, Transports(config)) == Some(r.error)
      ensures r.Success? ==> fresh(r.value) && r.value.config == config && r.value.Valid()
      ensures r.Success? ==> r.value.tools == Federate(Offers(config, world))
      ensures r.Success? ==> Endpoints(r.value.mcpServers) == AcceptedEndpoints(world, Transports(config))
    {
      var agent := new Agent(config);
      var stdio := StdioTransports(config.stdioCommands);
      var sse := SseTransports(config.sseUrls);
      var http := HttpTransports(config.httpUrls);
      var all := Transports(config);
      assert [] + stdio == stdio && all == stdio + sse + http;
      var step := agent.AddMcpServers(world, [], stdio);
      if step.Failure? {
        assert all[..|stdio|] == stdio;
        EscapeKept(world, all, |stdio|);
        return Failure(step.error);
      }
      step := agent.AddMcpServers(world, stdio, sse);
      if step.Failure? {
        assert all[..|stdio + sse|] == stdio + sse;
        EscapeKept(world, all, |stdio + sse|);
        return Failure(step.error);
      }
      step := agent.AddMcpServers(world, stdio + sse, http);
      if step.Failure? {
        return Failure(step.error);
      }
      ghost var mcp := McpOffers(world, all);
      if config.remoteUrls != [] {
        FederateSnoc(mcp, A2aTools(world.fetch, world.peers, config.remoteUrls));
        agent.AddRemoteAgents(world);
      } else {
        assert Offers(config, world) == mcp;
      }
      r := Success(agent);
    }

    /** The `for tool_call in tool_calls` loop of `invoke`. */
    method RunToolCalls(messages: MessageList, parse: string -> Option<Json>, calls: seq<ToolCall>) returns (error: Option<Error>)
      requires tools.Valid()
      modifies messages
      ensures messages.items == old(messages.items) + RunCalls(tools, parse, calls).appended
      ensures error == RunCalls(tools, parse, calls).error
    {
      for j := 0 to |calls|
        invariant RunCalls(tools, parse, calls[..j]).error.None?
        invariant messages.items == old(messages.items) + RunCalls(tools, parse, calls[..j]).appended
      {
        var m := RunCall(tools, parse, calls[j]);
        assert calls[..j + 1][..j] == calls[..j];
        if m.Failure? {
          RunCallsFailed(tools, parse, calls, j + 1);
          return Some(m.error);
        }
        messages.Append(m.value);
      }
      assert calls[..|calls|] == calls;
      error := None;
    }

    /** The `while tool_calls` loop of `invoke`, from the assistant message
        `last` at the end of the list. */
    method Loop(messages: MessageList, llm: Llm, parse: string -> Option<Json>, last: Message, fuel: nat) returns (error: Option<Error>)
      requires tools.Valid() && messages.items != []
      modifies messages
      ensures var run := Rounds(config, tools, llm, parse, old(messages.items), last, fuel);
              messages.items == run.messages && error == run.error
      ensures messages.items != []
    {
      var tools := this.tools;
      var catalog := Catalog(tools);
      var message := last;
      var left := fuel;
      ghost var target := Rounds(config, tools, llm, parse, messages.items, last, fuel);
      while message.HasToolCalls()
        invariant Rounds(config, tools, llm, parse, messages.items, message, left) == target
        invariant messages.items != []
        decreases left
      {
        if left == 0 {
          return Some(RoundLimitReached);
        }
        ghost var before := messages.items;
        var error := RunToolCalls(messages, parse, message.toolCalls.value);
        if error.Some? {
          return error;
        }
        var next := Complete(config.stream, llm, messages.items, catalog);
        if next.Failure? {
          return Some(next.error);
        }
        var left' := left - 1;
        RoundsStep(config, tools, llm, parse, before, message, left, next.value, left');
        messages.Append(next.value);
        message := next.value;
        left := left';
      }
      error := None;
    }

    /** `invoke(messages)`: the list is changed in place and, on success,
        returned; `parse` is `json.loads` and `maxRounds` bounds the rounds. */
    method Invoke(messages: MessageList, llm: Llm, parse: string -> Option<Json>, maxRounds: nat) returns (r: Result<MessageList, Error>)
      requires tools.Valid()
      modifies messages
      ensures var run := InvokeSpec(config, tools, llm, parse, old(messages.items), maxRounds);
              && messages.items == run.messages
              && (r.Success? <==> run.error.None?)
              && (r.Success? ==> r.value == messages)
              && (r.Failure? ==> r.error == run.error.value)
    {
      if config.systemMessage != "" {
        messages.InsertFirst(SystemMessage(config.systemMessage));
      }
      var message := Complete(config.stream, llm, messages.items, Catalog(tools));
      if message.Failure? {
        return Failure(message.error);
      }
      messages.Append(message.value);
      var error := Loop(messages, llm, parse, message.value, maxRounds);
      if error.Some? {
        return Failure(error.value);
      }
      if messages.items[0].Role() == "system" {
        messages.PopFirst();
      }
      r := Success(messages);
    }

    /** `close()`: close every kept MCP client, in order. The first
        `close()` that raises stops the loop, leaving the later clients as
        they were; `stop` is its index, or the number of clients when none
        raises. For an agent as `create` leaves it, a client whose close
        succeeds has exited its session context and then its transport
        context. */
    method Close() returns (r: Result<(), Error>, ghost stop: nat)
      requires Distinct(mcpServers)
      modifies mcpServers
      ensures stop <= |mcpServers| && (r.Success? <==> stop == |mcpServers|)
      ensures forall i :: 0 <= i <= stop && i < |mcpServers| ==> var c := mcpServers[i];
                var e := CloseEffect(old(c.closed), c.server, old(c.sessionCm), old(c.clientCm));
                && c.closed == (if old(c.closed).None? then None else Some(true))
                && c.exited == old(c.exited) + e.exits
                && (i < stop ==> e.outcome.Success?)
                && (i == stop ==> r == e.outcome)
      ensures forall i :: stop < i < |mcpServers| ==> var c := mcpServers[i];
                c.closed == old(c.closed) && c.exited == old(c.exited)
      ensures old(Valid()) && r.Success? ==>
                forall i :: 0 <= i < |mcpServers| ==>
                  mcpServers[i].closed == Some(true) && mcpServers[i].exited == [SessionContext, TransportContext]
    {
      for i := 0 to |mcpServers|
        invariant forall k :: 0 <= k < i ==> var c := mcpServers[k];
                    var e := CloseEffect(old(c.closed), c.server, old(c.sessionCm), old(c.clientCm));
                    && c.closed == (if old(c.closed).None? then None else Some(true))
                    && c.exited == old(c.exited) + e.exits
                    && e.outcome.Success?
        invariant forall k :: i <= k < |mcpServers| ==> var c := mcpServers[k];
                    c.closed == old(c.closed) && c.exited == old(c.exited)
                    && c.sessionCm == old(c.sessionCm) && c.clientCm == old(c.clientCm)
      {
        var closing := mcpServers[i].Close();
        if closing.Failure? {
          r, stop := closing, i;
          return;
        }
      }
      r, stop := Success(()), |mcpServers|;
    }

    /** `CustomAgentExecutor.execute` for this agent. */
    method Execute(llm: Llm, parse: string -> Option<Json>, maxRounds: nat, userInput: string) returns (r: Result<string, Error>)
      requires tools.Valid()
      ensures r == ExecuteSpec(config, tools, llm, parse, maxRounds, userInput)
    {
      var messages := new MessageList([UserMessage(userInput)]);
      var out := Invoke(messages, llm, parse, maxRounds);
      if out.Failure? {
        return Failure(out.error);
      }
      var items := out.value.items;
      if items == [] {
        return Failure(IndexError("list index out of range"));
      }
      r := Success(items[|items| - 1].content);
    }
  }
}
