/** `CustomA2AClient`: the registry of peer agents reached over the A2A
    protocol, offered to the LLM as one `call_agent` tool. */
module A2aClient {
  import opened Wrappers
  import opened Errors
  import opened Json
  import opened Text
  import opened OrderedDict
  import opened Tool

  /** Where a server publishes its agent card; the constant comes from the
      A2A client library. */
  const AgentCardWellKnownPath := "/.well-known/agent-card.json"

  /** An `AgentSkill`; its `examples` are optional. */
  datatype Skill = Skill(description: string, examples: Option<seq<string>>)

  datatype AgentCard = AgentCard(name: string, description: string, skills: seq<Skill>)

  type Agents = Dict<string, AgentCard>

  /** `f"{server_url.rstrip('/')}{AGENT_CARD_WELL_KNOWN_PATH}"` */
  function CardUrl(serverUrl: string): string
  {
    RStripChar(serverUrl, '/') + AgentCardWellKnownPath
  }

  /** The card URL is the server URL without its trailing slashes, followed
      by the well-known card path. */
  lemma {:induction false} CardUrlShape(serverUrl: string)
    ensures var r := CardUrl(serverUrl);
            && |r| >= |AgentCardWellKnownPath|
            && r[|r| - |AgentCardWellKnownPath|..] == AgentCardWellKnownPath
            && var base := r[..|r| - |AgentCardWellKnownPath|];
               && |base| <= |serverUrl| && base == serverUrl[..|base|]
               && (base == [] || base[|base| - 1] != '/')
               && forall i :: |base| <= i < |serverUrl| ==> serverUrl[i] == '/'
  {
    var base := RStripChar(serverUrl, '/');
    assert CardUrl(serverUrl)[..|base|] == base;
  }

  /** The `else` branch of the registration loop: a card whose name is taken
      is dropped. */
  function Register(agents: Agents, card: AgentCard): (r: Agents)
    requires agents.Valid()
    ensures r.Valid()
  {
    if card.name in agents.keys then agents else agents.Set(card.name, card)
  }

  /** `self.agents` after the registration loop over `urls`; `fetch` gives
      the card served at a URL, or `None` when the request, the JSON decoding
      or the card validation raised. */
  function Registry(fetch: string -> Option<AgentCard>, urls: seq<string>): (r: Agents)
    ensures r.Valid()
  {
    if urls == [] then Empty()
    else
      var p := Registry(fetch, urls[..|urls| - 1]);
      var card := fetch(CardUrl(urls[|urls| - 1]));
      if card.None? then p else Register(p, card.value)
  }

  /** One more URL registers its card, if it has one. */
  lemma {:induction false} RegistryStep(fetch: string -> Option<AgentCard>, urls: seq<string>, i: nat)
    requires i < |urls|
    ensures var card := fetch(CardUrl(urls[i]));
            Registry(fetch, urls[..i + 1])
            == if card.None? then Registry(fetch, urls[..i]) else Register(Registry(fetch, urls[..i]), card.value)
  {
    assert urls[..i + 1][..i] == urls[..i];
  }

  /** The first card fetched from `urls` whose name is `name`. */
  function FirstCard(fetch: string -> Option<AgentCard>, urls: seq<string>, name: string): Option<AgentCard>
  {
    if urls == [] then None
    else
      var p := FirstCard(fetch, urls[..|urls| - 1], name);
      var card := fetch(CardUrl(urls[|urls| - 1]));
      if p.Some? then p
      else if card.Some? && card.value.name == name then card
      else None
  }

  /** The registry holds, under each name, the first card fetched with that
      name; no other name is registered. */
  lemma {:induction false} RegistryFirstWins(fetch: string -> Option<AgentCard>, urls: seq<string>, name: string)
    ensures Registry(fetch, urls).Get(name) == FirstCard(fetch, urls, name)
    decreases |urls|
  {
    if urls != [] {
      var p := Registry(fetch, urls[..|urls| - 1]);
      var card := fetch(CardUrl(urls[|urls| - 1]));
      RegistryFirstWins(fetch, urls[..|urls| - 1], name);
      if card.Some? && card.value.name !in p.keys {
        SetGet(p, card.value.name, card.value, name);
      }
    }
  }

  /** Registration only adds: an agent registered from earlier URLs stays
      registered with the same card whatever later URLs serve. */
  lemma {:induction false} RegistryKeeps(fetch: string -> Option<AgentCard>, urls: seq<string>, i: nat, name: string)
    requires i <= |urls| && name in Registry(fetch, urls[..i]).keys
    ensures Registry(fetch, urls).Get(name) == Registry(fetch, urls[..i]).Get(name)
    decreases |urls| - i
  {
    if i < |urls| {
      var p := Registry(fetch, urls[..i]);
      var card := fetch(CardUrl(urls[i]));
      assert urls[..i + 1][..i] == urls[..i];
      if card.Some? && card.value.name !in p.keys {
        SetGet(p, card.value.name, card.value, name);
      }
      RegistryKeeps(fetch, urls, i + 1, name);
    } else {
      assert urls[..i] == urls;
    }
  }

  /** A peer that cannot be reached is skipped: the URLs after it are
      registered as if it were absent. */
  lemma {:induction false} UnreachableSkipped(fetch: string -> Option<AgentCard>, xs: seq<string>, u: string, ys: seq<string>)
    requires fetch(CardUrl(u)).None?
    ensures Registry(fetch, xs + [u] + ys) == Registry(fetch, xs + ys)
    decreases |ys|
  {
    if ys == [] {
      assert (xs + [u] + ys)[..|xs| ] == xs;
      assert xs + ys == xs;
    } else {
      var n := |ys|;
      assert (xs + [u] + ys)[..|xs + [u] + ys| - 1] == xs + [u] + ys[..n - 1];
      assert (xs + ys)[..|xs + ys| - 1] == xs + ys[..n - 1];
      UnreachableSkipped(fetch, xs, u, ys[..n - 1]);
    }
  }

  /** `"".join("\n        - " + s for s in items)` */
  function Bullets(items: seq<string>): string
  {
    if items == [] then "" else Bullets(items[..|items| - 1]) + "\n        - " + items[|items| - 1]
  }

  /** `[skill.description for skill in skills]` */
  function SkillDescriptions(skills: seq<Skill>): (r: seq<string>)
    ensures |r| == |skills| && forall i :: 0 <= i < |skills| ==> r[i] == skills[i].description
  {
    if skills == [] then [] else SkillDescriptions(skills[..|skills| - 1]) + [skills[|skills| - 1].description]
  }

  /** `[example for skill in skills for example in skill.examples]`; iterating
      a skill whose `examples` is `None` raises `TypeError`. */
  function Examples(skills: seq<Skill>): (r: Result<seq<string>, Error>)
    ensures r.Success? <==> forall i :: 0 <= i < |skills| ==> skills[i].examples.Some?
  {
    if skills == [] then Success([])
    else
      var p := Examples(skills[..|skills| - 1]);
      var last := skills[|skills| - 1];
      assert forall i :: 0 <= i < |skills| - 1 ==> skills[..|skills| - 1][i] == skills[i];
      if p.Failure? then p
      else if last.examples.None? then Failure(TypeError("'NoneType' object is not iterable"))
      else Success(p.value + last.examples.value)
  }

  /** The block that `get_tool_define` appends for one agent. */
  function AgentBlock(name: string, card: AgentCard): (r: Result<string, Error>)
    ensures r.Success? <==> Examples(card.skills).Success?
  {
    var examples := Examples(card.skills);
    if examples.Failure? then Failure(examples.error)
    else Success("- Agent \"" + name + "\": " + card.description + "\n    - Khả năng:"
                 + Bullets(SkillDescriptions(card.skills)) + "\n    - Ví dụ: " + Bullets(examples.value) + "\n")
  }

  const DescriptionPrefix := "Hỏi các agent khác. Danh sách các agent:"

  /** The blocks of the agents `names`/`cards`, in order. */
  function Blocks(names: seq<string>, cards: seq<AgentCard>): (r: Result<string, Error>)
    requires |names| == |cards|
  {
    if names == [] then Success("")
    else
      var p := Blocks(names[..|names| - 1], cards[..|cards| - 1]);
      var b := AgentBlock(names[|names| - 1], cards[|cards| - 1]);
      if p.Failure? then p else if b.Failure? then Failure(b.error) else Success(p.value + b.value)
  }

  /** The description of `call_agent` succeeds exactly when every skill of
      every registered agent lists its examples. */
  lemma {:induction false} BlocksSucceed(names: seq<string>, cards: seq<AgentCard>)
    requires |names| == |cards|
    ensures Blocks(names, cards).Success?
        <==> forall i, j :: 0 <= i < |cards| && 0 <= j < |cards[i].skills| ==> cards[i].skills[j].examples.Some?
    decreases |names|
  {
    if names != [] {
      var n := |names|;
      BlocksSucceed(names[..n - 1], cards[..n - 1]);
      assert forall i :: 0 <= i < n - 1 ==> cards[..n - 1][i] == cards[i];
    }
  }

  /** The `parameters` schema of `call_agent`. */
  const CallAgentParameters: Json :=
    JObj([("type", JStr("object")),
          ("properties", JObj([("message", JObj([("type", JStr("string")),
                                                 ("description", JStr("Yêu cầu hoặc câu hỏi gửi đến agent"))])),
                               ("agent_name", JObj([("type", JStr("string")),
                                                    ("description", JStr("Tên agent"))]))])),
          ("required", JArr([JStr("message"), JStr("agent_name")]))])

  /** What `get_tool_define()` returns for the registered agents. */
  function CallAgentDefine(agents: Agents): (r: Result<Json, Error>)
    requires agents.Valid()
    ensures r.Success? <==> Blocks(agents.keys, agents.values).Success?
    ensures r.Success? ==>
              && DefinedName(r.value) == Some("call_agent")
              && FunctionField(r.value, "description") == Some(JStr(DescriptionPrefix + Blocks(agents.keys, agents.values).value))
              && FunctionField(r.value, "parameters") == Some(CallAgentParameters)
              && FunctionField(r.value, "strict") == Some(JBool(true))
  {
    var blocks := Blocks(agents.keys, agents.values);
    if blocks.Failure? then Failure(blocks.error)
    else Success(FunctionDefine("call_agent", JStr(DescriptionPrefix + blocks.value), CallAgentParameters))
  }

  /** The schema requires exactly `message` and `agent_name`. */
  lemma {:induction false} ParametersRequireBoth()
    ensures Has(CallAgentParameters, "required")
    ensures Get(CallAgentParameters, "required") == JArr([JStr("message"), JStr("agent_name")])
  {
    assert Lookup(CallAgentParameters.fields[2..], "required") == Some(JArr([JStr("message"), JStr("agent_name")]));
  }

  const UnknownAgentLabel := "Agent không tồn tại: "
  const AgentListLabel := ". Danh sách agent: "

  /** The reply to an unknown agent name: the label, the name, then the
      registered names as Python prints a list of them. */
  function UnknownAgentReply(name: string, agents: Agents): (r: string)
    ensures var n, l := |UnknownAgentLabel|, |AgentListLabel|;
            && |r| == n + |name| + l + |ReprList(agents.keys)|
            && r[..n] == UnknownAgentLabel
            && r[n..n + |name|] == name
            && r[n + |name|..n + |name| + l] == AgentListLabel
            && r[n + |name| + l..] == ReprList(agents.keys)
  {
    UnknownAgentLabel + name + AgentListLabel + ReprList(agents.keys)
  }

  /** `send_message_payload` for `message`; `messageId` stands for
      `uuid.uuid4().hex`. */
  function SendPayload(message: string, messageId: string): Json
  {
    JObj([("message", JObj([("role", JStr("user")),
                            ("parts", JArr([JObj([("kind", JStr("text")), ("text", JStr(message))])])),
                            ("messageId", JStr(messageId))]))])
  }

  /** The outgoing message is a user message with a single text part holding
      `message`. */
  lemma {:induction false} PayloadShape(message: string, messageId: string)
    ensures var m := Get(SendPayload(message, messageId), "message");
            && Has(SendPayload(message, messageId), "message")
            && Has(m, "role") && Get(m, "role") == JStr("user")
            && Has(m, "parts") && Get(m, "parts") == JArr([JObj([("kind", JStr("text")), ("text", JStr(message))])])
            && Has(m, "messageId") && Get(m, "messageId") == JStr(messageId)
  {
    var m := JObj([("role", JStr("user")),
                   ("parts", JArr([JObj([("kind", JStr("text")), ("text", JStr(message))])])),
                   ("messageId", JStr(messageId))]);
    assert Lookup(m.fields[1..], "parts") == Some(JArr([JObj([("kind", JStr("text")), ("text", JStr(message))])]));
    assert Lookup(m.fields[2..], "messageId") == Some(JStr(messageId));
  }

  /** The `text` of the first part that has one. */
  function FirstText(parts: seq<Json>): (r: Option<Json>)
    ensures r.None? <==> forall i :: 0 <= i < |parts| ==> !Has(parts[i], "text")
    ensures r.Some? ==> exists i :: 0 <= i < |parts| && Has(parts[i], "text") && r.value == Get(parts[i], "text")
                          && forall j :: 0 <= j < i ==> !Has(parts[j], "text")
  {
    if parts == [] then None
    else if Has(parts[0], "text") then Some(Get(parts[0], "text"))
    else
      assert forall i :: 0 <= i < |parts| - 1 ==> parts[1..][i] == parts[i + 1];
      FirstText(parts[1..])
  }

  /** The parts `response_dict["result"]["parts"]`, when they are there. */
  function ReplyParts(response: Json): Option<seq<Json>>
  {
    if Has(response, "result") && Has(Get(response, "result"), "parts")
       && Get(Get(response, "result"), "parts").JArr?
    then Some(Get(Get(response, "result"), "parts").items)
    else None
  }

  /** The text extracted from the response of `send_message`:
      `dumps(response)` stands for `json.dumps(response_dict, indent=2)`. */
  function ExtractReply(response: Json, dumps: Json -> string): (r: string)
    ensures var parts := ReplyParts(response);
            if parts.Some? && FirstText(parts.value).Some? then
              r == (if FirstText(parts.value).value.JStr? then FirstText(parts.value).value.s
                    else dumps(FirstText(parts.value).value))
            else r == dumps(response)
  {
    var parts := ReplyParts(response);
    if parts.Some? then
      var text := FirstText(parts.value);
      if text.Some? then (if text.value.JStr? then text.value.s else dumps(text.value))
      else dumps(response)
    else dumps(response)
  }

  /** How a peer agent answers: `send` gives the response to a payload sent
      to the agent of a card, or the exception the request raised; `dumps`
      is `json.dumps(…, indent=2)`; `messageId` is the message's id. */
  datatype Peers = Peers(send: (AgentCard, Json) -> Result<Json, Error>, dumps: Json -> string, messageId: string)

  /** Whether `agent_name in self.agents` can be asked of a value: a list or
      a dict is unhashable. */
  predicate Hashable(j: Json)
  {
    !j.JArr? && !j.JObj?
  }

  /** Python's `str()` of a hashable JSON value, as the f-string of the
      unknown-agent reply shows it. */
  function PyStr(j: Json): (r: string)
    requires Hashable(j)
    ensures j.JStr? ==> r == j.s
    ensures j.JInt? ==> r == Decimal(j.i)
  {
    match j
    case JNull => "None"
    case JBool(b) => if b then "True" else "False"
    case JInt(i) => Decimal(i)
    case JStr(s) => s
  }

  /** `agent_name in self.agents`: only a string can equal a registered name. */
  predicate Registered(agents: Agents, agentName: Json)
  {
    agentName.JStr? && agentName.s in agents.keys
  }

  /** `call_remote_agent(agent_name, message)`, for whatever values the
      decoded arguments carry. The membership test comes first: an
      unhashable name raises `TypeError`, and any other name that is not
      registered gets the literal reply whatever `message` is. For a
      registered name, `MessageSendParams` rejects a message that is not a
      string before anything is sent. */
  function CallRemoteAgent(agents: Agents, peers: Peers, agentName: Json, message: Json): (r: Result<string, Error>)
    requires agents.Valid()
    ensures !Hashable(agentName) ==> r.Failure? && r.error.TypeError?
    ensures Hashable(agentName) && !Registered(agents, agentName) ==> r == Success(UnknownAgentReply(PyStr(agentName), agents))
    ensures Registered(agents, agentName) && !message.JStr? ==> r.Failure?
  {
    if !Hashable(agentName) then Failure(TypeError("unhashable type"))
    else if !Registered(agents, agentName) then Success(UnknownAgentReply(PyStr(agentName), agents))
    else if !message.JStr? then Failure(Raised("ValidationError: the message text is not a string"))
    else
      var response := peers.send(agents.Get(agentName.s).value, SendPayload(message.s, peers.messageId));
      if response.Failure? then Failure(response.error)
      else Success(ExtractReply(response.value, peers.dumps))
  }

  /** A hashable name that is not registered gets the literal reply, with
      the name as `str()` shows it, whatever the message is; nothing is
      sent, so the result does not depend on how the peers answer. */
  lemma {:induction false} UnknownAgentNotSent(agents: Agents, p1: Peers, p2: Peers, agentName: Json, message: Json)
    requires agents.Valid() && Hashable(agentName) && !Registered(agents, agentName)
    ensures CallRemoteAgent(agents, p1, agentName, message) == Success(UnknownAgentReply(PyStr(agentName), agents))
    ensures CallRemoteAgent(agents, p1, agentName, message) == CallRemoteAgent(agents, p2, agentName, message)
  {
  }

  /** A registered agent is sent the payload for a string `message`, to the
      card registered under its name, and its reply is extracted; a message
      that is not a string fails validation and nothing is sent. */
  lemma {:induction false} KnownAgentSent(agents: Agents, peers: Peers, agentName: string, message: Json)
    requires agents.Valid() && agentName in agents.keys
    ensures agents.Get(agentName).value in agents.values
    ensures !message.JStr? ==> CallRemoteAgent(agents, peers, JStr(agentName), message).Failure?
    ensures message.JStr? ==>
              var response := peers.send(agents.Get(agentName).value, SendPayload(message.s, peers.messageId));
              CallRemoteAgent(agents, peers, JStr(agentName), message)
              == if response.Failure? then Failure(response.error) else Success(ExtractReply(response.value, peers.dumps))
  {
  }

  /** `lambda arguments: self.call_remote_agent(**arguments)`: the decoded
      arguments must be a dict of exactly `agent_name` and `message`, whose
      values are passed on as they are. */
  function CallAgent(agents: Agents, peers: Peers, arguments: Json): (r: Result<string, Error>)
    requires agents.Valid()
    ensures !(arguments.JObj? && KeySet(arguments) == {"agent_name", "message"}) ==> r.Failure? && r.error.TypeError?
    ensures arguments.JObj? && KeySet(arguments) == {"agent_name", "message"} ==>
              && Has(arguments, "agent_name") && Has(arguments, "message")
              && r == CallRemoteAgent(agents, peers, Get(arguments, "agent_name"), Get(arguments, "message"))
  {
    if arguments.JObj? && KeySet(arguments) == {"agent_name", "message"} then
      LookupMeaning(arguments.fields, "agent_name");
      LookupMeaning(arguments.fields, "message");
      assert "agent_name" in KeySet(arguments) && "message" in KeySet(arguments);
      CallRemoteAgent(agents, peers, Get(arguments, "agent_name"), Get(arguments, "message"))
    else Failure(TypeError("call_remote_agent() got unexpected keyword arguments"))
  }

  /** An integer agent name is not registered: the `call_agent` tool answers
      with the literal reply showing it as `1`, and the conversation goes on. */
  lemma {:induction false} IntAgentNameAnswered(agents: Agents, peers: Peers)
    requires agents.Valid()
    ensures CallAgent(agents, peers, JObj([("agent_name", JInt(1)), ("message", JStr("hi"))]))
            == Success("Agent không tồn tại: 1. Danh sách agent: " + ReprList(agents.keys))
  {
    var arguments := JObj([("agent_name", JInt(1)), ("message", JStr("hi"))]);
    assert arguments.fields[0].0 == "agent_name" && arguments.fields[1].0 == "message";
    assert KeySet(arguments) == {"agent_name", "message"};
    var name := Get(arguments, "agent_name");
    assert name == JInt(1);
    assert PyStr(name) == "1" by { assert Digits(1) == "1"; }
    UnknownAgentNotSent(agents, peers, peers, name, Get(arguments, "message"));
    ReplyForOne(agents);
  }

  /** The unknown-agent reply for the name `1`, written out. */
  lemma {:induction false} ReplyForOne(agents: Agents)
    ensures UnknownAgentReply("1", agents) == "Agent không tồn tại: 1. Danh sách agent: " + ReprList(agents.keys)
  {
  }

  /** The tools of a client whose registration produced `agents`. */
  function ToolsFor(agents: Agents, peers: Peers): (r: Result<ToolMap, Error>)
    requires agents.Valid()
    ensures r.Success? ==> r.value.Valid()
    ensures r.Success? <==> CallAgentDefine(agents).Success?
    ensures r.Success? ==> r.value.keys == (if agents.keys == [] then [] else ["call_agent"])
  {
    if agents.keys == [] then Success(Empty())
    else
      var define := CallAgentDefine(agents);
      if define.Failure? then Failure(define.error)
      else Success(Empty().Set("call_agent", Tool("call_agent", define.value, (arguments: Json) => CallAgent(agents, peers, arguments))))
  }

  /** What `CustomA2AClient(urls)` yields: its tools, or the exception its
      constructor raises. */
  function A2aTools(fetch: string -> Option<AgentCard>, peers: Peers, urls: seq<string>): (r: Result<ToolMap, Error>)
    ensures r.Success? <==> CallAgentDefine(Registry(fetch, urls)).Success?
    ensures r.Success? ==> r.value.Valid() && r.value.keys == (if Registry(fetch, urls).keys == [] then [] else ["call_agent"])
  {
    ToolsFor(Registry(fetch, urls), peers)
  }

  /** The description lists the first registered agent straight after the
      prefix, with no line break between them (the example in the `Tool`
      documentation shows one). */
  lemma {:induction false} DescriptionStartsWithFirstAgent(names: seq<string>, cards: seq<AgentCard>)
    requires |names| == |cards| && names != [] && Blocks(names, cards).Success?
    ensures var first := "- Agent \"" + names[0] + "\": " + cards[0].description + "\n    - Khả năng:";
            |first| <= |Blocks(names, cards).value| && Blocks(names, cards).value[..|first|] == first
    decreases |names|
  {
    var n := |names|;
    var first := "- Agent \"" + names[0] + "\": " + cards[0].description + "\n    - Khả năng:";
    var b := AgentBlock(names[n - 1], cards[n - 1]).value;
    if n == 1 {
      assert names[..0] == [] && cards[..0] == [];
      assert Blocks(names, cards).value == "" + b;
      assert b[..|first|] == first;
    } else {
      var pre := Blocks(names[..n - 1], cards[..n - 1]).value;
      assert names[..n - 1][0] == names[0] && cards[..n - 1][0] == cards[0];
      DescriptionStartsWithFirstAgent(names[..n - 1], cards[..n - 1]);
      assert Blocks(names, cards).value == pre + b;
      PrefixOfAppend(pre, b, |first|);
    }
  }

  lemma {:induction false} PrefixOfAppend(a: string, b: string, k: nat)
    requires k <= |a|
    ensures (a + b)[..k] == a[..k]
  {
  }

  class CustomA2AClient {
    const peers: Peers
    var agents: Agents
    var tools: ToolMap

    constructor (peers: Peers)
      ensures this.peers == peers && agents == Empty() && tools == Empty()
    {
      this.peers := peers;
      agents := Empty();
      tools := Empty();
    }

    /** The registration loop of `__init__`. */
    method RegisterAll(fetch: string -> Option<AgentCard>, urls: seq<string>)
      requires agents == Empty()
      modifies this
      ensures agents == Registry(fetch, urls) && tools == old(tools)
    {
      var i := 0;
      while i < |urls|
        invariant 0 <= i <= |urls|
        invariant agents == Registry(fetch, urls[..i]) && tools == old(tools)
      {
        RegistryStep(fetch, urls, i);
        var serverUrl := RStripChar(urls[i], '/');
        var card := fetch(serverUrl + AgentCardWellKnownPath);
        if card.Some? {
          if card.value.name !in agents.keys {
            agents := agents.Set(card.value.name, card.value);
          }
        }
        i := i + 1;
      }
      assert urls[..i] == urls;
    }

    /** `get_tool_define()`, building the description with `+=`. */
    method GetToolDefine() returns (r: Result<Json, Error>)
      requires agents.Valid()
      ensures r == CallAgentDefine(agents)
    {
      var description := DescriptionPrefix;
      ghost var blocks := "";
      var i := 0;
      while i < |agents.keys|
        invariant 0 <= i <= |agents.keys|
        invariant description == DescriptionPrefix + blocks
        invariant Blocks(agents.keys[..i], agents.values[..i]) == Success(blocks)
      {
        BlocksStep(agents.keys, agents.values, i);
        var block := AgentBlock(agents.keys[i], agents.values[i]);
        if block.Failure? {
          BlocksFailed(agents.keys, agents.values, i + 1);
          return Failure(block.error);
        }
        AppendAssoc(DescriptionPrefix, blocks, block.value);
        description := description + block.value;
        blocks := blocks + block.value;
        i := i + 1;
      }
      assert agents.keys[..i] == agents.keys && agents.values[..i] == agents.values;
      r := Success(FunctionDefine("call_agent", JStr(description), CallAgentParameters));
    }

    /** `CustomA2AClient(a2a_server_urls)`: register the peers, then build
        `call_agent` if any peer was registered. The constructor raises when
        the tool definition cannot be built. */
    static method Create(fetch: string -> Option<AgentCard>, peers: Peers, urls: seq<string>) returns (r: Result<CustomA2AClient, Error>)
      ensures r.Success? <==> A2aTools(fetch, peers, urls).Success?
      ensures r.Success? ==> fresh(r.value) && r.value.agents == Registry(fetch, urls)
                             && r.value.tools == A2aTools(fetch, peers, urls).value
      ensures r.Failure? ==> r.error == A2aTools(fetch, peers, urls).error
    {
      var c := new CustomA2AClient(peers);
      c.RegisterAll(fetch, urls);
      if c.agents.keys != [] {
        var define := c.GetToolDefine();
        if define.Failure? {
          return Failure(define.error);
        }
        var agents := c.agents;
        c.tools := Empty().Set("call_agent", Tool("call_agent", define.value,
                                                   (arguments: Json) => CallAgent(agents, peers, arguments)));
      } else {
        c.tools := Empty();
      }
      r := Success(c);
    }
  }

  /** Once a block has failed, the description fails with it. */
  lemma {:induction false} BlocksFailed(names: seq<string>, cards: seq<AgentCard>, i: nat)
    requires |names| == |cards| && i <= |names|
    requires Blocks(names[..i], cards[..i]).Failure?
    ensures Blocks(names, cards) == Blocks(names[..i], cards[..i])
    decreases |names| - i
  {
    if i < |names| {
      BlocksStep(names, cards, i);
      BlocksFailed(names, cards, i + 1);
    } else {
      assert names[..i] == names && cards[..i] == cards;
    }
  }

  /** One more agent extends the blocks of those before it. */
  lemma {:induction false} BlocksStep(names: seq<string>, cards: seq<AgentCard>, i: nat)
    requires |names| == |cards| && i < |names|
    ensures var p := Blocks(names[..i], cards[..i]);
            var b := AgentBlock(names[i], cards[i]);
            Blocks(names[..i + 1], cards[..i + 1])
            == if p.Failure? then p else if b.Failure? then Failure(b.error) else Success(p.value + b.value)
  {
    assert names[..i + 1][..i] == names[..i] && cards[..i + 1][..i] == cards[..i];
  }
}
