/** The chat messages `Agent.invoke` reads and appends: dicts with a `role`
    key, and the tool calls an assistant message carries. */
module Messages {
  import opened Wrappers

  /** A tool call as the agent reads it: `tool_call.id`,
      `tool_call.function.name` and `tool_call.function.arguments`, each of
      which the LLM client library may leave `None`. */
  datatype ToolCall = ToolCall(id: Option<string>, name: Option<string>, arguments: Option<string>)

  datatype Message =
    /** `{"role": "system", "content": …}` */
    | SystemMessage(content: string)
    /** `{"role": "user", "content": …}` */
    | UserMessage(content: string)
    /** `{"role": "assistant", "content": …, "tool_calls": …}`; the tool calls
        are `None` when the completion carried none */
    | AssistantMessage(content: string, toolCalls: Option<seq<ToolCall>>)
    /** `{"role": "tool", "tool_call_id": …, "content": str(result)}` */
    | ToolMessage(toolCallId: Option<string>, content: string)
  {
    /** `message["role"]` */
    function Role(): (r: string)
      ensures r == "system" <==> SystemMessage?
      ensures r == "tool" <==> ToolMessage?
      ensures r == "assistant" <==> AssistantMessage?
    {
      match this
      case SystemMessage(_) => "system"
      case UserMessage(_) => "user"
      case AssistantMessage(_, _) => "assistant"
      case ToolMessage(_, _) => "tool"
    }

    /** The truth value of `message["tool_calls"]`: present and non-empty. */
    predicate HasToolCalls()
    {
      AssistantMessage? && toolCalls.Some? && toolCalls.value != []
    }

    /** The tool calls the agent loop runs for this message. */
    function Calls(): seq<ToolCall>
    {
      if HasToolCalls() then toolCalls.value else []
    }
  }
}
