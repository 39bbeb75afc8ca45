/** The Python exceptions that can leave the modelled operations, and the
    transports an MCP client can be created for. */
module Errors {
  import opened Wrappers

  /** How an MCP server is reached: a subprocess speaking over stdio, a
      Server-Sent-Events endpoint or a streamable-HTTP endpoint. */
  datatype Transport =
    | Stdio(command: string, args: seq<string>)
    | Sse(url: string)
    | StreamableHttp(url: string)

  datatype Error =
    /** `dict[key]` on a missing key (`key` is `None` when the looked-up name was `None`) */
    | KeyError(key: Option<string>)
    /** `json.loads` rejected the document */
    | JsonDecodeError(document: string)
    /** an operation applied to `None` or to a value of the wrong type */
    | TypeError(reason: string)
    /** attribute access on `None` or on an object that lacks the attribute */
    | AttributeError(reason: string)
    /** indexing past the end of a list */
    | IndexError(reason: string)
    /** an exception raised by a foreign call: the LLM, the network, a transport */
    | Raised(reason: string)
    /** `MCPConnectionError`: the MCP handshake failed; carries the command or URL */
    | McpConnectionError(transport: Transport)
    /** the model's bound on tool-calling rounds was reached (the source has no bound) */
    | RoundLimitReached
}
