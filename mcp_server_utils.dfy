/** `tool_wrapper`: the decorator every MCP server tool is wrapped in. It
    turns any `Exception` raised by the tool into a fixed reply, for plain
    and for coroutine functions alike. */
module McpServerUtils {

  /** The reply a failed tool call produces. */
  const FailureMessage := "Tool call failed. Something went wrong."

  /** How one run of the wrapped function ends. `Exception` subclasses are
      caught by the wrapper; other `BaseException`s (`KeyboardInterrupt`,
      `asyncio.CancelledError`, `SystemExit`) are not. */
  datatype Outcome<+R> =
    | Returns(value: R)
    | RaisesException(exception: string)
    | RaisesBaseException(exception: string)

  /** What a wrapped tool returns: the tool's own result or the failure text. */
  datatype Reply<+R> = ToolResult(value: R) | FailureText(text: string)

  /** A tool function, as `inspect.iscoroutinefunction` classifies it; `run`
      gives the outcome of calling (and, for a coroutine, awaiting) it. */
  datatype ToolFunction<!A, R> =
    | SyncFunction(run: A -> Outcome<R>)
    | CoroutineFunction(run: A -> Outcome<R>)

  /** The function `tool_wrapper` returns: an `async_wrapper` around a
      coroutine function and a `sync_wrapper` around anything else. */
  datatype Wrapper<!A, R> =
    | AsyncWrapper(func: A -> Outcome<R>)
    | SyncWrapper(func: A -> Outcome<R>)

  function ToolWrapper<A, R>(f: ToolFunction<A, R>): (w: Wrapper<A, R>)
    ensures w.AsyncWrapper? <==> f.CoroutineFunction?
    ensures w.func == f.run
  {
    match f
    case CoroutineFunction(run) => AsyncWrapper(run)
    case SyncFunction(run) => SyncWrapper(run)
  }

  /** The `try`/`except Exception` of either wrapper, applied to one outcome. */
  function Guard<R>(o: Outcome<R>): (r: Outcome<Reply<R>>)
    ensures !r.RaisesException?
    ensures o.Returns? ==> r == Returns(ToolResult(o.value))
    ensures o.RaisesException? ==> r == Returns(FailureText(FailureMessage))
    ensures o.RaisesBaseException? ==> r == RaisesBaseException(o.exception)
  {
    match o
    case Returns(v) => Returns(ToolResult(v))
    case RaisesException(_) => Returns(FailureText(FailureMessage))
    case RaisesBaseException(e) => RaisesBaseException(e)
  }

  /** Calling (and, for `async_wrapper`, awaiting) the wrapper with `args`:
      the arguments go to the wrapped function unchanged. */
  function CallWrapper<A, R>(w: Wrapper<A, R>, args: A): Outcome<Reply<R>>
  {
    match w
    case AsyncWrapper(func) => Guard(func(args))
    case SyncWrapper(func) => Guard(func(args))
  }

  /** A wrapped tool never lets an `Exception` out: it returns the tool's
      result unchanged when the tool returns, and the failure text when the
      tool raises. */
  lemma {:induction false} WrapperNeverRaises<A, R>(f: ToolFunction<A, R>, args: A)
    ensures var r := CallWrapper(ToolWrapper(f), args);
            !r.RaisesException?
            && (f.run(args).Returns? ==> r == Returns(ToolResult(f.run(args).value)))
            && (f.run(args).RaisesException? ==> r == Returns(FailureText(FailureMessage)))
  {
  }

  /** The sync and async wrappers map outcomes identically. */
  lemma {:induction false} SyncAsyncAgree<A, R>(run: A -> Outcome<R>, args: A)
    ensures CallWrapper(ToolWrapper(SyncFunction(run)), args)
         == CallWrapper(ToolWrapper(CoroutineFunction(run)), args)
  {
  }
}
