/** The demo tools the MCP server registers, each wrapped by `tool_wrapper`. */
module McpServerTools {
  import opened McpServerUtils

  /** `greet(name)` */
  function Greet(name: string): (r: string)
    ensures |r| == |name| + 8 && r[..7] == "Hello, " && r[|r| - 1] == '!'
    ensures r[7..|r| - 1] == name
  {
    "Hello, " + name + "!"
  }

  /** `bye(name)` */
  function Bye(name: string): (r: string)
    ensures |r| == |name| + 6 && r[..5] == "Bye, " && r[|r| - 1] == '!'
    ensures r[5..|r| - 1] == name
  {
    "Bye, " + name + "!"
  }

  /** Different names get different greetings and different farewells. */
  lemma {:induction false} GreetByeInjective(a: string, b: string)
    ensures Greet(a) == Greet(b) ==> a == b
    ensures Bye(a) == Bye(b) ==> a == b
  {
    if Greet(a) == Greet(b) {
      assert a == Greet(a)[7..|Greet(a)| - 1];
    }
    if Bye(a) == Bye(b) {
      assert a == Bye(a)[5..|Bye(a)| - 1];
    }
  }

  /** No greeting is a farewell: they differ in their first letter. */
  lemma {:induction false} GreetIsNeverBye(a: string, b: string)
    ensures Greet(a) != Bye(b)
  {
    assert Greet(a)[0] == 'H' && Bye(b)[0] == 'B';
  }

  /** The registered tools are `tool_wrapper(greet)` and `tool_wrapper(bye)`;
      neither can raise, so each always replies with its formatted string. */
  function GreetTool(): Wrapper<string, string>
  {
    ToolWrapper(SyncFunction((name: string) => Returns(Greet(name))))
  }

  function ByeTool(): Wrapper<string, string>
  {
    ToolWrapper(SyncFunction((name: string) => Returns(Bye(name))))
  }

  lemma {:induction false} WrappedToolsReply(name: string)
    ensures CallWrapper(GreetTool(), name) == Returns(ToolResult(Greet(name)))
    ensures CallWrapper(ByeTool(), name) == Returns(ToolResult(Bye(name)))
  {
  }
}
