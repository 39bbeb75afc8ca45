/** `Tool`: a tool offered to the LLM, pairing the schema the LLM sees with
    the function that runs it. */
module Tool {
  import opened Wrappers
  import opened Errors
  import opened Json
  import opened OrderedDict

  /** The three attributes the constructor stores, never changed afterwards. */
  datatype Tool<!A, R> = Tool(toolName: string, toolDefine: Json, callToolFunction: A -> R) {

    /** `tool(*args)`: forwards its argument to `callToolFunction`; a call
        with several arguments is modelled with a tuple for `A`. */
    function Call(args: A): (r: R)
      ensures r == callToolFunction(args)
    {
      callToolFunction(args)
    }
  }

  /** The tools an agent holds: called with the decoded JSON arguments, they
      return the text of their result or raise. */
  type AgentTool = Tool<Json, Result<string, Error>>

  /** A name-to-tool dict, such as `self.tools`. */
  type ToolMap = Dict<string, AgentTool>

  /** A tool definition in the function-calling format:
      `{"type": "function", "function": {"name": …, "description": …,
      "parameters": …, "strict": True}}`. */
  function FunctionDefine(name: string, description: Json, parameters: Json): (r: Json)
    ensures r.JObj? && Has(r, "type") && Get(r, "type") == JStr("function")
    ensures DefinedName(r) == Some(name)
    ensures FunctionField(r, "description") == Some(description)
    ensures FunctionField(r, "parameters") == Some(parameters)
    ensures FunctionField(r, "strict") == Some(JBool(true))
  {
    var body := JObj([("name", JStr(name)), ("description", description),
                      ("parameters", parameters), ("strict", JBool(true))]);
    var d := JObj([("type", JStr("function")), ("function", body)]);
    assert d.fields[1..] == [("function", body)];
    assert body.fields[1..] == [("description", description), ("parameters", parameters), ("strict", JBool(true))];
    assert body.fields[2..] == [("parameters", parameters), ("strict", JBool(true))];
    assert body.fields[3..] == [("strict", JBool(true))];
    assert Lookup(d.fields, "function") == Some(body);
    assert Lookup(body.fields, "description") == Some(description);
    assert Lookup(body.fields[1..], "parameters") == Some(parameters);
    assert Lookup(body.fields, "parameters") == Some(parameters);
    assert Lookup(body.fields[2..], "strict") == Some(JBool(true));
    assert Lookup(body.fields[1..], "strict") == Some(JBool(true));
    assert Lookup(body.fields, "strict") == Some(JBool(true));
    d
  }

  /** `tool_define["function"][key]`, when both keys are present. */
  function FunctionField(define: Json, key: string): Option<Json>
  {
    if Has(define, "function") && Has(Get(define, "function"), key)
    then Some(Get(Get(define, "function"), key))
    else None
  }

  /** `tool_define["function"]["name"]`, when it is present and a string. */
  function DefinedName(define: Json): Option<string>
  {
    var n := FunctionField(define, "name");
    if n.Some? && n.value.JStr? then Some(n.value.s) else None
  }

  /** The constructor keeps whatever it is given: nothing ties `toolName`
      to the name inside `toolDefine`. */
  lemma {:induction false} NameNotChecked<A, R>(f: A -> R)
    ensures var t := Tool("call_agent", FunctionDefine("greet", JNull, JObj([])), f);
            t.toolName == "call_agent" && DefinedName(t.toolDefine) == Some("greet")
            && t.callToolFunction == f
  {
  }

  /** The example from the class's documentation: a tool wrapping
      `lambda x: f"Hello, {x}"` answers "Hello, Alice" for "Alice". */
  lemma {:induction false} HelloAliceExample(define: Json)
    ensures Tool("call_agent", define, (x: string) => "Hello, " + x).Call("Alice") == "Hello, Alice"
  {
  }
}
