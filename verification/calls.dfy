/** What an agent's reply carries: free text, or a list of tool calls whose
    arguments are JSON-like values extracted by the language model. */
module Calls {

  /** An argument value as the model extracted it. `Null` is Python's `None`;
      `Other` stands for numbers, booleans and objects, which no tool of the
      core looks inside. */
  datatype Value =
    | Null
    | Str(s: string)
    | List(items: seq<Value>)
    | Other

  type Args = map<string, Value>

  /** One entry of `agent_response.tool_calls`: the tool name and its
      argument map. */
  datatype ToolCall = ToolCall(name: string, args: Args)

  /** An agent's reply: its text content and its (possibly empty) list of
      tool calls. */
  datatype AgentReply = AgentReply(content: string, toolCalls: seq<ToolCall>)

  /** The value of argument `key`, with a missing argument read as `None`, as
      a Python keyword argument with default `None` reads it. */
  function ArgOrNull(args: Args, key: string): Value
  {
    if key in args then args[key] else Null
  }
}
