/** The chat-completion vocabulary shared by the request assembly and the
    tool-calling loop: conversation messages, the model's replies with their
    tool calls, the request sent to the LLM API, and the API itself as an
    oracle. */
module Chat {
  import opened Wrappers
  import opened Json
  import McpManager

  /** A tool call as the model returns it; `arguments` is raw JSON text. */
  datatype ToolCall = ToolCall(id: string, name: string, arguments: string)

  /** The message of an API reply. A missing and an empty `tool_calls` both
      read as no calls. */
  datatype Reply = Reply(content: Option<string>, toolCalls: seq<ToolCall>)

  datatype UserContent = Text(text: string) | TextAndImage(text: string, imageUrl: string)

  /** One conversation message, by role. `Assistant` is a plain reply;
      `AssistantCalls` is the message that carries tool calls. */
  datatype Message =
    | System(prompt: string)
    | User(turn: UserContent)
    | Assistant(reply: string)
    | AssistantCalls(callsContent: Option<string>, calls: seq<ToolCall>)
    | ToolResult(toolCallId: string, name: string, result: string)

  /** The arguments of one chat-completion call. */
  datatype Request = Request(
    model: Json,
    messages: seq<Message>,
    maxTokens: Option<int>,
    tools: Option<seq<McpManager.FunctionTool>>,
    toolChoice: Option<string>)

  /** The API's answer: a reply message, or an exception of the named class. */
  datatype ApiResponse = Answered(message: Reply) | ApiError(kind: string, error: string)

  /** The LLM API: the n-th call of one request's processing, with its
      arguments, gets this answer (the index lets a retry of the same request
      be answered differently). */
  type Api = (nat, Request) -> ApiResponse

  /** `tool_choice`: "auto" when the tools list is present and non-empty. */
  function ToolChoice(tools: Option<seq<McpManager.FunctionTool>>): (choice: Option<string>)
    ensures choice.Some? <==> tools.Some? && tools.value != []
    ensures choice.Some? ==> choice.value == "auto"
  {
    if tools.Some? && tools.value != [] then Some("auto") else None
  }

  /** A call with the given conversation and the loop's fixed settings. */
  function RequestOf(model: Json, messages: seq<Message>, maxTokens: Option<int>,
                     tools: Option<seq<McpManager.FunctionTool>>): Request
  {
    Request(model, messages, maxTokens, tools, ToolChoice(tools))
  }
}
