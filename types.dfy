/**
 * The shared protocol: messages, tool calls, tool definitions, chat
 * requests and responses.
 */
module Types {
  import opened Wrappers
  import opened Json

  /** A request from the model to run one tool; `arguments` is JSON text.
      The `type` field is always "function" and is left implicit. */
  datatype ToolCall = ToolCall(id: string, name: string, arguments: string)

  /** The JSON-Schema-like parameter description of a tool. */
  datatype ToolParameters = ToolParameters(properties: map<string, Json>, required: Option<seq<string>>)

  /** What a tool advertises to the model. */
  datatype ToolDefinition = ToolDefinition(name: string, description: string, parameters: ToolParameters)

  /** A conversation message, one constructor per role. `System` is the role
      the agent writes in front of the history. */
  datatype Message =
    | User(content: string)
    | Assistant(content: string, toolCalls: Option<seq<ToolCall>>)
    | Tool(content: string, toolCallId: string, name: string)
    | System(content: string)

  /** The `role` discriminant of a message. */
  function Role(m: Message): string {
    match m
    case User(_) => "user"
    case Assistant(_, _) => "assistant"
    case Tool(_, _, _) => "tool"
    case System(_) => "system"
  }

  datatype ChatRequest = ChatRequest(
    messages: seq<Message>,
    tools: Option<seq<ToolDefinition>>,
    model: Option<string>,
    temperature: Option<real>,
    maxTokens: Option<int>)

  /** A provider's reply: one assistant message and a finish reason. */
  datatype ChatResponse = ChatResponse(content: string, toolCalls: Option<seq<ToolCall>>, finishReason: string) {
    function Message(): Message {
      Assistant(content, toolCalls)
    }
  }

  /** `m` is an assistant message that issued a tool call with identifier `id`. */
  predicate Issues(m: Message, id: string) {
    m.Assistant? && m.toolCalls.Some? && exists c | c in m.toolCalls.value :: c.id == id
  }

  /** Every `tool` message answers a call issued by an earlier assistant message. */
  predicate ToolResultsLinked(h: seq<Message>) {
    forall k | 0 <= k < |h| && h[k].Tool? :: exists j | 0 <= j < k :: Issues(h[j], h[k].toolCallId)
  }
}
