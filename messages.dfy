/** The chat message dictionaries that the client sends to the completion
    service and keeps in the session history: `{"role", "content"}`, plus
    `tool_calls` on an assistant turn that asks for tools and `tool_call_id`
    on a tool result. */
module Messages {
  import opened Wrappers

  datatype Role = System | User | Assistant | Tool

  /** The role as the string the dictionaries carry. */
  function RoleName(r: Role): string
  {
    match r
    case System => "system"
    case User => "user"
    case Assistant => "assistant"
    case Tool => "tool"
  }

  /** A complete tool call `{"id", "type", "function": {"name", "arguments"}}`;
      `arguments` is JSON text that the executor parses. */
  datatype ToolCall = ToolCall(id: string, callType: string, name: string, arguments: string)

  /** A message dictionary; absent keys are `None` / `[]`. */
  datatype Message = Message(role: Role, content: Option<string>, toolCalls: seq<ToolCall>, toolCallId: Option<string>)

  /** `{"role": "user", "content": text}` and its siblings. */
  function Plain(role: Role, text: string): Message
  {
    Message(role, Some(text), [], None)
  }

  /** `f"{m['content']}"`: Python renders a missing content as `None`. */
  function ContentText(m: Message): string
  {
    match m.content
    case Some(t) => t
    case None => "None"
  }
}
