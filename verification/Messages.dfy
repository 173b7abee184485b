/** Chat messages, api/types.go, and their token estimates, agent/compactor.go. */
module Messages {
  import opened Text
  import opened Truncation

  /** args is the text that the JSON form of the arguments has. */
  datatype ToolCall = ToolCall(id: string, name: Phrase, args: string)

  /** The role of a message: one of the four that mean something, or any other text. */
  datatype Role = System | User | Assistant | Tool | Other(name: string)

  function RoleName(role: Role): string {
    match role
    case System => "system"
    case User => "user"
    case Assistant => "assistant"
    case Tool => "tool"
    case Other(name) => name
  }

  datatype Message = Message(
    role: Role,
    content: string,
    thinking: string,
    toolCalls: seq<ToolCall>,
    toolName: string,
    toolCallID: string)

  function UserMessage(content: string): Message {
    Message(User, content, "", [], "", "")
  }

  function ToolResultMessage(toolName: string, toolCallID: string, content: string): Message {
    Message(Tool, content, "", [], toolName, toolCallID)
  }

  predicate MessageEmpty(m: Message) {
    m.content == "" && m.thinking == "" && m.toolCalls == []
  }

  function CallsTokens(calls: seq<ToolCall>): nat {
    if calls == [] then 0
    else TextTokens(calls[0].name) + TextTokens(calls[0].args) + CallsTokens(calls[1..])
  }

  function MessageTokens(m: Message): nat {
    TextTokens(RoleName(m.role)) + TextTokens(m.content) + TextTokens(m.thinking)
    + TextTokens(m.toolName) + TextTokens(m.toolCallID) + CallsTokens(m.toolCalls)
  }

  function MessagesTokens(messages: seq<Message>): nat {
    if messages == [] then 0 else MessageTokens(messages[0]) + MessagesTokens(messages[1..])
  }

  lemma {:induction false} MessagesTokensOfConcat(a: seq<Message>, b: seq<Message>)
    ensures MessagesTokens(a + b) == MessagesTokens(a) + MessagesTokens(b)
  {
    if a == [] {
      assert a + b == b;
    } else {
      assert (a + b)[1..] == a[1..] + b;
      MessagesTokensOfConcat(a[1..], b);
    }
  }

  lemma {:induction false} MessagesTokensOfAppend(a: seq<Message>, m: Message)
    ensures MessagesTokens(a + [m]) == MessagesTokens(a) + MessageTokens(m)
  {
    MessagesTokensOfConcat(a, [m]);
    assert MessagesTokens([m]) == MessageTokens(m);
  }
}
