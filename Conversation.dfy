/** The chat history the LLM-backed steps keep: an optional system message
    and the messages added so far. The model keeps the system message apart
    from the list, as `ChatHistory` exposes it through `system_message`; what
    the chat service is sent is `Entries`. */
module Conversation {
  import opened Payload

  datatype Role = System | User | Assistant

  datatype Message = Message(role: Role, content: string)

  datatype ChatHistory = ChatHistory(systemMessage: Option<string>, messages: seq<Message>)

  /** `ChatHistory()` */
  const EmptyHistory: ChatHistory := ChatHistory(None, [])

  /** `ChatHistory(system_message=prompt)` */
  function Seeded(prompt: string): (h: ChatHistory)
    ensures Entries(h) == [Message(System, prompt)]
  {
    ChatHistory(Some(prompt), [])
  }

  /** The conversation as the chat service receives it: the system message,
      if there is one, then the messages in the order they were added. */
  function Entries(h: ChatHistory): (es: seq<Message>)
    ensures |es| == |h.messages| + (if h.systemMessage.Some? then 1 else 0)
    ensures h.systemMessage.Some? ==> es[0] == Message(System, h.systemMessage.value) && es[1..] == h.messages
    ensures h.systemMessage.None? ==> es == h.messages
  {
    (if h.systemMessage.Some? then [Message(System, h.systemMessage.value)] else []) + h.messages
  }

  /** `history.add_user_message(content)`: one user message more at the end,
      and nothing else changes. */
  function AddUserMessage(h: ChatHistory, content: string): (h': ChatHistory)
    ensures h'.systemMessage == h.systemMessage
    ensures Entries(h') == Entries(h) + [Message(User, content)]
  {
    var h' := ChatHistory(h.systemMessage, h.messages + [Message(User, content)]);
    assert Entries(h') == Entries(h) + [Message(User, content)];
    h'
  }
}
