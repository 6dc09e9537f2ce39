/**
 * The message types of the chat-completion client library that the
 * application stores and renders (`chatgpt::types::ChatMessage` and
 * `chatgpt::types::Role`).
 */
module Chat {
  import opened Wrappers

  /** Who authored a message. */
  datatype Role = System | User | Assistant

  /** A message; equality is field-wise. */
  datatype ChatMessage = ChatMessage(role: Role, content: string)

  /** `history.last()`: the final message, or None for an empty log. */
  function Last(history: seq<ChatMessage>): (r: Option<ChatMessage>)
    ensures r.None? <==> history == []
  {
    if history == [] then None else Some(history[|history| - 1])
  }
}
