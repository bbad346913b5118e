/** The record shapes of the chat client (src/types.ts). */
module Types {

  datatype Option<+T> = None | Some(value: T)

  /** Who wrote a message: exactly one of the three roles. */
  datatype Role = User | Assistant | System

  /** One chat message; the timestamp is milliseconds since the epoch. */
  datatype Message = Message(id: string, role: Role, content: string, timestamp: int)

  /** A conversation: its messages in the order they were appended. */
  datatype Conversation = Conversation(
    id: string,
    title: string,
    model: string,
    messages: seq<Message>,
    createdAt: int,
    updatedAt: int)

  /** The whole session state held by the application component. */
  datatype ChatState = ChatState(
    conversations: seq<Conversation>,
    currentConversationId: Option<string>,
    isLoading: bool,
    error: Option<string>)

  /** Display metadata of a selectable model (reference data only). */
  datatype Model = Model(id: string, name: string, description: string, contextLength: string)

  /** The body of a generation reply; only `response` is consumed. */
  datatype OllamaResponse = OllamaResponse(model: string, createdAt: string, response: string, done: bool)
}
