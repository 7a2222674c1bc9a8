/** The message model shared by the controller, the service and the views (src/types.ts). */
module Types {
  import opened Wrappers

  /** `MessageRole`: who authored a turn. */
  datatype Role = USER | MODEL

  /** A web citation attached to a model turn. */
  datatype Source = Source(uri: string, title: string)

  /** One turn of the conversation; `sources` is the optional `sources?: Source[]`. */
  datatype ChatMessage = ChatMessage(role: Role, text: string, sources: Option<seq<Source>>)

  /** The sentinel text of the pending model turn shown while a reply is awaited. */
  const PlaceholderText: string := "..."

  /** The pending model turn appended by a send. */
  const Placeholder: ChatMessage := ChatMessage(MODEL, PlaceholderText, None)
}
