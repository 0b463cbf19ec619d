/** The transcript entities shared by the UI (types.ts). */
module Types {

  /** Who wrote a displayed message. */
  datatype Sender = User | Gemini

  /** One entry of the displayed transcript: an opaque id, its author and its text. */
  datatype Message = Message(id: string, sender: Sender, text: string)
}
