/** The chat message record (`MessageModel`). */
module Messages {
  import opened JsValues

  /** The two senders the doc comment allows. */
  const USER: string := "user"
  const ASSISTANT: string := "assistant"

  /**
   * One chat message. `text` is stored as given and may be undefined (an assistant
   * reply whose body had no `response`); `timestamp` is the clock value read once at
   * construction; `modelId` names the model that responded, or is null.
   */
  datatype Message = Message(id: string, text: Option<string>, sender: string, timestamp: int, modelId: Option<string>)

  /** The doc comment's promise about `sender`. */
  predicate KnownSender(m: Message) {
    m.sender == USER || m.sender == ASSISTANT
  }

  /**
   * `new MessageModel(id, text, sender, modelId = null)` with the clock read `now`:
   * the arguments are stored as given and `modelId` defaults to null.
   */
  function NewMessage(id: string, text: Option<string>, sender: string, now: int, modelId: Option<string> := None): (m: Message)
    ensures m.id == id && m.text == text && m.sender == sender
    ensures m.timestamp == now && m.modelId == modelId
    ensures KnownSender(m) <==> sender == USER || sender == ASSISTANT
  {
    Message(id, text, sender, now, modelId)
  }
}
