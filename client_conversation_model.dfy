/** The client-side copy of the conversation record. */
module ClientConversations {
  import opened JsValues
  import opened Messages

  /**
   * Like the server-side record, but `title` has no default and `addMessage`
   * returns the message it appended.
   */
  class ConversationModel {
    const id: string
    const title: string
    const createdAt: int
    var modelId: Option<string>
    var messages: seq<Message>

    /** `new ConversationModel(id, title, modelId = null)` with the clock read `now`. */
    constructor (id: string, title: string, now: int, modelId: Option<string> := None)
      ensures this.id == id && this.title == title && this.modelId == modelId
      ensures this.createdAt == now && messages == []
    {
      this.id := id;
      this.title := title;
      this.messages := [];
      this.modelId := modelId;
      this.createdAt := now;
    }

    /** Appends `m` at the end and hands the same message back. */
    method AddMessage(m: Message) returns (r: Message)
      modifies this`messages
      ensures r == m
      ensures messages == old(messages) + [m]
      ensures |messages| == |old(messages)| + 1 && messages[..|old(messages)|] == old(messages)
    {
      messages := messages + [m];
      r := m;
    }

    /** The messages in insertion order (the array itself in the source). */
    function GetMessages(): seq<Message>
      reads this`messages
    {
      messages
    }
  }
}
