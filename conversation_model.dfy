/** The server-side conversation record (`ConversationModel` used by the store). */
module Conversations {
  import opened JsValues
  import opened Messages

  /**
   * An append-only list of messages. `id`, `title` and `createdAt` are set by the
   * constructor and never assigned again; `modelId` is reassigned by the controller.
   */
  class ConversationModel {
    const id: string
    const title: string
    const createdAt: int
    var modelId: Option<string>
    var messages: seq<Message>

    /** `new ConversationModel(id, title = "", modelId = null)` with the clock read `now`. */
    constructor (id: string, now: int, title: string := "", modelId: Option<string> := None)
      ensures this.id == id && this.title == title && this.modelId == modelId
      ensures this.createdAt == now && messages == []
    {
      this.id := id;
      this.title := title;
      this.modelId := modelId;
      this.messages := [];
      this.createdAt := now;
    }

    /** Appends `m` at the end -- the earlier messages and every other field stay as they were. */
    method AddMessage(m: Message)
      modifies this`messages
      ensures messages == old(messages) + [m]
      ensures |messages| == |old(messages)| + 1 && messages[..|old(messages)|] == old(messages)
    {
      messages := messages + [m];
    }

    /** The messages in insertion order (the array itself in the source). */
    function GetMessages(): seq<Message>
      reads this`messages
    {
      messages
    }
  }
}
