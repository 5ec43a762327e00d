/**
 * The chat controller (`ChatController`): it drives the store, sends messages with a
 * model chosen by a fixed priority chain, and notifies registered listeners.
 */
module Controller {
  import opened JsValues
  import opened Seqs
  import opened Messages
  import opened Conversations
  import opened ChatStore

  /** A registered callback, known only by its identity. */
  type ListenerId = nat

  /** The model name used when nothing else names one. */
  const DEFAULT_MODEL: string := "llama2"

  /** The title of the conversation `initialize()` creates in an empty store. */
  const INITIAL_TITLE: string := "New Chat"

  /**
   * How the awaited model-server call settled: the value it resolved to (possibly
   * undefined), or a thrown error with its `message`.
   */
  datatype Reply = Answered(text: Option<string>) | Failed(message: Option<string>)

  /** What `sendMessage` remembers across the await: the conversation captured at the start, the text and the model. */
  datatype PendingSend = PendingSend(conversation: ConversationModel, text: string, modelToUse: string)

  /**
   * The text of the assistant message: the resolved value as it is (undefined
   * included), or `"Error: "` followed by the error's message (or "Failed to get
   * response" when it has none). Only a thrown error yields a marked bubble.
   */
  function AssistantText(reply: Reply): (t: Option<string>)
    ensures reply.Answered? ==> t == reply.text
    ensures reply.Failed? ==> t.Some? && |t.value| > |"Error: "| && t.value[..|"Error: "|] == "Error: "
    ensures reply.Failed? && Truthy(reply.message) ==> t.Some? && t.value[|"Error: "|..] == reply.message.value
    ensures reply.Failed? && !Truthy(reply.message) ==> t.Some? && t.value[|"Error: "|..] == "Failed to get response"
  {
    match reply
    case Answered(text) => text
    case Failed(message) => Some("Error: " + (if Truthy(message) then message.value else "Failed to get response"))
  }

  /**
   * A generate body without a `response` field (what the server sends with an HTTP
   * error) resolves normally, so the assistant message has no text at all and no
   * "Error: " mark, while an unreachable server gives a text naming the model.
   */
  lemma ErrorBodyGivesBlankReply(modelName: string)
    ensures AssistantText(Answered(SendMessageToOllama(GenerateBody(None), modelName))) == None
    ensures var t := AssistantText(Answered(SendMessageToOllama(GenerateUnreachable, modelName)));
      t.Some? && Mentions(t.value, modelName)
  {
  }

  /**
   * The model a send uses: `currentModel`, else the conversation's `modelId`, else the
   * first available model's name, else "llama2" (each "else" taken on a falsy value).
   */
  function ModelToUse(currentModel: Option<string>, conversationModel: Option<string>, models: seq<ModelInfo>): (m: string)
    ensures Truthy(currentModel) ==> m == currentModel.value
    ensures !Truthy(currentModel) && Truthy(conversationModel) ==> m == conversationModel.value
    ensures !Truthy(currentModel) && !Truthy(conversationModel) ==>
      m == (if |models| > 0 then models[0].name else DEFAULT_MODEL)
  {
    var chosen := Or(Or(currentModel, conversationModel), Some(if |models| > 0 then models[0].name else DEFAULT_MODEL));
    chosen.value
  }

  /** `listeners.filter(listener => listener !== callback)`. */
  function Without(listeners: seq<ListenerId>, callback: ListenerId): (r: seq<ListenerId>)
    ensures callback !in r
    ensures forall x <- listeners :: x != callback ==> x in r
    ensures forall x <- r :: x in listeners
  {
    Filter(listeners, x => x != callback)
  }

  /**
   * Removing a callback drops every occurrence of it, keeps every other listener
   * with its multiplicity, and keeps their relative order.
   */
  lemma RemoveListenerSpec(a: seq<ListenerId>, b: seq<ListenerId>, callback: ListenerId)
    ensures multiset(Without(a, callback)) == multiset(a)[callback := 0]
    ensures Without(a + b, callback) == Without(a, callback) + Without(b, callback)
  {
    forall x ensures multiset(Without(a, callback))[x] == multiset(a)[callback := 0][x] {
      FilterMultiplicity(a, y => y != callback, x);
    }
    FilterConcat(a, b, y => y != callback);
  }

  class ChatController {
    const chatModel: ChatModel
    var listeners: seq<ListenerId>
    var currentModel: Option<string>
    /** Every listener invocation so far, in order: the observable effect of `notifyListeners`. */
    ghost var notified: seq<ListenerId>

    constructor (chatModel: ChatModel)
      ensures this.chatModel == chatModel
      ensures listeners == [] && currentModel == None && notified == []
    {
      this.chatModel := chatModel;
      listeners := [];
      currentModel := None;
      notified := [];
    }

    /** `addListener(callback)`: appends, duplicates included. */
    method AddListener(callback: ListenerId)
      modifies this`listeners
      ensures listeners == old(listeners) + [callback]
    {
      listeners := listeners + [callback];
    }

    /** `removeListener(callback)`: reassigns the filtered list. */
    method RemoveListener(callback: ListenerId)
      modifies this`listeners
      ensures listeners == Without(old(listeners), callback)
    {
      listeners := Without(listeners, callback);
    }

    /** `notifyListeners()`: invokes each registered listener once, in order. */
    method NotifyListeners()
      modifies this`notified
      ensures notified == old(notified) + listeners
    {
      var i := 0;
      while i < |listeners|
        invariant 0 <= i <= |listeners|
        invariant notified == old(notified) + listeners[..i]
      {
        notified := notified + [listeners[i]];
        i := i + 1;
      }
    }

    /**
     * `initialize()`, where `fetched` is what the model listing resolved to and `id`, `now`
     * are the id and clock a conversation created here would get.
     */
    method Initialize(fetched: seq<ModelInfo>, id: string, now: int) returns (ok: bool)
      modifies this`currentModel, this`notified, chatModel
      ensures ok
      ensures chatModel.isInitialized
      ensures old(chatModel.isInitialized) ==>
        chatModel.availableModels == old(chatModel.availableModels) && chatModel.selectedModel == old(chatModel.selectedModel)
      ensures !old(chatModel.isInitialized) ==>
        chatModel.availableModels == fetched &&
        chatModel.selectedModel == SelectionAfterLoad(old(chatModel.selectedModel), fetched)
      ensures currentModel == chatModel.GetSelectedModel()
      ensures old(chatModel.conversations) == [] ==>
        |chatModel.conversations| == 1 &&
        fresh(chatModel.conversations[0]) &&
        chatModel.conversations[0].id == id && chatModel.conversations[0].title == INITIAL_TITLE &&
        chatModel.conversations[0].messages == [] && chatModel.conversations[0].modelId == None &&
        chatModel.conversations[0].createdAt == now &&
        chatModel.activeConversationId == Some(id) &&
        notified == old(notified) + listeners + listeners
      ensures old(chatModel.conversations) != [] ==>
        chatModel.conversations == old(chatModel.conversations) &&
        chatModel.activeConversationId == old(chatModel.activeConversationId) &&
        notified == old(notified) + listeners
      ensures old(chatModel.Consistent()) ==> chatModel.Consistent()
    {
      var _ := chatModel.Initialize(fetched);
      currentModel := chatModel.GetSelectedModel();
      if |chatModel.conversations| == 0 {
        var _ := CreateNewConversation(id, now, INITIAL_TITLE);
      }
      NotifyListeners();
      ok := true;
    }

    /** `createNewConversation(title = "New Conversation", modelId = null)`, then a notification. */
    method CreateNewConversation(id: string, now: int, title: string := "New Conversation", modelId: Option<string> := None)
      returns (c: ConversationModel)
      modifies this`notified, chatModel
      ensures fresh(c)
      ensures c.id == id && c.title == title && c.modelId == modelId && c.messages == [] && c.createdAt == now
      ensures chatModel.conversations == old(chatModel.conversations) + [c]
      ensures chatModel.activeConversationId == Some(id)
      ensures chatModel.availableModels == old(chatModel.availableModels)
      ensures chatModel.selectedModel == old(chatModel.selectedModel)
      ensures chatModel.isInitialized == old(chatModel.isInitialized)
      ensures chatModel.Consistent()
      ensures DistinctIds(chatModel.conversations) <==>
        DistinctIds(old(chatModel.conversations)) && IndexOf(old(chatModel.conversations), id).None?
      ensures IndexOf(old(chatModel.conversations), id).Some? ==>
        chatModel.GetActiveConversation() == old(chatModel.GetConversationById(id)) &&
        chatModel.GetActiveConversation() != Some(c)
      ensures notified == old(notified) + listeners
    {
      c := chatModel.CreateConversation(id, now, title, modelId);
      NotifyListeners();
    }

    /** `setActiveConversation(id)`: the store's unchecked assignment, then a notification. */
    method SetActiveConversation(id: Option<string>) returns (c: Option<ConversationModel>)
      modifies this`notified, chatModel
      ensures chatModel.activeConversationId == id
      ensures c == chatModel.GetActiveConversation()
      ensures chatModel.conversations == old(chatModel.conversations)
      ensures chatModel.availableModels == old(chatModel.availableModels)
      ensures chatModel.selectedModel == old(chatModel.selectedModel)
      ensures chatModel.isInitialized == old(chatModel.isInitialized)
      ensures notified == old(notified) + listeners
    {
      c := chatModel.SetActiveConversation(id);
      NotifyListeners();
    }

    /** `deleteConversation(id)`: the store's removal, then a notification whether or not one happened. */
    method DeleteConversation(id: string) returns (removed: bool)
      modifies this`notified, chatModel
      ensures removed <==> IndexOf(old(chatModel.conversations), id).Some?
      ensures !removed ==>
        chatModel.conversations == old(chatModel.conversations) &&
        chatModel.activeConversationId == old(chatModel.activeConversationId)
      ensures removed ==>
        chatModel.conversations == RemoveAt(old(chatModel.conversations), IndexOf(old(chatModel.conversations), id).value)
      ensures removed && old(chatModel.activeConversationId) == Some(id) ==>
        chatModel.activeConversationId ==
          (if chatModel.conversations != [] then Some(chatModel.conversations[0].id) else None)
      ensures old(chatModel.activeConversationId) != Some(id) ==>
        chatModel.activeConversationId == old(chatModel.activeConversationId)
      ensures chatModel.availableModels == old(chatModel.availableModels)
      ensures chatModel.selectedModel == old(chatModel.selectedModel)
      ensures chatModel.isInitialized == old(chatModel.isInitialized)
      ensures old(chatModel.Consistent()) ==> chatModel.Consistent()
      ensures notified == old(notified) + listeners
    {
      removed := chatModel.DeleteConversation(id);
      NotifyListeners();
    }

    /**
     * The first half of `sendMessage(text)`, up to the await: with no active
     * conversation it returns at once and nothing changes; otherwise it appends the
     * user message (tagged with `currentModel`), notifies, and returns the captured
     * conversation with the model chosen for the reply.
     */
    method BeginSend(text: string, messageId: string, now: int) returns (p: Option<PendingSend>)
      modifies this`notified, chatModel.ActiveSet()`messages
      ensures old(chatModel.GetActiveConversation()).None? ==> p.None? && notified == old(notified)
      ensures old(chatModel.GetActiveConversation()).Some? ==>
        p.Some? && p.value.conversation == old(chatModel.GetActiveConversation()).value &&
        p.value.text == text &&
        p.value.conversation.messages ==
          old(p.value.conversation.messages) + [NewMessage(messageId, Some(text), USER, now, currentModel)] &&
        p.value.modelToUse == ModelToUse(currentModel, p.value.conversation.modelId, chatModel.availableModels) &&
        notified == old(notified) + listeners
    {
      var conversation := chatModel.GetActiveConversation();
      if conversation.None? {
        return None;
      }
      var c := conversation.value;
      var userMessage := NewMessage(messageId, Some(text), USER, now, currentModel);
      c.AddMessage(userMessage);
      NotifyListeners();
      var modelToUse := ModelToUse(currentModel, c.modelId, chatModel.availableModels);
      p := Some(PendingSend(c, text, modelToUse));
    }

    /**
     * The second half of `sendMessage`, after the await settled with `reply`: exactly
     * one assistant message, carrying the model used, is appended to the captured
     * conversation -- whichever conversation is active by then, and whether or not it
     * is still listed.
     */
    method CompleteSend(p: PendingSend, reply: Reply, messageId: string, now: int) returns (m: Message)
      modifies this`notified, p.conversation`messages
      ensures m == NewMessage(messageId, AssistantText(reply), ASSISTANT, now, Some(p.modelToUse))
      ensures p.conversation.messages == old(p.conversation.messages) + [m]
      ensures notified == old(notified) + listeners
    {
      m := NewMessage(messageId, AssistantText(reply), ASSISTANT, now, Some(p.modelToUse));
      p.conversation.AddMessage(m);
      NotifyListeners();
    }

    /**
     * `sendMessage(text)` with nothing interleaved at the await: the active
     * conversation grows by exactly two messages, the user's and then the assistant's.
     */
    method SendMessage(text: string, userId: string, userNow: int, reply: Reply, assistantId: string, assistantNow: int)
      returns (m: Option<Message>)
      modifies this`notified, chatModel.ActiveSet()`messages
      ensures old(chatModel.GetActiveConversation()).None? ==> m.None? && notified == old(notified)
      ensures old(chatModel.GetActiveConversation()).Some? ==>
        var c := old(chatModel.GetActiveConversation()).value;
        var model := ModelToUse(currentModel, c.modelId, chatModel.availableModels);
        m.Some? &&
        m.value == NewMessage(assistantId, AssistantText(reply), ASSISTANT, assistantNow, Some(model)) &&
        c.messages == old(c.messages) + [NewMessage(userId, Some(text), USER, userNow, currentModel), m.value] &&
        |c.messages| == |old(c.messages)| + 2 &&
        KnownSender(c.messages[|c.messages| - 2]) && KnownSender(c.messages[|c.messages| - 1]) &&
        notified == old(notified) + listeners + listeners
    {
      var p := BeginSend(text, userId, userNow);
      if p.None? {
        return None;
      }
      var a := CompleteSend(p.value, reply, assistantId, assistantNow);
      m := Some(a);
    }

    /**
     * `getConversationMessages(conversationId = null)`: the messages of the first
     * conversation whose id is the given one (the active one when the argument is
     * falsy), or the empty list when none matches.
     */
    function GetConversationMessages(conversationId: Option<string> := None): (ms: seq<Message>)
      reads chatModel, chatModel.conversations
      ensures var target := Or(conversationId, chatModel.activeConversationId);
        (forall i :: 0 <= i < |chatModel.conversations| ==> Some(chatModel.conversations[i].id) != target) ==> ms == []
      ensures var target := Or(conversationId, chatModel.activeConversationId);
        forall i :: (0 <= i < |chatModel.conversations| && Some(chatModel.conversations[i].id) == target &&
          forall j :: 0 <= j < i ==> Some(chatModel.conversations[j].id) != target) ==>
          ms == chatModel.conversations[i].messages
    {
      var convId := Or(conversationId, chatModel.activeConversationId);
      if convId.None? then []
      else match chatModel.GetConversationById(convId.value)
        case None => []
        case Some(c) => c.GetMessages()
    }

    /**
     * `setModel(modelId)`: if the store accepts the name, it becomes `currentModel` and
     * the active conversation's `modelId`; if the store rejects it, `currentModel` takes
     * the store's resolved model; either way listeners are notified. If the store throws
     * (a falsy name) nothing changes and nobody is notified.
     */
    method SetModel(modelId: Option<string>)
      modifies this`currentModel, this`notified, chatModel, chatModel.ActiveSet()`modelId
      ensures chatModel.conversations == old(chatModel.conversations)
      ensures chatModel.activeConversationId == old(chatModel.activeConversationId)
      ensures chatModel.availableModels == old(chatModel.availableModels)
      ensures chatModel.isInitialized == old(chatModel.isInitialized)
      ensures !Truthy(modelId) ==>
        currentModel == old(currentModel) && notified == old(notified) &&
        chatModel.selectedModel == old(chatModel.selectedModel) &&
        forall c <- old(chatModel.ActiveSet()) :: c.modelId == old(c.modelId)
      ensures Accepts(chatModel.availableModels, modelId) ==>
        currentModel == modelId && chatModel.selectedModel == modelId &&
        (forall c <- old(chatModel.ActiveSet()) :: c.modelId == modelId) &&
        notified == old(notified) + listeners
      ensures Truthy(modelId) && !Accepts(chatModel.availableModels, modelId) ==>
        currentModel == chatModel.GetSelectedModel() &&
        chatModel.selectedModel ==
          (if Truthy(old(chatModel.selectedModel)) then old(chatModel.selectedModel)
           else Some(chatModel.availableModels[0].name)) &&
        (forall c <- old(chatModel.ActiveSet()) :: c.modelId == old(c.modelId)) &&
        notified == old(notified) + listeners
    {
      var success := chatModel.SetSelectedModel(modelId);
      if success.Err? {
        return;
      }
      if success.value {
        currentModel := modelId;
        var conversation := chatModel.GetActiveConversation();
        if conversation.Some? {
          conversation.value.modelId := modelId;
        }
      } else {
        currentModel := chatModel.GetSelectedModel();
      }
      NotifyListeners();
    }
  }
}
