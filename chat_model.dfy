/**
 * The conversation store (`ChatModel`): the ordered conversation list, the active
 * conversation id, the models reported by the model server and the selected model.
 */
module ChatStore {
  import opened JsValues
  import opened Conversations

  /** A model descriptor from the model-listing endpoint (`{ name, modified_at }`). */
  datatype ModelInfo = ModelInfo(name: string, modifiedAt: int)

  /** What `GET /api/tags` produced: no usable answer, or a JSON body whose `models` field may be absent. */
  datatype TagsResponse = TagsUnreachable | TagsBody(models: Option<seq<ModelInfo>>)

  /**
   * What `POST /api/generate` produced: no usable answer, or a JSON body whose
   * `response` field may be absent (an error body such as `{ "error": ... }`).
   */
  datatype GenerateResponse = GenerateUnreachable | GenerateBody(response: Option<string>)

  /** The model names offered when the model server cannot be reached. */
  const FALLBACK_MODEL_NAMES: seq<string> := ["llama2", "mistral", "gemma"]

  /** True when `sub` occurs in `s` starting at position `i`. */
  predicate OccursAt(s: string, sub: string, i: int) {
    0 <= i <= |s| - |sub| && s[i..i + |sub|] == sub
  }

  /** True when `sub` occurs somewhere inside `s`. */
  predicate Mentions(s: string, sub: string) {
    exists i :: 0 <= i <= |s| && OccursAt(s, sub, i)
  }

  /**
   * `fetchAvailableModels`, given the response of the listing endpoint and the clock:
   * the body's `models` (an absent field reads as the empty list), or the three
   * fallback models stamped with `now` when the server cannot be reached. It never fails.
   */
  function FetchAvailableModels(response: TagsResponse, now: int): (r: seq<ModelInfo>)
    ensures response.TagsBody? && response.models.Some? ==> r == response.models.value
    ensures response.TagsBody? && response.models.None? ==> r == []
    ensures response.TagsUnreachable? ==>
      |r| == |FALLBACK_MODEL_NAMES| &&
      forall i :: 0 <= i < |r| ==> r[i].name == FALLBACK_MODEL_NAMES[i] && r[i].modifiedAt == now
  {
    match response
    case TagsUnreachable => [ModelInfo("llama2", now), ModelInfo("mistral", now), ModelInfo("gemma", now)]
    case TagsBody(models) => if models.Some? then models.value else []
  }

  /**
   * `sendMessageToOllama(text, modelName = "llama2")`, given the generate endpoint's
   * response: the body's `response` field (undefined when the body lacks one), or an
   * apology that names the model when the server cannot be reached. It never rejects.
   */
  function SendMessageToOllama(response: GenerateResponse, modelName: string := "llama2"): (r: Option<string>)
    ensures response.GenerateBody? ==> r == response.response
    ensures response.GenerateUnreachable? ==> r.Some? && Mentions(r.value, modelName) && |r.value| > |modelName|
  {
    match response
    case GenerateBody(text) => text
    case GenerateUnreachable =>
      var prefix := "Sorry, I couldn't connect to the Ollama service. Please make sure Ollama is running on your pc with the ";
      var r := prefix + modelName + " model pulled.";
      assert OccursAt(r, modelName, |prefix|);
      Some(r)
  }

  /** `availableModels.some(model => model.name === name)`. */
  predicate HasModel(models: seq<ModelInfo>, name: string) {
    exists i :: 0 <= i < |models| && models[i].name == name
  }

  /** Whether `setSelectedModel(name)` reports success against the list `models`. */
  predicate Accepts(models: seq<ModelInfo>, name: Option<string>) {
    Truthy(name) && (|models| == 0 || HasModel(models, name.value))
  }

  /** The selection after a successful load of `models`: the first model's name if none was selected. */
  function SelectionAfterLoad(selected: Option<string>, models: seq<ModelInfo>): Option<string> {
    if !Truthy(selected) && |models| > 0 then Some(models[0].name) else selected
  }

  /**
   * `getSelectedModel()`: `selectedModel || availableModels[0]?.name || null`.
   * The result is null or a non-empty name.
   */
  function SelectedModelOf(selected: Option<string>, models: seq<ModelInfo>): (r: Option<string>)
    ensures r.None? || Truthy(r)
    ensures Truthy(selected) ==> r == selected
    ensures !Truthy(selected) && |models| > 0 && models[0].name != "" ==> r == Some(models[0].name)
    ensures r.None? <==> !Truthy(selected) && (|models| == 0 || models[0].name == "")
  {
    Or(Or(selected, if |models| > 0 then Some(models[0].name) else None), None)
  }

  /**
   * Against a given list, filling in the default selection (the first model's name
   * when none is selected) does not change what `getSelectedModel()` returns, so the
   * value the controller reads after `initialize()` does not depend on that step.
   */
  lemma LoadKeepsResolvedModel(selected: Option<string>, models: seq<ModelInfo>)
    ensures SelectedModelOf(SelectionAfterLoad(selected, models), models) == SelectedModelOf(selected, models)
  {
  }

  /** With the server unreachable and nothing selected, loading selects "llama2". */
  lemma UnreachableServerSelectsLlama2(now: int)
    ensures SelectionAfterLoad(None, FetchAvailableModels(TagsUnreachable, now)) == Some("llama2")
    ensures SelectedModelOf(None, FetchAvailableModels(TagsUnreachable, now)) == Some("llama2")
  {
  }

  /**
   * `conversations.findIndex(conv => conv.id === id)`: the position of the FIRST
   * conversation with that id, or none.
   */
  function IndexOf(cs: seq<ConversationModel>, id: string): (r: Option<nat>)
    ensures r.Some? ==> r.value < |cs| && cs[r.value].id == id
    ensures r.Some? ==> forall j :: 0 <= j < r.value ==> cs[j].id != id
    ensures r.None? <==> forall j :: 0 <= j < |cs| ==> cs[j].id != id
  {
    if cs == [] then None
    else if cs[0].id == id then Some(0)
    else match IndexOf(cs[1..], id)
      case None => None
      case Some(k) => Some(k + 1)
  }

  /** `splice(i, 1)`: the list without its `i`-th entry, the others in their order. */
  function RemoveAt(cs: seq<ConversationModel>, i: nat): (r: seq<ConversationModel>)
    requires i < |cs|
    ensures |r| == |cs| - 1
    ensures forall j :: 0 <= j < i ==> r[j] == cs[j]
    ensures forall j :: i <= j < |r| ==> r[j] == cs[j + 1]
  {
    cs[..i] + cs[i + 1..]
  }

  /** No two listed conversations share an id. */
  predicate DistinctIds(cs: seq<ConversationModel>) {
    forall i, j :: 0 <= i < j < |cs| ==> cs[i].id != cs[j].id
  }

  /** The active id names a listed conversation, and is null only when the list is empty. */
  predicate ActiveConsistent(cs: seq<ConversationModel>, active: Option<string>) {
    match active
    case None => cs == []
    case Some(id) => IndexOf(cs, id).Some?
  }

  /** Appending keeps the ids distinct exactly when the new id is fresh. */
  lemma {:induction false} AppendDistinct(cs: seq<ConversationModel>, c: ConversationModel)
    ensures DistinctIds(cs + [c]) <==> DistinctIds(cs) && IndexOf(cs, c.id).None?
  {
    var s := cs + [c];
    if DistinctIds(s) {
      forall j | 0 <= j < |cs| ensures cs[j].id != c.id {
        assert s[j] == cs[j] && s[|cs|] == c;
      }
      forall i, j | 0 <= i < j < |cs| ensures cs[i].id != cs[j].id {
        assert s[i] == cs[i] && s[j] == cs[j];
      }
    }
  }

  /** Looking up an id that was already listed is not affected by appending. */
  lemma {:induction false} AppendKeepsIndex(cs: seq<ConversationModel>, c: ConversationModel, id: string)
    requires IndexOf(cs, id).Some?
    ensures IndexOf(cs + [c], id) == IndexOf(cs, id)
  {
    var s := cs + [c];
    var k := IndexOf(cs, id).value;
    assert s[k] == cs[k];
    forall j | 0 <= j < k ensures s[j].id != id { assert s[j] == cs[j]; }
  }

  /** A fresh id is found at the end after appending. */
  lemma {:induction false} AppendFindsFresh(cs: seq<ConversationModel>, c: ConversationModel)
    requires IndexOf(cs, c.id).None?
    ensures IndexOf(cs + [c], c.id) == Some(|cs|)
  {
    var s := cs + [c];
    forall j | 0 <= j < |cs| ensures s[j].id != c.id { assert s[j] == cs[j]; }
    assert s[|cs|] == c;
  }

  /** Removing one entry keeps the ids distinct, and removes that id altogether. */
  lemma RemoveAtDistinct(cs: seq<ConversationModel>, i: nat)
    requires i < |cs| && DistinctIds(cs)
    ensures DistinctIds(RemoveAt(cs, i))
    ensures IndexOf(RemoveAt(cs, i), cs[i].id).None?
  {
  }

  /** A listed id other than the removed entry's stays listed. */
  lemma {:induction false} RemoveAtKeepsOthers(cs: seq<ConversationModel>, i: nat, id: string)
    requires i < |cs| && IndexOf(cs, id).Some? && cs[i].id != id
    ensures IndexOf(RemoveAt(cs, i), id).Some?
  {
    var k := IndexOf(cs, id).value;
    var r := RemoveAt(cs, i);
    var k' := if k < i then k else k - 1;
    assert r[k'] == cs[k];
  }

  /** The store. Its methods change only its own fields; conversations are changed by the controller. */
  class ChatModel {
    var conversations: seq<ConversationModel>
    var activeConversationId: Option<string>
    var availableModels: seq<ModelInfo>
    var selectedModel: Option<string>
    var isInitialized: bool

    /** The invariant every operation but `setActiveConversation` keeps. */
    predicate Consistent()
      reads this
    {
      ActiveConsistent(conversations, activeConversationId)
    }

    constructor ()
      ensures conversations == [] && activeConversationId == None
      ensures availableModels == [] && selectedModel == None && !isInitialized
      ensures Consistent() && DistinctIds(conversations)
    {
      conversations := [];
      activeConversationId := None;
      availableModels := [];
      selectedModel := None;
      isInitialized := false;
    }

    /**
     * `initialize()`, where `fetched` is what `fetchAvailableModels()` resolved to.
     * A second call returns the cached list and changes nothing.
     */
    method Initialize(fetched: seq<ModelInfo>) returns (models: seq<ModelInfo>)
      modifies this
      ensures conversations == old(conversations) && activeConversationId == old(activeConversationId)
      ensures isInitialized
      ensures old(isInitialized) ==>
        models == old(availableModels) && availableModels == old(availableModels) && selectedModel == old(selectedModel)
      ensures !old(isInitialized) ==>
        models == fetched && availableModels == fetched && selectedModel == SelectionAfterLoad(old(selectedModel), fetched)
      ensures GetSelectedModel() == SelectedModelOf(old(selectedModel), availableModels)
    {
      if isInitialized {
        return availableModels;
      }
      availableModels := fetched;
      if !Truthy(selectedModel) && |fetched| > 0 {
        selectedModel := Some(fetched[0].name);
      }
      isInitialized := true;
      models := fetched;
    }

    /**
     * `createConversation(title = "New Conversation", modelId = null)` with the id
     * `Date.now().toString()` would produce, and the clock, passed in.
     */
    method CreateConversation(id: string, now: int, title: string := "New Conversation", modelId: Option<string> := None)
      returns (c: ConversationModel)
      modifies this
      ensures fresh(c)
      ensures c.id == id && c.title == title && c.modelId == modelId && c.messages == [] && c.createdAt == now
      ensures conversations == old(conversations) + [c]
      ensures activeConversationId == Some(id)
      ensures availableModels == old(availableModels) && selectedModel == old(selectedModel)
      ensures isInitialized == old(isInitialized)
      ensures Consistent()
      ensures DistinctIds(conversations) <==> DistinctIds(old(conversations)) && IndexOf(old(conversations), id).None?
      ensures IndexOf(old(conversations), id).None? ==> GetConversationById(id) == Some(c)
      ensures IndexOf(old(conversations), id).Some? ==>
        GetActiveConversation() == old(GetConversationById(id)) && GetActiveConversation() != Some(c)
    {
      c := new ConversationModel(id, now, title, modelId);
      ghost var before := conversations;
      conversations := conversations + [c];
      activeConversationId := Some(id);
      AppendDistinct(before, c);
      if IndexOf(before, id).None? {
        AppendFindsFresh(before, c);
      } else {
        AppendKeepsIndex(before, c, id);
      }
    }

    /**
     * `getConversationById(id)`: the first listed conversation with that id, or none.
     * It never fails.
     */
    function GetConversationById(id: string): (r: Option<ConversationModel>)
      reads this
      ensures r.None? <==> forall j :: 0 <= j < |conversations| ==> conversations[j].id != id
      ensures r.Some? ==> exists i :: (0 <= i < |conversations| && conversations[i] == r.value &&
        r.value.id == id && forall j :: 0 <= j < i ==> conversations[j].id != id)
    {
      match IndexOf(conversations, id)
      case None => None
      case Some(i) => Some(conversations[i])
    }

    /** `getActiveConversation()`: the lookup applied to the active id; a null id finds nothing. */
    function GetActiveConversation(): (r: Option<ConversationModel>)
      reads this
      ensures activeConversationId.None? ==> r.None?
      ensures activeConversationId.Some? ==> r == GetConversationById(activeConversationId.value)
      ensures Consistent() ==> (r.Some? <==> conversations != [])
      ensures r.Some? ==> r.value in conversations && Some(r.value.id) == activeConversationId
    {
      match activeConversationId
      case None => None
      case Some(id) => GetConversationById(id)
    }

    /** The active conversation as a frame: empty when there is none. */
    function ActiveSet(): set<ConversationModel>
      reads this
    {
      match GetActiveConversation()
      case None => {}
      case Some(c) => {c}
    }

    /** `getAllConversations()`: the list itself. */
    function GetAllConversations(): seq<ConversationModel>
      reads this
    {
      conversations
    }

    /**
     * `setActiveConversation(id)`: stores `id` without checking it and returns the
     * lookup. The store stays consistent exactly when `id` names a listed conversation
     * (or is null while the list is empty).
     */
    method SetActiveConversation(id: Option<string>) returns (c: Option<ConversationModel>)
      modifies this
      ensures activeConversationId == id
      ensures c == GetActiveConversation()
      ensures conversations == old(conversations) && availableModels == old(availableModels)
      ensures selectedModel == old(selectedModel) && isInitialized == old(isInitialized)
      ensures Consistent() <==> (id.None? && conversations == []) || (id.Some? && c.Some?)
    {
      activeConversationId := id;
      c := GetActiveConversation();
    }

    /**
     * `deleteConversation(id)`: removes the first conversation with that id and
     * reports whether one was found. If it was the active one, the first remaining
     * conversation (or null) becomes active.
     */
    method DeleteConversation(id: string) returns (removed: bool)
      modifies this
      ensures removed <==> IndexOf(old(conversations), id).Some?
      ensures !removed ==> conversations == old(conversations) && activeConversationId == old(activeConversationId)
      ensures removed ==> conversations == RemoveAt(old(conversations), IndexOf(old(conversations), id).value)
      ensures removed && old(activeConversationId) == Some(id) ==>
        activeConversationId == (if conversations != [] then Some(conversations[0].id) else None)
      ensures old(activeConversationId) != Some(id) ==> activeConversationId == old(activeConversationId)
      ensures availableModels == old(availableModels) && selectedModel == old(selectedModel)
      ensures isInitialized == old(isInitialized)
      ensures old(Consistent()) ==> Consistent()
      ensures old(DistinctIds(conversations)) ==> DistinctIds(conversations) && IndexOf(conversations, id).None?
    {
      var index := IndexOf(conversations, id);
      if index.None? {
        return false;
      }
      ghost var before := conversations;
      var i := index.value;
      conversations := conversations[..i] + conversations[i + 1..];
      if activeConversationId == Some(id) {
        activeConversationId := if |conversations| > 0 then Some(conversations[0].id) else None;
        if conversations != [] {
          assert IndexOf(conversations, conversations[0].id).Some?;
        }
      } else if activeConversationId.Some? && ActiveConsistent(before, activeConversationId) {
        RemoveAtKeepsOthers(before, i, activeConversationId.value);
      }
      if DistinctIds(before) {
        RemoveAtDistinct(before, i);
      }
      removed := true;
    }

    /**
     * `setSelectedModel(modelName)`: throws on a falsy name; accepts any name while no
     * models are known; otherwise accepts only a listed name. On rejection a set selection
     * is kept, and an unset one falls back to the first model.
     */
    method SetSelectedModel(modelName: Option<string>) returns (r: Result<bool>)
      modifies this
      ensures !Truthy(modelName) ==> r == Err("Model name is required") && selectedModel == old(selectedModel)
      ensures r == Ok(true) <==> Accepts(availableModels, modelName)
      ensures r == Ok(true) ==> selectedModel == modelName && GetSelectedModel() == modelName
      ensures r == Ok(false) <==> Truthy(modelName) && !Accepts(availableModels, modelName)
      ensures r == Ok(false) ==>
        selectedModel == (if Truthy(old(selectedModel)) then old(selectedModel) else Some(availableModels[0].name))
      ensures conversations == old(conversations) && activeConversationId == old(activeConversationId)
      ensures availableModels == old(availableModels) && isInitialized == old(isInitialized)
    {
      if !Truthy(modelName) {
        return Err("Model name is required");
      }
      if |availableModels| == 0 {
        selectedModel := modelName;
        return Ok(true);
      }
      var modelExists := exists i :: 0 <= i < |availableModels| && availableModels[i].name == modelName.value;
      if !modelExists {
        if !Truthy(selectedModel) && |availableModels| > 0 {
          selectedModel := Some(availableModels[0].name);
        }
        return Ok(false);
      }
      selectedModel := modelName;
      r := Ok(true);
    }

    /** `getSelectedModel()`. */
    function GetSelectedModel(): Option<string>
      reads this
    {
      SelectedModelOf(selectedModel, availableModels)
    }
  }
}
