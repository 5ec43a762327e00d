# Ollama-GUI session state, modelled in Dafny

This project models the session-state layer of a browser chat client for a local
Ollama model server. Three parts are modelled. The store (`ChatModel`) holds the
ordered conversation list, the active conversation id, the models the server
reported, the selected model and an "initialised" flag. The controller
(`ChatController`) drives the store, sends messages with a model chosen by a fixed
priority chain, and notifies registered listeners. The records are messages and
both copies of the conversation class. The sidebar's split of conversations into
"today", "yesterday" and "older" is modelled too, as a pure function.

Layout, one module per source file:

- `js_values.dfy` (`JsValues`): nullable values (`Option`), thrown errors (`Result`) and JavaScript truthiness of strings. `null` and `""` are falsy, which drives every `!x` and `a || b` in the source.
- `seqs.dfy` (`Seqs`): `Array.prototype.filter` as `Filter`, with its order and multiplicity lemmas. The listener registry and the sidebar both use it.
- `message_model.dfy` (`Messages`): the `MessageModel` record.
- `conversation_model.dfy` (`Conversations`): the server-side `ConversationModel` class used by the store.
- `client_conversation_model.dfy` (`ClientConversations`): the client-side copy of `ConversationModel`.
- `chat_model.dfy` (`ChatStore`): the `ChatModel` class, plus pure functions for the two model-server calls.
- `chat_controller.dfy` (`Controller`): the `ChatController` class.
- `sidebar.dfy` (`Sidebar`): the date grouping.

How the model represents things:

- Clock readings (`Date.now()`) and the conversation id built from one are parameters. Examples are `now`, `id` and `messageId`.
- The model-server calls are inputs. `ChatModel.Initialize` takes the list the model listing resolved to, as `FetchAvailableModels` computes it. The controller's send takes the settled `Reply`. A reply from `sendMessageToOllama` is `Answered(SendMessageToOllama(response, model))`.
- Conversation `id`, `title` and `createdAt` are `const` fields. So no method can change them, and looking a conversation up by id needs no heap reads.
- Listeners are opaque ids. A ghost field `notified` records every callback invocation, in order. This makes "notifies each listener once, in order" and "does not notify" things a contract can state.
- `sendMessage` has an await point. It is split into `BeginSend` (up to the await) and `CompleteSend` (after it settles). `SendMessage` runs the two back to back. Any other controller call may run between the two halves. `CompleteSend` writes only to the conversation captured in the `PendingSend` and reads nothing from the store.
- Conversation ids are not assumed fresh. `CreateConversation` states that the ids stay distinct exactly when the new id was not already listed.
- The store's consistency predicate `Consistent()` says two things: the active id names a listed conversation, and it is null only when the list is empty. Create and delete preserve it. `setActiveConversation` does not validate its argument, so it keeps the predicate exactly when that argument is listed.

Three behaviours of the code that the model keeps as written:

- `setSelectedModel` throws on an empty name. It does not return a failure flag.
- After an unknown name, an unset (or empty) selection is replaced by the first available model.
- Ignoring blank input happens only in the UI (`src/App.js:56`). `sendMessage` itself appends whatever text it is given.

The controller imports `src/models/MessageModel.js`, which is not part of this model. The record is taken to be the one in `client/src/models/MessageModel.js`.

## Model

| member | source | states |
|---|---|---|
| `Seqs.Filter` | client/src/components/Sidebar.jsx:18-20 | The result holds exactly the input's elements that satisfy the predicate, and is no longer than the input. |
| `Seqs.FilterConcat` | src/controllers/ChatController.js:35 | Filtering a concatenation concatenates the filtered parts, so relative order is preserved. |
| `Seqs.FilterMultiplicity` | src/controllers/ChatController.js:35 | A kept element keeps its full multiplicity. A dropped element occurs zero times. |
| `Messages.NewMessage` | client/src/models/MessageModel.js:2-7 | `id`, `text` and `sender` are stored as given. `modelId` defaults to null. `timestamp` is the clock reading at construction. The sender counts as known exactly when it is "user" or "assistant". |
| `Conversations.ConversationModel.constructor` | src/models/ConversationModel.js:2-8 | The new conversation keeps the given id. Its title defaults to "". Its modelId defaults to null. It has no messages, and `createdAt` is the clock reading. |
| `Conversations.ConversationModel.AddMessage` | src/models/ConversationModel.js:10-12 | The message is appended at the end. The earlier messages and the other fields are unchanged. |
| `ClientConversations.ConversationModel.constructor` | client/src/models/ConversationModel.js:2-8 | The new conversation keeps the given id and title. Its modelId defaults to null. It has no messages, and `createdAt` is the clock reading. |
| `ClientConversations.ConversationModel.AddMessage` | client/src/models/ConversationModel.js:10-13 | The message is appended at the end and returned unchanged. The earlier messages are kept. |
| `ChatStore.FetchAvailableModels` | src/models/ChatModel.js:36-51 | Returns the response's `models`. An absent field gives the empty list. An unreachable server gives the three fallback models, stamped with the clock. It never fails. |
| `ChatStore.SendMessageToOllama` | src/models/ChatModel.js:78-99 | Returns the body's `response` field, which is undefined when the body has none (an HTTP error body). With the server unreachable it returns an apology naming the model. It never rejects. |
| `ChatStore.SelectedModelOf` | src/models/ChatModel.js:148-150 | Returns the selection if it is truthy, else the first model's truthy name, else null. The result is never an empty name. |
| `ChatStore.LoadKeepsResolvedModel` | src/models/ChatModel.js:23-25 | Against the newly loaded list, filling in the default selection does not change what `getSelectedModel` returns. So the controller's `currentModel` after `initialize` does not depend on that step. |
| `ChatStore.UnreachableServerSelectsLlama2` | src/models/ChatModel.js:45-49 | With nothing selected and the server unreachable, loading selects "llama2". |
| `ChatStore.IndexOf` | src/models/ChatModel.js:102 | Returns the position of the first conversation with the id, or none exactly when no conversation has it. |
| `ChatStore.RemoveAt` | src/models/ChatModel.js:104 | The list loses one entry. Entries before it keep their positions, and later ones move up by one. |
| `ChatStore.AppendDistinct` | src/models/ChatModel.js:54-56 | After an append the ids are distinct exactly when they were before and the new id was not listed. |
| `ChatStore.AppendKeepsIndex` | src/models/ChatModel.js:56 | An append does not change where an already listed id is found. |
| `ChatStore.AppendFindsFresh` | src/models/ChatModel.js:56 | After an append, a fresh id is found at the end. |
| `ChatStore.RemoveAtDistinct` | src/models/ChatModel.js:102-104 | If the ids were distinct, removing an entry keeps them distinct and leaves no conversation with the removed id. |
| `ChatStore.RemoveAtKeepsOthers` | src/models/ChatModel.js:104-110 | Removing an entry with a different id keeps a listed id listed. |
| `ChatStore.ChatModel.constructor` | src/models/ChatModel.js:4-10 | The store starts empty: no active id, no models, no selection, not initialised. It is consistent. |
| `ChatStore.ChatModel.Initialize` | src/models/ChatModel.js:12-34 | Once initialised, a call returns the cached models and changes nothing. Otherwise the models become the fetched list and the store is marked initialised. The first model's name is selected only if nothing truthy was selected and the list is non-empty. Conversations are untouched. |
| `ChatStore.ChatModel.CreateConversation` | src/models/ChatModel.js:53-59 | Appends exactly one fresh conversation with the given id, title and modelId, no messages and the clock reading. It becomes active, and earlier entries are untouched. The store stays consistent. Ids stay distinct iff the id was fresh. A fresh id is then found by lookup. |
| `ChatStore.ChatModel.GetConversationById` | src/models/ChatModel.js:61-63 | Returns the first listed conversation with the id, or none exactly when no listed conversation has it. It is a read. |
| `ChatStore.ChatModel.GetActiveConversation` | src/models/ChatModel.js:65-67 | Returns the lookup of the active id. A null id finds nothing. In a consistent store something is found iff the list is non-empty. |
| `ChatStore.ChatModel.SetActiveConversation` | src/models/ChatModel.js:69-72 | Stores the id unconditionally and returns its lookup. Nothing else changes. The store is consistent afterwards iff the id is listed, or is null with an empty list. |
| `ChatStore.ChatModel.DeleteConversation` | src/models/ChatModel.js:101-115 | An absent id gives false and no change. Otherwise the first match is spliced out, the rest keep their order, and the result is true. A deleted active id passes to the first remaining conversation, or null. Otherwise the active id is unchanged. Consistency and id distinctness are preserved. With distinct ids the id is then gone. |
| `ChatStore.ChatModel.SetSelectedModel` | src/models/ChatModel.js:116-147 | A falsy name raises "Model name is required" and changes nothing. With no models known, any truthy name is accepted. Otherwise only a listed name is accepted. Success holds exactly when the name is accepted, and then `getSelectedModel` returns it. On rejection a truthy selection is kept, and a falsy one becomes the first model's name. Conversations are untouched. |
| `Controller.AssistantText` | src/controllers/ChatController.js:100-123 | The resolved value as it is, undefined included. On a thrown error, "Error: " followed by the error's message, or "Failed to get response" when it has none. So an error bubble is never empty. |
| `Controller.ErrorBodyGivesBlankReply` | src/models/ChatModel.js:93-94 | A generate body without a `response` field resolves normally, so the assistant message has no text and no "Error: " mark. An unreachable server gives a text naming the model. |
| `Controller.ModelToUse` | src/controllers/ChatController.js:87-92 | Takes `currentModel`, else the conversation's `modelId`, else the first available model's name, else "llama2". A falsy `currentModel` or `modelId` is skipped. The first model's name is used even when it is empty. |
| `Controller.Without` | src/controllers/ChatController.js:34-36 | The callback no longer occurs. Every other listener is kept, and nothing new appears. |
| `Controller.RemoveListenerSpec` | src/controllers/ChatController.js:34-36 | Removal drops every occurrence of the callback, keeps each other listener with its multiplicity, and keeps their order. |
| `Controller.ChatController.constructor` | src/controllers/ChatController.js:4-8 | No listeners, no current model, nothing notified yet. |
| `Controller.ChatController.AddListener` | src/controllers/ChatController.js:30-32 | The callback is appended. |
| `Controller.ChatController.RemoveListener` | src/controllers/ChatController.js:34-36 | The registry becomes the filtered list. |
| `Controller.ChatController.NotifyListeners` | src/controllers/ChatController.js:38-42 | Each registered listener is invoked once, in registration order. |
| `Controller.ChatController.Initialize` | src/controllers/ChatController.js:10-28 | The store is initialised and `currentModel` equals its `getSelectedModel()`. An empty store gains exactly one active "New Chat" conversation with no messages, and listeners are notified twice. A non-empty store keeps its conversations and active id, and listeners are notified once. The result is true. |
| `Controller.ChatController.CreateNewConversation` | src/controllers/ChatController.js:44-48 | Has the store's creation effect, then notifies once. With an id already listed, the active id resolves to the older conversation, not the new one. |
| `Controller.ChatController.SetActiveConversation` | src/controllers/ChatController.js:50-54 | Has the store's unchecked assignment and lookup, then notifies once. |
| `Controller.ChatController.DeleteConversation` | src/controllers/ChatController.js:126-130 | Has the store's removal and reassignment, then notifies once whether or not anything was removed. |
| `Controller.ChatController.BeginSend` | src/controllers/ChatController.js:68-92 | With no active conversation it returns early, changes nothing and does not notify. Otherwise the user message (sender "user", the text, `currentModel`) is appended to the active conversation before the await, listeners are notified, and the captured conversation and the chosen model are returned. |
| `Controller.ChatController.CompleteSend` | src/controllers/ChatController.js:94-123 | Exactly one assistant message is appended to the captured conversation, whatever is active by then. It carries the resolved text (undefined included) or the error text, and the model used. Listeners are then notified. |
| `Controller.ChatController.SendMessage` | src/controllers/ChatController.js:68-124 | With no active conversation nothing changes. Otherwise the conversation grows by exactly two messages, the user's then the assistant's. Both senders are "user" or "assistant", and listeners are notified twice. |
| `Controller.ChatController.GetConversationMessages` | src/controllers/ChatController.js:132-136 | Returns the messages of the first conversation with the given id, or with the active id when the argument is falsy. The result is empty when none matches. |
| `Controller.ChatController.SetModel` | src/controllers/ChatController.js:138-163 | If the store accepts the name, it becomes `currentModel` and the active conversation's `modelId`. If the store rejects it, `currentModel` becomes the store's resolved model and no conversation changes. Either way listeners are notified. If the store raises, nothing changes and nobody is notified. |
| `Sidebar.GroupConversations` | client/src/components/Sidebar.jsx:14-21 | "Today" holds conversations created at or after midnight. "Yesterday" holds those in the 86400000 ms before midnight. "Older" holds those before that. Every conversation is in some group. |
| `Sidebar.FiltersPartition` | client/src/components/Sidebar.jsx:18-20 | The three filters together hold each conversation exactly as often as the list does. |
| `Sidebar.GroupsPartition` | client/src/components/Sidebar.jsx:17-21 | The groups partition the list, and their sizes sum to its length. |
| `Sidebar.GroupsPreserveOrder` | client/src/components/Sidebar.jsx:18-20 | Each group keeps the list's relative order: grouping a concatenation concatenates the groups. |

`getMessages` (both copies), `getAllConversations` and `getSelectedModel` are plain reads: `GetMessages`, `GetAllConversations` and `GetSelectedModel`. Their values are what the rows above describe. A Dafny function cannot mutate, so "does not mutate" holds by construction.

## Left out

- HTTP: the `fetch` calls to the model server are replaced by their settled results (`TagsResponse`, `GenerateResponse`, `Reply`). The URLs, JSON encoding and status codes are not modelled.
- `ChatStore.ChatModel.Initialize`: its `catch` branch (log, stay uninitialised, rethrow) is not modelled. `fetchAvailableModels` never throws. With typed model descriptors, no step after the await can throw. For the same reason the controller's `initialize` always returns true here.
- The controller's send error branch (src/controllers/ChatController.js:111-120) is reached when the awaited call rejects, which `sendMessageToOllama` itself never does, or when a listener throws inside the `notifyListeners()` at line 108. In the second case the conversation gets a second assistant message, marked "Error: ". Only the first cause is modelled, as `Reply.Failed`.
- An absent `response` or `models` field is modelled. A field of another JSON type (a number as the reply text, a null list entry) cannot be expressed with typed inputs.
- `getActiveConversation`, `getAllConversations` and `getAvailableModels` on the controller are one-line pass-throughs to store fields. Callers read the store directly in the model.
- Aliasing: `getMessages` and `getAllConversations` hand out the live arrays, which callers could mutate. The model returns sequence values.
- Listener callbacks are opaque. What they do when invoked (re-rendering) is not modelled. They are assumed not to throw and not to mutate the store.
- Controller.ChatController.SendMessage: "exactly two messages" holds for listeners that do not throw. A listener throwing at src/controllers/ChatController.js:84 aborts the send after the user message. One throwing at line 108 adds a third message, the error bubble.
- Controller.ChatController.SetModel: a listener throwing at src/controllers/ChatController.js:158 is caught at line 159, after the store and conversation were already updated. This is not modelled.
- async interleaving is modelled only through the `BeginSend`/`CompleteSend` split. There is no scheduler, and two sends to one conversation are not combined into one proof.
- The code has no model-availability polling loop, no request timeout and no backend liveness status, so the model has none either.
- Id generation from `Date.now()` and `new Date().setHours(0, 0, 0, 0)`: ids, clock readings and today's midnight are parameters. Unique ids are not guaranteed; the store states what happens either way. The three fallback model descriptors each read the clock (src/models/ChatModel.js:46-48), so in the code their stamps can differ by a millisecond; the model stamps all three with one `now`.
- Logging (`console.error`, `console.warn`) has no state effect and is omitted.
- React components, hooks, the Express servers (`server/index.js`, `backend/index.js`) and the sidebar's rendering are out of scope.
