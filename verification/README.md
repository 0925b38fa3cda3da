# Chat conversation state machine

A model of the conversation logic of the `Chat` React component of a single-page
chat assistant (`src/Chat.jsx`). The component keeps six state variables:
the active history entry, the message list, the input box, a loading flag, the
last error, and the history list. Its handlers move between two states. In
Idle the user can type, pick a quick action, select a past chat or start a new
one. Sending (button or Enter) appends the user's trimmed text and starts a
backend call, which puts the component in Awaiting. When the call settles it
appends exactly one assistant message, either the reply text or a fixed
apology, and returns to Idle.

Modules:

- `Wrappers`: `Option`, for JavaScript's `null`/`undefined` versus a value.
- `JsText`: `String.prototype.trim` over the ECMAScript whitespace and
  line-terminator characters, and the truthiness of a string field in `a || b`.
- `ChatModel`: messages, history entries, backend outcomes, the state record,
  and every handler as a pure transition (`SendStep`, `ResolveStep`,
  `SelectStep`, `NewChatStep`, `QuickActionStep`, `InputStep`, `KeyPressStep`).
  The welcome-screen predicate is here too. Lemmas state what each transition
  changes and what it leaves alone.
- `ChatSession`: runs of events (user actions and settled backend calls) and
  the invariants along every run. At most one call is outstanding, and the
  loading flag is up exactly while one is. The message list is append-only
  between navigations. The history list never changes.
- `ChatComponent`: the class `ChatState`, whose handlers update the six
  fields one setter at a time. Each handler is proved to reach the state the
  matching `ChatModel` transition describes. It also holds two client
  scenarios: an answered round and a failed one.

The asynchronous `sendMessageToBackend` is split at its `await`. The part up
to the await is `ChatState.BeginSend`, which also covers the synchronous
prefix of `handleSend`. The rest is `ChatState.Resolve(outcome)`. The outcome
is either `Success(responseField, messageField)` (the reply body's two
fields, each possibly absent) or `Failure(errorMessage)` (the thrown error's
message). Timestamps come from the clock in the source, so here they are
parameters.

## Model

| member | source | states |
|---|---|---|
| JsText.IsWhitespace | src/Chat.jsx:116-118 | defines the characters `trim` strips: TAB, VT, FF, ZWNBSP, every space separator, and the line terminators LF, CR, LS and PS |
| JsText.Truthy | src/Chat.jsx:88 | defines when a possibly absent string field is truthy: present and not the empty string |
| JsText.Or | src/Chat.jsx:88 | defines `field \|\| fallback` for such a field: the field when truthy, else the fallback |
| ChatModel.Initial | src/Chat.jsx:13-18 | defines the mount state: no active chat, no messages, empty input, not loading, no error, the seed history |
| ChatModel.SendBlocked | src/Chat.jsx:116 | defines the early-return guard of `handleSend`: the trimmed input is empty or a reply is pending |
| ChatModel.SendStep | src/Chat.jsx:116-128 | defines `handleSend` up to its `await`: unchanged when blocked; otherwise the trimmed input appended as a user message, the input cleared, and (lines 79-80) loading raised and the error cleared |
| ChatModel.ResolveStep | src/Chat.jsx:83-107 | defines the settling of the backend call: one assistant message appended to the current list, the error set to the failure's message on failure and kept on success, loading dropped |
| ChatModel.SelectStep | src/Chat.jsx:141-145 | defines `handleChatSelect`: the chat becomes active, its messages (or none when absent) are shown, the error is cleared |
| ChatModel.NewChatStep | src/Chat.jsx:147-150 | defines `handleNewChat`: no active chat, no messages, no error |
| ChatModel.QuickActionStep | src/Chat.jsx:156-160 | defines `handleQuickAction`: the input becomes the query |
| ChatModel.InputStep | src/Chat.jsx:273 | defines the input box's change handler: the input becomes the typed text |
| ChatModel.KeyPressStep | src/Chat.jsx:134-139 | defines `handleKeyPress`: Enter without Shift performs `SendStep`, any other key changes nothing |
| ChatModel.ShowsWelcome | src/Chat.jsx:317 | defines the welcome condition: no active chat and an empty message list |
| JsText.Trim | src/Chat.jsx:116-118 | `input.trim()`: the result has no whitespace at either end, and it is empty exactly when the input is all whitespace |
| JsText.TrimMargins | src/Chat.jsx:118 | everything `trim` removes is whitespace at the two ends, and what it keeps is one contiguous piece of the input |
| JsText.TrimOfPadded | src/Chat.jsx:118 | the converse: whitespace + a core without whitespace at its ends + whitespace always trims to exactly that core |
| JsText.TrimOfClean | src/Chat.jsx:118 | text with no whitespace at either end is sent unchanged |
| JsText.TrimIdempotent | src/Chat.jsx:118 | the text of a sent user message is already trimmed: trimming it again changes nothing |
| ChatModel.ReplyText | src/Chat.jsx:88 | the assistant's text on success is `response` if that field is non-empty, else `message` if non-empty, else "I received your message."; it is never empty |
| ChatModel.AssistantMessage | src/Chat.jsx:86-103 | a settled call yields one assistant message stamped with the settling time: the fixed apology on failure, the reply text on success |
| ChatModel.SendBlockedMeaning | src/Chat.jsx:116 | the send guard fires exactly when a reply is pending or the input is whitespace only |
| ChatModel.BlockedSendIsNoOp | src/Chat.jsx:116 | when the guard fires, sending changes nothing: messages, input, loading flag, error, active chat, history |
| ChatModel.ValidSendAppendsUserMessage | src/Chat.jsx:116-128 | a send past the guard appends exactly one user message holding the trimmed input, which is non-empty and already trimmed; it clears the input, raises the loading flag and clears the error (lines 79-80); the active chat and history stay the same |
| ChatModel.ResolveAppendsOneAssistantMessage | src/Chat.jsx:83-108 | settling appends exactly one assistant message after the existing ones, always drops the loading flag, records the error message and the apology on failure, leaves the error alone on success, and keeps input, active chat and history |
| ChatModel.SendRoundTrip | src/Chat.jsx:77-132 | from a send past the guard to the call settling, the list grows by exactly two: the user's trimmed text, then the assistant's message; loading is off, the input is empty, and the error is cleared on success or set on failure |
| ChatModel.NewChatResets | src/Chat.jsx:147-150 | a new chat sets the active chat to none, empties the messages and clears the error; input, loading flag and history are kept; the welcome screen shows |
| ChatModel.SelectLoadsChat | src/Chat.jsx:141-145 | selecting a chat makes it active, shows its messages (none when it has no list) and clears the error; nothing else changes; the welcome screen is hidden even for an empty chat |
| ChatModel.QuickActionOnlyFillsInput | src/Chat.jsx:156-160 | a quick action sets the input to the query and changes nothing else: no message is sent |
| ChatModel.SendHidesWelcome | src/Chat.jsx:317 | after a send past the guard the message list is shown, not the welcome screen |
| ChatModel.InitialIsIdleWelcome | src/Chat.jsx:13-18 | the component mounts idle, with no error, an empty input, the seed history, and the welcome screen |
| ChatSession.StepKeepsCycle | src/Chat.jsx:79-116 | each single event keeps "loading exactly while one call is outstanding, and at most one is" |
| ChatSession.AtMostOneOutstanding | src/Chat.jsx:77-132 | along any run in which calls settle only after they start, at most one backend call is outstanding, and the loading flag is up exactly while one is |
| ChatSession.OneOutstandingFromMount | src/Chat.jsx:13-132 | from the mount state, along any run in which calls settle only after they start, at most one backend call is outstanding and the loading flag is up exactly while one is |
| ChatSession.AppendOnlyBetweenNavigations | src/Chat.jsx:93-127 | without selecting or starting a chat, the old message list stays a prefix of the new one, and the list grows by one per call started plus one per call settled |
| ChatSession.HistoryNeverChanges | src/Chat.jsx:65-75 | no event changes the history list (the load that would replace it is commented out) |
| ChatSession.ActiveChatStaysInHistory | src/Chat.jsx:141-145 | when every selected chat comes from the sidebar, the active chat is always an entry of the unchanged history list, so sends and replies never alter a history entry's messages |
| ChatComponent.ChatState.constructor | src/Chat.jsx:13-18 | the initial state: no active chat, no messages, empty input, not loading, no error, the seed history |
| ChatComponent.ChatState.BeginSend | src/Chat.jsx:115-131 | the new state is `SendStep` of the old one, so it is unchanged when blocked; returns the trimmed text passed to the backend, or none when the guard returns early |
| ChatComponent.ChatState.Resolve | src/Chat.jsx:83-108 | the new state is `ResolveStep` of the old one for the given outcome |
| ChatComponent.ChatState.HandleChatSelect | src/Chat.jsx:141-145 | the new state is `SelectStep` of the old one |
| ChatComponent.ChatState.HandleNewChat | src/Chat.jsx:147-154 | the new state is `NewChatStep` of the old one |
| ChatComponent.ChatState.HandleQuickAction | src/Chat.jsx:156-160 | the new state is `QuickActionStep` of the old one |
| ChatComponent.ChatState.HandleInputChange | src/Chat.jsx:273 | the new state is the old one with the typed text as input |
| ChatComponent.ChatState.HandleKeyPress | src/Chat.jsx:134-139 | the new state is `KeyPressStep` of the old one: Enter without Shift sends and any other key does nothing; it returns the trimmed input handed to the backend exactly when the key is Enter without Shift and the guard passes, and none otherwise |
| ChatComponent.AnsweredScenario | src/Chat.jsx:77-132 | quick action with any question that is not all whitespace, send, answer in `response`: the conversation is exactly [trimmed question from user, answer from assistant], not loading, no error |
| ChatComponent.FailedScenario | src/Chat.jsx:94-107 | typed input that is not all whitespace, send, failure: the conversation is exactly [trimmed input from user, apology from assistant], the reason is the error, and a later Enter on blank input starts no backend call and adds nothing |

## Left out

- Rendering: the welcome screen, message list, sidebar, input area and main markup (src/Chat.jsx:166-323), and the presentational components. Only the welcome condition of line 317 is modelled, as `ChatModel.ShowsWelcome`.
- Scrolling, focusing, refs and `preventDefault` (src/Chat.jsx:21-38, 49-51, 136, 151-153): DOM side effects.
- The `disabled` attributes of the input box and send button (src/Chat.jsx:276, 281). The model lets every handler run in every state. The guard in `handleSend` alone keeps a second send out.
- The HTTP gateway (src/services/apiService.js). A call is the abstract `Outcome` handed to `Resolve`. The failure text is whatever the gateway supplies. The choice between the server's `error` field and "Failed to send message" is the gateway's business.
- A reply whose body is `null` makes line 88 throw, so it ends in the catch branch. The model covers that case as a `Failure` whose message is the thrown error's text.
- Reply fields that are non-string values (numbers, objects). The model treats each field as an optional string. JavaScript truthiness then means "present and non-empty".
- The seed data (src/data/mockData.js). The history is any list passed to the constructor.
- `generateChatId` (unused) and `getCurrentTimestamp` (src/Chat.jsx:53-59): clock reads. Timestamps are parameters.
- `loadChatHistory` (src/Chat.jsx:65-75). Its try body is commented out, so the catch branch that would reset the history cannot run. `getChatHistory` and `saveChatSession` are never called.
- The zero-padded history count (src/Chat.jsx:241): display only.
- Async interleaving beyond the split at the `await`. React batches state updates, and handlers read state from the render that created them. The model gives each handler the latest state.
- Discarding a reply that settles after the user switched conversations. The code has no such rule: the setter appends to whatever list is current (src/Chat.jsx:93, 105). The model does the same (`ResolveStep`). `handleNewChat` likewise leaves a pending loading flag up.
- Copying on selection. `handleChatSelect` shares the entry's array rather than copying it. The model works on values. This is equivalent here because every update builds a new list (`[...prev, m]`) and never changes an existing one.
