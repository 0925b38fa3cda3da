/**
 * The conversation state of the `Chat` component and its transitions, as pure
 * functions from one state to the next. The class in ChatComponent performs the
 * same transitions in place and is proved against these functions.
 */
module ChatModel {
  import opened Wrappers
  import opened JsText

  datatype Sender = User | Assistant

  /** An ISO-8601 time stamp; it comes from the clock, so the model takes it as a parameter. */
  type Timestamp = string

  datatype Message = Message(text: string, sender: Sender, timestamp: Timestamp)

  /** A history entry; its `messages` may be absent, and selecting it then shows none. */
  datatype Chat = Chat(id: int, title: string, subtitle: string, date: string,
                       messages: Option<seq<Message>>)

  /**
   * How the awaited backend call settles: a reply body with its (possibly absent)
   * `response` and `message` fields, or a thrown error carrying its `message`.
   */
  datatype Outcome =
    | Success(responseField: Option<string>, messageField: Option<string>)
    | Failure(errorMessage: string)

  /** The component's six state variables. `error` is `None` for JavaScript's `null`. */
  datatype Store = Store(activeChat: Option<Chat>, messages: seq<Message>, input: string,
                         isLoading: bool, error: Option<string>, chatHistory: seq<Chat>)

  const DefaultReply: string := "I received your message."
  const Apology: string := "Sorry, I'm having trouble connecting right now. Please try again."

  /** The state the component mounts with; `history` is the seed history list. */
  function Initial(history: seq<Chat>): Store {
    Store(None, [], "", false, None, history)
  }

  /** The guard of `handleSend`: nothing to send, or a reply is still pending. */
  predicate SendBlocked(input: string, isLoading: bool) {
    Trim(input) == "" || isLoading
  }

  /** The assistant's text on success: `response.response || response.message || DefaultReply`. */
  function ReplyText(responseField: Option<string>, messageField: Option<string>): (r: string)
    ensures r != ""
    ensures Truthy(responseField) ==> r == responseField.value
    ensures !Truthy(responseField) && Truthy(messageField) ==> r == messageField.value
    ensures !Truthy(responseField) && !Truthy(messageField) ==> r == DefaultReply
  {
    Or(responseField, Or(messageField, DefaultReply))
  }

  /** The one assistant message a settled backend call produces. */
  function AssistantMessage(outcome: Outcome, now: Timestamp): (m: Message)
    ensures m.sender == Assistant && m.timestamp == now && m.text != ""
    ensures outcome.Failure? ==> m.text == Apology
    ensures outcome.Success? ==> m.text == ReplyText(outcome.responseField, outcome.messageField)
  {
    match outcome
    case Success(responseField, messageField) =>
      Message(ReplyText(responseField, messageField), Assistant, now)
    case Failure(_) =>
      Message(Apology, Assistant, now)
  }

  /**
   * `handleSend` up to its `await`, including the synchronous start of
   * `sendMessageToBackend`: a guarded no-op, or the user message appended, the input
   * cleared, the loading flag raised and the error cleared.
   */
  function SendStep(s: Store, now: Timestamp): Store {
    if SendBlocked(s.input, s.isLoading) then s
    else s.(messages := s.messages + [Message(Trim(s.input), User, now)],
            input := "", isLoading := true, error := None)
  }

  /**
   * The rest of `sendMessageToBackend` once the call settles: one assistant message
   * appended to whatever list is current, the error recorded on failure, and the
   * loading flag dropped in every case.
   */
  function ResolveStep(s: Store, outcome: Outcome, now: Timestamp): Store {
    s.(messages := s.messages + [AssistantMessage(outcome, now)],
       isLoading := false,
       error := if outcome.Failure? then Some(outcome.errorMessage) else s.error)
  }

  /** `handleChatSelect(chat)`. */
  function SelectStep(s: Store, chat: Chat): Store {
    s.(activeChat := Some(chat), messages := chat.messages.GetOr([]), error := None)
  }

  /** `handleNewChat`. */
  function NewChatStep(s: Store): Store {
    s.(activeChat := None, messages := [], error := None)
  }

  /** `handleQuickAction(query)`: fills the input box, sends nothing. */
  function QuickActionStep(s: Store, query: string): Store {
    s.(input := query)
  }

  /** The input box's change handler. */
  function InputStep(s: Store, text: string): Store {
    s.(input := text)
  }

  /** Enter without Shift submits; every other key leaves the state alone. */
  predicate IsSubmitKey(key: string, shift: bool) {
    key == "Enter" && !shift
  }

  /** `handleKeyPress`. */
  function KeyPressStep(s: Store, key: string, shift: bool, now: Timestamp): Store {
    if IsSubmitKey(key, shift) then SendStep(s, now) else s
  }

  /** The welcome screen replaces the message list when no chat is active and there are no messages. */
  predicate ShowsWelcome(s: Store) {
    s.activeChat.None? && |s.messages| == 0
  }

  // ---------------------------------------------------------------------------
  // Properties of single transitions
  // ---------------------------------------------------------------------------

  /** The guard fires exactly when a reply is pending or the input is whitespace only. */
  lemma SendBlockedMeaning(input: string, isLoading: bool)
    ensures SendBlocked(input, isLoading) <==> isLoading || AllWhitespace(input)
  {
  }

  /** With a reply pending or only whitespace typed, a send changes nothing at all. */
  lemma BlockedSendIsNoOp(s: Store, now: Timestamp)
    requires s.isLoading || AllWhitespace(s.input)
    ensures SendStep(s, now) == s
  {
  }

  /**
   * A send that passes the guard appends exactly the trimmed input as a user message,
   * which is non-empty and has no surrounding whitespace, and enters the awaiting state.
   */
  lemma ValidSendAppendsUserMessage(s: Store, now: Timestamp)
    requires !SendBlocked(s.input, s.isLoading)
    ensures var t := SendStep(s, now);
      && t.messages == s.messages + [Message(Trim(s.input), User, now)]
      && t.messages[|s.messages|].text != ""
      && Trim(t.messages[|s.messages|].text) == t.messages[|s.messages|].text
      && t.input == "" && t.isLoading && t.error == None
      && t.activeChat == s.activeChat && t.chatHistory == s.chatHistory
  {
  }

  /**
   * Settling appends exactly one assistant message, always ends the wait, records the
   * error only on failure, and leaves the input, the active chat and the history alone.
   */
  lemma ResolveAppendsOneAssistantMessage(s: Store, outcome: Outcome, now: Timestamp)
    ensures var t := ResolveStep(s, outcome, now);
      && |t.messages| == |s.messages| + 1
      && t.messages[..|s.messages|] == s.messages
      && t.messages[|s.messages|].sender == Assistant
      && !t.isLoading
      && (outcome.Failure? ==> t.error == Some(outcome.errorMessage)
                               && t.messages[|s.messages|].text == Apology)
      && (outcome.Success? ==> t.error == s.error)
      && t.input == s.input && t.activeChat == s.activeChat && t.chatHistory == s.chatHistory
  {
  }

  /**
   * One full round from the idle state: the list grows by exactly two, the user's
   * trimmed text followed by the assistant's reply, and the wait is over.
   */
  lemma SendRoundTrip(s: Store, outcome: Outcome, sent: Timestamp, settled: Timestamp)
    requires !SendBlocked(s.input, s.isLoading)
    ensures var t := ResolveStep(SendStep(s, sent), outcome, settled);
      && t.messages == s.messages + [Message(Trim(s.input), User, sent),
                                     AssistantMessage(outcome, settled)]
      && !t.isLoading && t.input == ""
      && (outcome.Success? ==> t.error == None)
      && (outcome.Failure? ==> t.error == Some(outcome.errorMessage))
  {
  }

  /** A new chat empties the conversation and shows the welcome screen; a pending wait survives it. */
  lemma NewChatResets(s: Store)
    ensures var t := NewChatStep(s);
      && t.activeChat == None && t.messages == [] && t.error == None
      && t.input == s.input && t.isLoading == s.isLoading && t.chatHistory == s.chatHistory
      && ShowsWelcome(t)
  {
  }

  /**
   * Selecting a chat shows its messages (none when it has no list), clears the error,
   * changes nothing else, and never shows the welcome screen, even for an empty chat.
   */
  lemma SelectLoadsChat(s: Store, chat: Chat)
    ensures var t := SelectStep(s, chat);
      && t.activeChat == Some(chat)
      && (chat.messages.Some? ==> t.messages == chat.messages.value)
      && (chat.messages.None? ==> t.messages == [])
      && t.error == None
      && t.input == s.input && t.isLoading == s.isLoading && t.chatHistory == s.chatHistory
      && !ShowsWelcome(t)
  {
  }

  /** A quick action only fills the input: no message is sent and nothing else moves. */
  lemma QuickActionOnlyFillsInput(s: Store, query: string)
    ensures var t := QuickActionStep(s, query);
      && t.input == query && t.messages == s.messages && t.isLoading == s.isLoading
      && t.error == s.error && t.activeChat == s.activeChat && t.chatHistory == s.chatHistory
  {
  }

  /** After a send that passes the guard the conversation is on screen, not the welcome. */
  lemma SendHidesWelcome(s: Store, now: Timestamp)
    requires !SendBlocked(s.input, s.isLoading)
    ensures !ShowsWelcome(SendStep(s, now))
  {
  }

  /** The component starts idle, on the welcome screen, with the seed history. */
  lemma InitialIsIdleWelcome(history: seq<Chat>)
    ensures var s := Initial(history);
      && !s.isLoading && s.error == None && s.input == "" && ShowsWelcome(s)
      && s.chatHistory == history
  {
  }
}
