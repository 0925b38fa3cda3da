/**
 * The `Chat` component as an object whose handlers update its state variables one
 * setter at a time. Each handler is proved to produce the state the corresponding
 * transition of ChatModel describes; the properties live with those transitions.
 */
module ChatComponent {
  import opened Wrappers
  import opened JsText
  import opened ChatModel

  class ChatState {
    var activeChat: Option<Chat>
    var messages: seq<Message>
    var input: string
    var isLoading: bool
    var error: Option<string>
    var chatHistory: seq<Chat>

    /** The current values of the six state variables. */
    function View(): Store
      reads this
    {
      Store(activeChat, messages, input, isLoading, error, chatHistory)
    }

    /** Mounting: the seed history, everything else empty. */
    constructor (history: seq<Chat>)
      ensures View() == Initial(history)
    {
      activeChat := None;
      messages := [];
      input := "";
      isLoading := false;
      error := None;
      chatHistory := history;
    }

    /**
     * `handleSend` up to the `await` of the backend call, with the first two setters of
     * `sendMessageToBackend`. Returns the text handed to the backend, or `None` when the
     * guard returns early and no call is made.
     */
    method BeginSend(now: Timestamp) returns (dispatched: Option<string>)
      modifies this
      ensures View() == SendStep(old(View()), now)
      ensures dispatched == if SendBlocked(old(input), old(isLoading)) then None
                            else Some(Trim(old(input)))
    {
      if Trim(input) == "" || isLoading {
        return None;
      }
      var messageText := Trim(input);
      var userMessage := Message(messageText, User, now);
      messages := messages + [userMessage];
      input := "";
      isLoading := true;
      error := None;
      dispatched := Some(messageText);
    }

    /** The continuation of `sendMessageToBackend` after the backend call settles. */
    method Resolve(outcome: Outcome, now: Timestamp)
      modifies this
      ensures View() == ResolveStep(old(View()), outcome, now)
    {
      match outcome {
        case Success(responseField, messageField) =>
          var assistantMessage := Message(ReplyText(responseField, messageField), Assistant, now);
          messages := messages + [assistantMessage];
        case Failure(errorMessage) =>
          error := Some(errorMessage);
          var errorMessageToUser := Message(Apology, Assistant, now);
          messages := messages + [errorMessageToUser];
      }
      isLoading := false;
    }

    method HandleChatSelect(chat: Chat)
      modifies this
      ensures View() == SelectStep(old(View()), chat)
    {
      activeChat := Some(chat);
      messages := chat.messages.GetOr([]);
      error := None;
    }

    method HandleNewChat()
      modifies this
      ensures View() == NewChatStep(old(View()))
    {
      activeChat := None;
      messages := [];
      error := None;
    }

    method HandleQuickAction(query: string)
      modifies this
      ensures View() == QuickActionStep(old(View()), query)
    {
      input := query;
    }

    method HandleInputChange(text: string)
      modifies this
      ensures View() == InputStep(old(View()), text)
    {
      input := text;
    }

    /** Enter without Shift sends; the result is what `BeginSend` handed to the backend. */
    method HandleKeyPress(key: string, shift: bool, now: Timestamp) returns (dispatched: Option<string>)
      modifies this
      ensures View() == KeyPressStep(old(View()), key, shift, now)
      ensures dispatched == if IsSubmitKey(key, shift) && !SendBlocked(old(input), old(isLoading))
                            then Some(Trim(old(input))) else None
    {
      dispatched := None;
      if key == "Enter" && !shift {
        dispatched := BeginSend(now);
      }
    }
  }

  /**
   * A quick action fills the box with a question, the user sends it, and the backend
   * answers with a non-empty `response` field: the conversation then holds exactly the
   * trimmed question and the answer, in that order, and no error is shown.
   */
  method AnsweredScenario(history: seq<Chat>, question: string, answer: string,
                          sent: Timestamp, settled: Timestamp)
    returns (transcript: seq<Message>, loading: bool, shown: Option<string>)
    requires !AllWhitespace(question)
    requires answer != ""
    ensures transcript == [Message(Trim(question), User, sent), Message(answer, Assistant, settled)]
    ensures !loading && shown == None
  {
    var chat := new ChatState(history);
    chat.HandleQuickAction(question);
    var call := chat.BeginSend(sent);
    chat.Resolve(Success(Some(answer), None), settled);
    transcript, loading, shown := chat.messages, chat.isLoading, chat.error;
  }

  /**
   * Typed text padded with whitespace is sent trimmed; the backend call fails, so the
   * reason is shown and the apology follows the user's message; a later Enter on blank
   * input starts nothing.
   */
  method FailedScenario(history: seq<Chat>, typed: string, reason: string, blank: string,
                        sent: Timestamp, settled: Timestamp)
    returns (transcript: seq<Message>, loading: bool, shown: Option<string>, ignored: Option<string>)
    requires !AllWhitespace(typed)
    requires AllWhitespace(blank)
    ensures transcript == [Message(Trim(typed), User, sent), Message(Apology, Assistant, settled)]
    ensures !loading && shown == Some(reason)
    ensures ignored == None
  {
    var chat := new ChatState(history);
    chat.HandleInputChange(typed);
    var call := chat.BeginSend(sent);
    chat.Resolve(Failure(reason), settled);
    chat.HandleInputChange(blank);
    ignored := chat.HandleKeyPress("Enter", false, settled);
    transcript, loading, shown := chat.messages, chat.isLoading, chat.error;
  }
}
