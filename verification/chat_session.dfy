/**
 * Runs of the component: the user's actions and the settling of backend calls as a
 * sequence of events, and the invariants that hold along every run.
 */
module ChatSession {
  import opened Wrappers
  import opened ChatModel

  datatype Event =
    | Send(at: Timestamp)                          // the send button
    | KeyPress(key: string, shift: bool, at: Timestamp)
    | Settle(outcome: Outcome, at: Timestamp)      // an awaited backend call completes
    | SelectChat(chat: Chat)
    | NewChat
    | QuickAction(query: string)
    | InputChange(text: string)

  function Step(s: Store, e: Event): Store {
    match e
    case Send(at) => SendStep(s, at)
    case KeyPress(key, shift, at) => KeyPressStep(s, key, shift, at)
    case Settle(outcome, at) => ResolveStep(s, outcome, at)
    case SelectChat(chat) => SelectStep(s, chat)
    case NewChat => NewChatStep(s)
    case QuickAction(query) => QuickActionStep(s, query)
    case InputChange(text) => InputStep(s, text)
  }

  function Run(s: Store, es: seq<Event>): Store
    decreases |es|
  {
    if es == [] then s else Run(Step(s, es[0]), es[1..])
  }

  /** 1 when `e` in state `s` starts a backend call, 0 otherwise. */
  function Dispatches(s: Store, e: Event): nat {
    match e
    case Send(_) => if SendBlocked(s.input, s.isLoading) then 0 else 1
    case KeyPress(key, shift, _) =>
      if IsSubmitKey(key, shift) && !SendBlocked(s.input, s.isLoading) then 1 else 0
    case _ => 0
  }

  function Settles(e: Event): nat {
    if e.Settle? then 1 else 0
  }

  /** The number of backend calls started and not yet settled after the run. */
  function Outstanding(s: Store, pending: int, es: seq<Event>): int
    decreases |es|
  {
    if es == [] then pending
    else Outstanding(Step(s, es[0]), pending + Dispatches(s, es[0]) - Settles(es[0]), es[1..])
  }

  /** The environment's side of the protocol: a call settles only after it was started. */
  predicate Protocol(s: Store, pending: int, es: seq<Event>)
    decreases |es|
  {
    es == []
    || ((es[0].Settle? ==> pending > 0)
        && Protocol(Step(s, es[0]), pending + Dispatches(s, es[0]) - Settles(es[0]), es[1..]))
  }

  /** Backend calls started along the run. */
  function DispatchCount(s: Store, es: seq<Event>): nat
    decreases |es|
  {
    if es == [] then 0 else Dispatches(s, es[0]) + DispatchCount(Step(s, es[0]), es[1..])
  }

  function SettleCount(es: seq<Event>): nat {
    if es == [] then 0 else Settles(es[0]) + SettleCount(es[1..])
  }

  predicate Navigates(e: Event) {
    e.SelectChat? || e.NewChat?
  }

  /**
   * The Idle/Awaiting cycle: along any run that respects the protocol, at most one
   * backend call is outstanding, and the loading flag is up exactly while one is.
   */
  lemma {:induction false} AtMostOneOutstanding(s: Store, pending: int, es: seq<Event>)
    requires 0 <= pending <= 1 && (s.isLoading <==> pending == 1)
    requires Protocol(s, pending, es)
    ensures var p := Outstanding(s, pending, es);
      0 <= p <= 1 && (Run(s, es).isLoading <==> p == 1)
    decreases |es|
  {
    if es != [] {
      var e := es[0];
      var next := pending + Dispatches(s, e) - Settles(e);
      var t := Step(s, e);
      assert Protocol(t, next, es[1..]);
      StepKeepsCycle(s, pending, e);
      AtMostOneOutstanding(t, next, es[1..]);
      assert Outstanding(s, pending, es) == Outstanding(t, next, es[1..]);
      assert Run(s, es) == Run(t, es[1..]);
    }
  }

  /**
   * From mount, along any run in which calls settle only after they start, at most
   * one backend call is outstanding and the loading flag is up exactly while one is.
   */
  lemma OneOutstandingFromMount(history: seq<Chat>, es: seq<Event>)
    requires Protocol(Initial(history), 0, es)
    ensures var p := Outstanding(Initial(history), 0, es);
      0 <= p <= 1 && (Run(Initial(history), es).isLoading <==> p == 1)
  {
    AtMostOneOutstanding(Initial(history), 0, es);
  }

  /** One event keeps the Idle/Awaiting invariant. */
  lemma StepKeepsCycle(s: Store, pending: int, e: Event)
    requires 0 <= pending <= 1 && (s.isLoading <==> pending == 1)
    requires e.Settle? ==> pending > 0
    ensures var next := pending + Dispatches(s, e) - Settles(e);
      0 <= next <= 1 && (Step(s, e).isLoading <==> next == 1)
  {
  }

  /**
   * Between navigations the message list is append-only, and it grows by exactly one
   * message per call started (the user's) and one per call settled (the assistant's).
   */
  lemma {:induction false} AppendOnlyBetweenNavigations(s: Store, es: seq<Event>)
    requires forall i :: 0 <= i < |es| ==> !Navigates(es[i])
    ensures var t := Run(s, es);
      && s.messages <= t.messages
      && |t.messages| == |s.messages| + DispatchCount(s, es) + SettleCount(es)
    decreases |es|
  {
    if es != [] {
      var e := es[0];
      assert !Navigates(e);
      assert s.messages <= Step(s, e).messages;
      assert |Step(s, e).messages| == |s.messages| + Dispatches(s, e) + Settles(e);
      forall i | 0 <= i < |es[1..]| ensures !Navigates(es[1..][i]) {
        assert es[1..][i] == es[i + 1];
      }
      AppendOnlyBetweenNavigations(Step(s, e), es[1..]);
    }
  }

  /** No event changes the history list: it keeps the value it was mounted with. */
  lemma {:induction false} HistoryNeverChanges(s: Store, es: seq<Event>)
    ensures Run(s, es).chatHistory == s.chatHistory
    decreases |es|
  {
    if es != [] {
      HistoryNeverChanges(Step(s, es[0]), es[1..]);
    }
  }

  /** Every chat a run selects comes from the sidebar, i.e. from the history list. */
  predicate SelectsFromHistory(s: Store, es: seq<Event>) {
    forall i :: 0 <= i < |es| && es[i].SelectChat? ==> es[i].chat in s.chatHistory
  }

  /**
   * The active chat is always an entry of the unchanged history list, so the message
   * list of the entry it came from is never altered by sending or settling.
   */
  lemma {:induction false} ActiveChatStaysInHistory(s: Store, es: seq<Event>)
    requires s.activeChat.Some? ==> s.activeChat.value in s.chatHistory
    requires SelectsFromHistory(s, es)
    ensures var t := Run(s, es);
      && t.chatHistory == s.chatHistory
      && (t.activeChat.Some? ==> t.activeChat.value in s.chatHistory)
    decreases |es|
  {
    if es != [] {
      var next := Step(s, es[0]);
      assert next.chatHistory == s.chatHistory;
      forall i | 0 <= i < |es[1..]| && es[1..][i].SelectChat?
        ensures es[1..][i].chat in next.chatHistory
      {
        assert es[1..][i] == es[i + 1];
      }
      ActiveChatStaysInHistory(next, es[1..]);
    }
  }
}
