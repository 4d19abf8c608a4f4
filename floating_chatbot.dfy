/**
 * The floating help chat (FloatingChatbot.jsx): a transcript that starts with
 * a welcome message, a text input, and one request at a time to the
 * knowledge-base webhook. A send is two observable steps: the start step
 * appends the user's trimmed text and sets the loading flag; the completion
 * step, given the outcome of the round trip, appends exactly one bot message
 * (a reply or a connection error) and clears the loading flag.
 *
 * `ChatState` and the transition functions are the specification; the class
 * `Chatbot` holds the component's state in fields and each handler is proved
 * to perform the matching transition.
 */
module FloatingChatbot {
  import opened JsValues
  import opened JsStrings

  datatype Sender = User | Bot

  /** A transcript entry; the numeric id and the `sources` list are not modelled. */
  datatype Message = Message(sender: Sender, text: JsValue, isError: bool)

  const WelcomeText: string :=
    "Hello! I'm your Youth MHFA Knowledge Assistant. I can help you with:\n\n"
    + "\U{2022} ALGEE action plan steps\n\U{2022} Crisis intervention protocols\n"
    + "\U{2022} Mental health information\n\U{2022} Communication techniques\n"
    + "\U{2022} Platform usage help\n\nWhat would you like to know?"
  const Welcome: Message := Message(Bot, Str(WelcomeText), false)
  const FallbackReply: string := "I'm sorry, I couldn't process that request. Please try again."
  const ConnectionError: string :=
    "I'm having trouble connecting to the knowledge base. Please check your connection and try again."

  /** What the body text of a successful response turned into (an empty body is not parsed). */
  datatype RagBody =
    | EmptyBody
    | InvalidJson
    | JsonNull       // reading a field of null throws
    | JsonPrimitive  // a string, number or boolean: every field reads as undefined
    | JsonObject(reply: JsValue, output: JsValue, message: JsValue, response: JsValue)

  /**
   * The outcome of one round trip to the webhook: the request or the reading
   * of the body failed, or a response arrived with its `ok` flag and body.
   */
  datatype RagOutcome = TransportFailure | HttpReply(ok: bool, body: RagBody)

  /** `data.reply || data.output || data.message || data.response || <fallback>` */
  function BotText(reply: JsValue, output: JsValue, message: JsValue, response: JsValue): JsValue {
    OrChain([reply, output, message, response], Str(FallbackReply))
  }

  /** The text of the bot reply a round trip yields, or None when the turn fails. */
  function ReplyText(o: RagOutcome): Option<JsValue> {
    match o
    case TransportFailure => None
    case HttpReply(ok, body) =>
      if !ok then None
      else match body
        case EmptyBody => Some(BotText(Undefined, Undefined, Undefined, Undefined))
        case InvalidJson => None
        case JsonNull => None
        case JsonPrimitive => Some(BotText(Undefined, Undefined, Undefined, Undefined))
        case JsonObject(reply, output, message, response) => Some(BotText(reply, output, message, response))
  }

  /** The component's state; the session id is not modelled. */
  datatype ChatState = ChatState(
    isOpen: bool,
    isMinimized: bool,
    messages: seq<Message>,
    inputText: string,
    isLoading: bool,
    showSuggestions: bool,
    unreadCount: nat)

  const Initial: ChatState := ChatState(false, false, [Welcome], "", false, true, 0)

  /** What the asynchronous handler keeps across its await: the text sent and the `isOpen` it closed over. */
  datatype PendingTurn = PendingTurn(message: string, openAtSend: bool)

  /** The transcript always starts with the welcome message. */
  predicate WellFormed(s: ChatState) {
    |s.messages| >= 1 && s.messages[0] == Welcome
  }

  /** The guard of `handleSendMessage`. */
  predicate Accepts(s: ChatState, text: string) {
    !IsBlank(text) && !s.isLoading
  }

  function UserMessage(text: string): Message {
    Message(User, Str(Trim(text)), false)
  }

  /** The synchronous part of `handleSendMessage(text)`. */
  function StartSend(s: ChatState, text: string): ChatState {
    if !Accepts(s, text) then s
    else s.(messages := s.messages + [UserMessage(text)], inputText := "", isLoading := true, showSuggestions := false)
  }

  function Pending(s: ChatState, text: string): PendingTurn {
    PendingTurn(Trim(text), s.isOpen)
  }

  /** The bot message a completed turn appends. */
  function BotMessage(o: RagOutcome): Message {
    match ReplyText(o)
    case Some(t) => Message(Bot, t, false)
    case None => Message(Bot, Str(ConnectionError), true)
  }

  /**
   * The part of `handleSendMessage` after the await, with the unread counter
   * reading whether the chat is open when the reply lands.
   */
  function CompleteSend(s: ChatState, turn: PendingTurn, o: RagOutcome): ChatState {
    s.(messages := s.messages + [BotMessage(o)],
       isLoading := false,
       unreadCount := if ReplyText(o).Some? && !s.isOpen then s.unreadCount + 1 else s.unreadCount)
  }

  /** The completion step as written: the counter reads the `isOpen` captured when the send started. */
  function CompleteSendAsWritten(s: ChatState, turn: PendingTurn, o: RagOutcome): ChatState {
    s.(messages := s.messages + [BotMessage(o)],
       isLoading := false,
       unreadCount := if ReplyText(o).Some? && !turn.openAtSend then s.unreadCount + 1 else s.unreadCount)
  }

  function ClearChat(s: ChatState): ChatState {
    s.(messages := [Welcome], showSuggestions := true)
  }

  /** `toggleChat`, followed by the effect that zeroes the unread counter once the chat is open. */
  function ToggleChat(s: ChatState): ChatState {
    s.(isOpen := !s.isOpen, isMinimized := false, unreadCount := if !s.isOpen then 0 else s.unreadCount)
  }

  function ToggleMinimize(s: ChatState): ChatState {
    s.(isMinimized := !s.isMinimized)
  }

  function EditInput(s: ChatState, text: string): ChatState {
    s.(inputText := text)
  }

  /** The condition under which the suggested questions are rendered. */
  predicate SuggestionsVisible(s: ChatState) {
    s.showSuggestions && |s.messages| == 1 && !s.isLoading
  }

  /** The condition under which the send button is disabled. */
  predicate SendDisabled(s: ChatState) {
    IsBlank(s.inputText) || s.isLoading
  }

  // ---------------------------------------------------------------------------
  // Properties

  /** A send changes nothing exactly when the text is all white space or a call is outstanding. */
  lemma SendIsNoOpIffRejected(s: ChatState, text: string)
    ensures StartSend(s, text) == s <==> AllWhiteSpace(text) || s.isLoading
  {
    BlankIffAllWhiteSpace(text);
    if Accepts(s, text) {
      assert |StartSend(s, text).messages| == |s.messages| + 1;
    }
  }

  /** An accepted send appends one user message holding the trimmed, non-blank text, and nothing else moves but the flags it sets. */
  lemma AcceptedSend(s: ChatState, text: string)
    requires !AllWhiteSpace(text) && !s.isLoading
    ensures var s' := StartSend(s, text);
      && s'.messages == s.messages + [Message(User, Str(Trim(text)), false)]
      && s'.inputText == "" && s'.isLoading && !s'.showSuggestions
      && s'.isOpen == s.isOpen && s'.isMinimized == s.isMinimized && s'.unreadCount == s.unreadCount
      && !SuggestionsVisible(s')
    ensures var t := Trim(text); t != [] && !IsWhiteSpace(t[0]) && !IsWhiteSpace(t[|t| - 1])
  {
    BlankIffAllWhiteSpace(text);
  }

  /**
   * A completed turn appends exactly one bot message, leaves every earlier
   * message in place and clears the loading flag; the message is an error
   * exactly when the round trip failed.
   */
  lemma CompletionAppendsOneBotMessage(s: ChatState, turn: PendingTurn, o: RagOutcome)
    ensures var s' := CompleteSend(s, turn, o);
      && |s'.messages| == |s.messages| + 1
      && s'.messages[..|s.messages|] == s.messages
      && s'.messages[|s.messages|].sender == Bot
      && !s'.isLoading
      && s'.inputText == s.inputText && s'.isOpen == s.isOpen && s'.showSuggestions == s.showSuggestions
    ensures var m := CompleteSend(s, turn, o).messages[|s.messages|];
      m.isError <==> (o.TransportFailure? || !o.ok || o.body.InvalidJson? || o.body.JsonNull?)
    ensures var m := CompleteSend(s, turn, o).messages[|s.messages|];
      m.isError ==> m.text == Str(ConnectionError)
  {
    assert (s.messages + [BotMessage(o)])[..|s.messages|] == s.messages;
  }

  /** A reply's text is always truthy: the fallback text takes the place of falsy fields. */
  lemma ReplyIsTruthy(o: RagOutcome)
    ensures ReplyText(o).Some? ==> Truthy(ReplyText(o).value)
  {
  }

  /** The reply text is the first truthy field in the order reply, output, message, response. */
  lemma {:induction false} ReplyPicksFirstTruthyField(reply: JsValue, output: JsValue, message: JsValue, response: JsValue)
    ensures Truthy(reply) ==> BotText(reply, output, message, response) == reply
    ensures !Truthy(reply) && Truthy(output) ==> BotText(reply, output, message, response) == output
    ensures !Truthy(reply) && !Truthy(output) && Truthy(message) ==> BotText(reply, output, message, response) == message
    ensures !Truthy(reply) && !Truthy(output) && !Truthy(message)
        ==> BotText(reply, output, message, response) == if Truthy(response) then response else Str(FallbackReply)
  {
    var vs := [reply, output, message, response];
    assert vs[0] == reply && vs[1] == output && vs[2] == message && vs[3] == response;
  }

  /** An empty-string `reply` falls through to the next field; an empty body gives the fallback text. */
  lemma EmptyReplyFallsThrough(output: JsValue, message: JsValue, response: JsValue)
    ensures ReplyText(HttpReply(true, JsonObject(Str(""), output, message, response)))
         == ReplyText(HttpReply(true, JsonObject(Undefined, output, message, response)))
    ensures ReplyText(HttpReply(true, EmptyBody)) == Some(Str(FallbackReply))
  {
  }

  /**
   * The unread counter grows by one exactly on a reply that lands while the
   * chat is closed, and is 0 whenever toggling opens the chat.
   */
  lemma UnreadCountsOnlyClosedReplies(s: ChatState, turn: PendingTurn, o: RagOutcome)
    ensures CompleteSend(s, turn, o).unreadCount == s.unreadCount + 1 <==> ReplyText(o).Some? && !s.isOpen
    ensures CompleteSend(s, turn, o).unreadCount != s.unreadCount + 1 ==> CompleteSend(s, turn, o).unreadCount == s.unreadCount
    ensures ToggleChat(s).isOpen ==> ToggleChat(s).unreadCount == 0
  {
  }

  /**
   * As written, the counter ignores every reply to a send started from the
   * open chat, though the transcript is the same as with the corrected counter.
   */
  lemma AsWrittenCounterIgnoresOpenSends(s: ChatState, turn: PendingTurn, o: RagOutcome)
    requires turn.openAtSend
    ensures CompleteSendAsWritten(s, turn, o).unreadCount == s.unreadCount
    ensures CompleteSendAsWritten(s, turn, o).messages == CompleteSend(s, turn, o).messages
  {
  }

  /**
   * The counter as written misses a reply in this sequence: open the closed
   * chat, send, close it, and a reply arrives.
   */
  lemma StaleOpenFlagMissesReply(s: ChatState, text: string, reply: JsValue)
    requires !s.isOpen && !s.isLoading && !AllWhiteSpace(text) && Truthy(reply)
    ensures var s0 := ToggleChat(s);
      var s1 := StartSend(s0, text);
      var s2 := ToggleChat(s1);
      var s3 := CompleteSendAsWritten(s2, Pending(s0, text), HttpReply(true, JsonObject(reply, Undefined, Undefined, Undefined)));
      && !s3.isOpen && |s3.messages| == |s.messages| + 2 && s3.messages[|s.messages| + 1] == Message(Bot, reply, false)
      && s3.unreadCount == 0
  {
    AcceptedSend(ToggleChat(s), text);
  }

  /** The same sequence with the corrected counter leaves one unread reply. */
  lemma CorrectedCounterCountsScenario(s: ChatState, text: string, reply: JsValue)
    requires !s.isOpen && !s.isLoading && !AllWhiteSpace(text) && Truthy(reply)
    ensures var s0 := ToggleChat(s);
      var s1 := StartSend(s0, text);
      var s2 := ToggleChat(s1);
      var s3 := CompleteSend(s2, Pending(s0, text), HttpReply(true, JsonObject(reply, Undefined, Undefined, Undefined)));
      && !s3.isOpen && |s3.messages| == |s.messages| + 2 && s3.messages[|s.messages| + 1] == Message(Bot, reply, false)
      && s3.unreadCount == 1
  {
    AcceptedSend(ToggleChat(s), text);
  }

  /** Clearing yields exactly the welcome message with suggestions on, and clearing twice is clearing once. */
  lemma ClearChatResets(s: ChatState)
    ensures ClearChat(s).messages == [Welcome] && ClearChat(s).showSuggestions
    ensures ClearChat(ClearChat(s)) == ClearChat(s)
    ensures SuggestionsVisible(ClearChat(s)) <==> !s.isLoading
  {
  }

  /** Toggling flips `isOpen`, always leaves the window un-minimised, and touches nothing in the conversation. */
  lemma ToggleChatFlips(s: ChatState)
    ensures ToggleChat(s).isOpen == !s.isOpen && !ToggleChat(s).isMinimized
    ensures ToggleChat(s).messages == s.messages && ToggleChat(s).isLoading == s.isLoading
    ensures ToggleChat(ToggleChat(s)).isOpen == s.isOpen
  {
  }

  /** The suggestions are shown only on a transcript holding the welcome message alone. */
  lemma SuggestionsOnlyOnFreshTranscript(s: ChatState)
    requires WellFormed(s) && SuggestionsVisible(s)
    ensures s.messages == [Welcome] && !s.isLoading
  {
  }

  /** Every handler keeps the welcome message first in the transcript. */
  lemma TransitionsKeepWellFormed(s: ChatState, text: string, turn: PendingTurn, o: RagOutcome)
    requires WellFormed(s)
    ensures WellFormed(StartSend(s, text)) && WellFormed(CompleteSend(s, turn, o))
    ensures WellFormed(ClearChat(s)) && WellFormed(ToggleChat(s)) && WellFormed(ToggleMinimize(s))
    ensures WellFormed(EditInput(s, text))
  {
  }

  /** A full turn from an accepted send: the transcript gains the user message, then one bot message. */
  lemma {:induction false} FullTurn(s: ChatState, text: string, o: RagOutcome)
    requires !AllWhiteSpace(text) && !s.isLoading
    ensures var s2 := CompleteSend(StartSend(s, text), Pending(s, text), o);
      && s2.messages == s.messages + [Message(User, Str(Trim(text)), false), BotMessage(o)]
      && !s2.isLoading && s2.inputText == ""
  {
    AcceptedSend(s, text);
    var s1 := StartSend(s, text);
    var m := BotMessage(o);
    assert CompleteSend(s1, Pending(s, text), o).messages == s1.messages + [m];
    assert s.messages + [UserMessage(text)] + [m] == s.messages + [UserMessage(text), m];
  }

  /** The send button is enabled exactly when the handler would accept the current input. */
  lemma SendEnabledIffAccepted(s: ChatState)
    ensures !SendDisabled(s) <==> Accepts(s, s.inputText)
    ensures SendDisabled(s) <==> AllWhiteSpace(s.inputText) || s.isLoading
  {
    BlankIffAllWhiteSpace(s.inputText);
  }

  // ---------------------------------------------------------------------------
  // The component

  class Chatbot {
    var isOpen: bool
    var isMinimized: bool
    var messages: seq<Message>
    var inputText: string
    var isLoading: bool
    var showSuggestions: bool
    var unreadCount: nat

    function Snapshot(): ChatState
      reads this
    {
      ChatState(isOpen, isMinimized, messages, inputText, isLoading, showSuggestions, unreadCount)
    }

    constructor ()
      ensures Snapshot() == Initial && WellFormed(Snapshot())
    {
      isOpen, isMinimized := false, false;
      messages := [Welcome];
      inputText := "";
      isLoading := false;
      showSuggestions := true;
      unreadCount := 0;
    }

    /** `handleSendMessage(text)` up to its await; returns the pending turn when the send goes ahead. */
    method SendMessage(text: string) returns (turn: Option<PendingTurn>)
      modifies this
      ensures Snapshot() == StartSend(old(Snapshot()), text)
      ensures turn.Some? <==> Accepts(old(Snapshot()), text)
      ensures turn.Some? ==> turn.value == Pending(old(Snapshot()), text)
    {
      if IsBlank(text) || isLoading {
        return None;
      }
      var userText := Trim(text);
      messages := messages + [Message(User, Str(userText), false)];
      inputText := "";
      isLoading := true;
      showSuggestions := false;
      turn := Some(PendingTurn(userText, isOpen));
    }

    /** The rest of `handleSendMessage`, once the round trip has produced `outcome` (with the corrected counter). */
    method CompleteTurn(turn: PendingTurn, outcome: RagOutcome)
      modifies this
      ensures Snapshot() == CompleteSend(old(Snapshot()), turn, outcome)
    {
      match ReplyText(outcome) {
        case Some(text) =>
          messages := messages + [Message(Bot, text, false)];
          if !isOpen {
            unreadCount := unreadCount + 1;
          }
        case None =>
          messages := messages + [Message(Bot, Str(ConnectionError), true)];
      }
      isLoading := false;
    }

    method Clear()
      modifies this
      ensures Snapshot() == ClearChat(old(Snapshot()))
    {
      messages := [Welcome];
      showSuggestions := true;
    }

    /** `toggleChat` together with the effect on `isOpen` that resets the unread counter. */
    method Toggle()
      modifies this
      ensures Snapshot() == ToggleChat(old(Snapshot()))
    {
      isOpen := !isOpen;
      isMinimized := false;
      if isOpen {
        unreadCount := 0;
      }
    }

    method ToggleMinimized()
      modifies this
      ensures Snapshot() == ToggleMinimize(old(Snapshot()))
    {
      isMinimized := !isMinimized;
    }

    /** The input's change handler. */
    method SetInputText(text: string)
      modifies this
      ensures Snapshot() == EditInput(old(Snapshot()), text)
    {
      inputText := text;
    }
  }
}
