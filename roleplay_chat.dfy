/**
 * The roleplay chat (ChatInterface.jsx): a transcript that opens with the
 * teenager's line, a text input, and a mocked reply after a delay. A send is
 * two observable steps: the start step appends the user's text as typed
 * (not trimmed) and raises the typing flag; the completion step appends
 * exactly one bot message, the mock reply or an error text, and lowers it.
 * The handler has no in-flight guard of its own: overlapping sends are kept
 * out only by disabling the input and the button while the flag is up.
 */
module RoleplayChat {
  import opened JsStrings

  datatype Sender = User | Bot

  /** A transcript entry; ids are not modelled. */
  datatype Message = Message(sender: Sender, text: string)

  const OpeningLine: string :=
    "I don't really want to be here. My mom made me come talk to you. I'm fine, okay? Can I just go?"
  const MockReply: string :=
    "I guess... I mean, I'm just tired of everyone acting like I'm broken or something."
  const ErrorText: string := "Error: Unable to reach the server. Please check your connection."

  /** How the awaited reply ended: the delay resolved, or the awaited call threw. */
  datatype ReplyOutcome = Delivered | Failed

  datatype RoleplayState = RoleplayState(messages: seq<Message>, inputText: string, isTyping: bool)

  const Initial: RoleplayState := RoleplayState([Message(Bot, OpeningLine)], "", false)

  /** The synchronous part of `handleSendMessage`: it reads the input field itself. */
  function StartSend(s: RoleplayState): RoleplayState {
    if IsBlank(s.inputText) then s
    else s.(messages := s.messages + [Message(User, s.inputText)], inputText := "", isTyping := true)
  }

  /** The part of `handleSendMessage` after the await. */
  function CompleteSend(s: RoleplayState, o: ReplyOutcome): RoleplayState {
    s.(messages := s.messages + [Message(Bot, if o.Delivered? then MockReply else ErrorText)], isTyping := false)
  }

  function EditInput(s: RoleplayState, text: string): RoleplayState {
    s.(inputText := text)
  }

  /** The condition under which the send button is disabled (the input is disabled while typing). */
  predicate SendDisabled(s: RoleplayState) {
    IsBlank(s.inputText) || s.isTyping
  }

  // ---------------------------------------------------------------------------
  // Properties

  /** The transcript starts as the one opening line of the bot. */
  lemma InitialTranscript()
    ensures |Initial.messages| == 1 && Initial.messages[0].sender == Bot && Initial.messages[0].text == OpeningLine
    ensures !Initial.isTyping && SendDisabled(Initial)
  {
  }

  /** A send changes nothing exactly when the input is all white space. */
  lemma SendIsNoOpIffBlank(s: RoleplayState)
    ensures StartSend(s) == s <==> AllWhiteSpace(s.inputText)
  {
    BlankIffAllWhiteSpace(s.inputText);
    if !IsBlank(s.inputText) {
      assert |StartSend(s).messages| == |s.messages| + 1;
    }
  }

  /**
   * A non-blank input is sent as typed, untrimmed, even while a reply is
   * still pending: the handler does not look at the typing flag.
   */
  lemma AcceptedSendKeepsText(s: RoleplayState)
    requires !AllWhiteSpace(s.inputText)
    ensures var s' := StartSend(s);
      s'.messages == s.messages + [Message(User, s.inputText)] && s'.inputText == "" && s'.isTyping
  {
    BlankIffAllWhiteSpace(s.inputText);
  }

  /**
   * A completed turn appends exactly one bot message, keeps every earlier
   * message and lowers the typing flag; the text says whether it failed.
   */
  lemma CompletionAppendsOneBotMessage(s: RoleplayState, o: ReplyOutcome)
    ensures var s' := CompleteSend(s, o);
      && |s'.messages| == |s.messages| + 1
      && s'.messages[..|s.messages|] == s.messages
      && s'.messages[|s.messages|] == Message(Bot, if o.Delivered? then MockReply else ErrorText)
      && !s'.isTyping && s'.inputText == s.inputText
  {
    assert CompleteSend(s, o).messages[..|s.messages|] == s.messages;
  }

  /** While the button is enabled no reply is pending, and pressing it does send. */
  lemma EnabledSendIsAccepted(s: RoleplayState)
    ensures !SendDisabled(s) ==> !s.isTyping && StartSend(s).isTyping && |StartSend(s).messages| == |s.messages| + 1
    ensures SendDisabled(s) <==> AllWhiteSpace(s.inputText) || s.isTyping
  {
    BlankIffAllWhiteSpace(s.inputText);
  }

  /** A full turn from a non-blank input: the user's line, then one bot line, and the flag is down again. */
  lemma FullTurn(s: RoleplayState, o: ReplyOutcome)
    requires !AllWhiteSpace(s.inputText)
    ensures var s2 := CompleteSend(StartSend(s), o);
      && s2.messages == s.messages + [Message(User, s.inputText), Message(Bot, if o.Delivered? then MockReply else ErrorText)]
      && !s2.isTyping && s2.inputText == ""
  {
    BlankIffAllWhiteSpace(s.inputText);
  }

  // ---------------------------------------------------------------------------
  // The component

  class Roleplay {
    var messages: seq<Message>
    var inputText: string
    var isTyping: bool

    function Snapshot(): RoleplayState
      reads this
    {
      RoleplayState(messages, inputText, isTyping)
    }

    constructor ()
      ensures Snapshot() == Initial
    {
      messages := [Message(Bot, OpeningLine)];
      inputText := "";
      isTyping := false;
    }

    /** `handleSendMessage` up to its await; `sent` says whether it went ahead. */
    method SendMessage() returns (sent: bool)
      modifies this
      ensures Snapshot() == StartSend(old(Snapshot()))
      ensures sent <==> !IsBlank(old(inputText))
    {
      if IsBlank(inputText) {
        return false;
      }
      messages := messages + [Message(User, inputText)];
      inputText := "";
      isTyping := true;
      sent := true;
    }

    /** The rest of `handleSendMessage`, once the awaited reply has ended with `outcome`. */
    method CompleteReply(outcome: ReplyOutcome)
      modifies this
      ensures Snapshot() == CompleteSend(old(Snapshot()), outcome)
    {
      var text := if outcome.Delivered? then MockReply else ErrorText;
      messages := messages + [Message(Bot, text)];
      isTyping := false;
    }

    method SetInputText(text: string)
      modifies this
      ensures Snapshot() == EditInput(old(Snapshot()), text)
    {
      inputText := text;
    }
  }
}
