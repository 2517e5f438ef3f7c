/**
 * The floating assistant panel: an open/minimized flag pair, a text input and
 * a chat log that starts with a greeting and grows by one question and one
 * canned reply per send or quick action.
 */
module AIAssistant {
  import opened JsString

  datatype Role = User | Assistant

  datatype Message = Message(role: Role, content: string)

  const GreetingText := "Hi! I'm your AI WorkTracker assistant. I can help you with team insights, generate reports, or answer questions about your sprint. How can I help?"

  const Greeting := Message(Assistant, GreetingText)

  /** The canned reply to a typed question. */
  function SendReply(input: string): string {
    "I'm analyzing your request about \"" + input
      + "\". In a full implementation, I would provide detailed insights based on your team data."
  }

  /** The canned reply to a quick action. */
  function QuickActionReply(action: string): string {
    "Here's a summary for \"" + action
      + "\". This feature would connect to your actual project data to provide real-time insights."
  }

  /** One question followed by its reply. */
  function Exchange(question: string, reply: string): seq<Message> {
    [Message(User, question), Message(Assistant, reply)]
  }

  /** The log's shape: the greeting first, then the assistant speaking at even
      positions and the user at odd ones, so the length is odd. */
  predicate WellFormedLog(log: seq<Message>) {
    |log| % 2 == 1 && log[0] == Greeting &&
    forall k :: 0 <= k < |log| ==> log[k].role == if k % 2 == 0 then Assistant else User
  }

  lemma InitialLogWellFormed()
    ensures WellFormedLog([Greeting])
  {
  }

  /** Appending an exchange keeps the shape and the old log as a prefix. */
  lemma AppendExchangeWellFormed(log: seq<Message>, question: string, reply: string)
    requires WellFormedLog(log)
    ensures WellFormedLog(log + Exchange(question, reply))
    ensures (log + Exchange(question, reply))[..|log|] == log
    ensures |log + Exchange(question, reply)| == |log| + 2
  {
    var r := log + Exchange(question, reply);
    forall k | 0 <= k < |r| ensures r[k].role == if k % 2 == 0 then Assistant else User {
      if k >= |log| {
        assert r[k] == Exchange(question, reply)[k - |log|];
      } else {
        assert r[k] == log[k];
      }
    }
  }

  /** The quick-action buttons are shown while the log has at most two messages. */
  predicate QuickActionsShown(log: seq<Message>) {
    |log| <= 2
  }

  /** On a well-formed log that means: only the greeting, nothing asked yet. */
  lemma QuickActionsOnlyBeforeFirstExchange(log: seq<Message>, question: string, reply: string)
    requires WellFormedLog(log)
    ensures QuickActionsShown(log) <==> log == [Greeting]
    ensures !QuickActionsShown(log + Exchange(question, reply))
  {
    if QuickActionsShown(log) {
      assert |log| == 1;
      assert log == [log[0]];
    }
  }

  /** The send button is disabled, and Enter does nothing, when the input is blank. */
  function SendDisabled(input: string): (disabled: bool)
    ensures disabled <==> AllWhiteSpace(input)
  {
    TrimEmptyIffAllWhiteSpace(input);
    Trim(input) == ""
  }

  class AIAssistantPanel {
    var isOpen: bool
    var isMinimized: bool
    var inputValue: string
    var chatMessages: seq<Message>

    ghost predicate Valid()
      reads this
    {
      WellFormedLog(chatMessages)
    }

    constructor ()
      ensures Valid()
      ensures !isOpen && !isMinimized && inputValue == "" && chatMessages == [Greeting]
    {
      isOpen := false;
      isMinimized := false;
      inputValue := "";
      chatMessages := [Greeting];
    }

    method SetOpen(value: bool)
      modifies this
      ensures isOpen == value
      ensures isMinimized == old(isMinimized) && inputValue == old(inputValue) && chatMessages == old(chatMessages)
    {
      isOpen := value;
    }

    method ToggleMinimized()
      modifies this
      ensures isMinimized == !old(isMinimized)
      ensures isOpen == old(isOpen) && inputValue == old(inputValue) && chatMessages == old(chatMessages)
    {
      isMinimized := !isMinimized;
    }

    method SetInputValue(text: string)
      modifies this
      ensures inputValue == text
      ensures isOpen == old(isOpen) && isMinimized == old(isMinimized) && chatMessages == old(chatMessages)
    {
      inputValue := text;
    }

    /** Sends the input as typed (not trimmed) unless it is blank. */
    method HandleSend()
      requires Valid()
      modifies this
      ensures Valid()
      ensures SendDisabled(old(inputValue)) ==>
        chatMessages == old(chatMessages) && inputValue == old(inputValue)
      ensures !SendDisabled(old(inputValue)) ==>
        chatMessages == old(chatMessages) + Exchange(old(inputValue), SendReply(old(inputValue)))
        && inputValue == ""
      ensures isOpen == old(isOpen) && isMinimized == old(isMinimized)
    {
      if Trim(inputValue) == "" {
        return;
      }
      AppendExchangeWellFormed(chatMessages, inputValue, SendReply(inputValue));
      chatMessages := chatMessages + Exchange(inputValue, SendReply(inputValue));
      inputValue := "";
    }

    /** The input's key handler: Enter sends, any other key does nothing. */
    method HandleKeyDown(key: string)
      requires Valid()
      modifies this
      ensures Valid()
      ensures key != "Enter" ==> chatMessages == old(chatMessages) && inputValue == old(inputValue)
      ensures key == "Enter" && !SendDisabled(old(inputValue)) ==>
        chatMessages == old(chatMessages) + Exchange(old(inputValue), SendReply(old(inputValue)))
        && inputValue == ""
      ensures key == "Enter" && SendDisabled(old(inputValue)) ==>
        chatMessages == old(chatMessages) && inputValue == old(inputValue)
      ensures isOpen == old(isOpen) && isMinimized == old(isMinimized)
    {
      if key == "Enter" {
        HandleSend();
      }
    }

    /** A quick action asks its own label and leaves the input alone. */
    method HandleQuickAction(action: string)
      requires Valid()
      modifies this
      ensures Valid()
      ensures chatMessages == old(chatMessages) + Exchange(action, QuickActionReply(action))
      ensures inputValue == old(inputValue) && isOpen == old(isOpen) && isMinimized == old(isMinimized)
    {
      AppendExchangeWellFormed(chatMessages, action, QuickActionReply(action));
      chatMessages := chatMessages + Exchange(action, QuickActionReply(action));
    }
  }
}
