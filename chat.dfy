/** The chat assistant widget: its state (open flag, message list, input
    text, loading flag), the toggle button, the input field and the send
    handler. The send handler awaits the language model in the middle; it is
    modelled as two steps, the send (up to the await) and the completion
    (after it). The language-model call itself is not modelled: its outcome
    is a parameter of the completion, a reply text or a failure. Message ids
    come from the clock and are parameters too; timestamps are left out. */
module Chat {
  import opened Wrappers

  datatype Role = User | Model

  datatype ChatMessage = ChatMessage(id: string, role: Role, text: string)

  /** The history format the language-model client expects. */
  datatype Part = Part(text: string)
  datatype Content = Content(role: Role, parts: seq<Part>)

  /** What a send passes to the language model: the earlier conversation
      and the new message text. */
  datatype Request = Request(history: seq<Content>, message: string)

  /** How the awaited language-model call ended. */
  datatype Outcome = Reply(text: string) | Failure

  const InitId: string := "init"
  const Greeting: string :=
    "Greetings. I am CYBER-V, Omkar's automated portfolio interface. Ask me about Omkar's skills, projects, or experience."
  const ErrorText: string := "Error: Neural link unstable. Unable to process request."

  const InitMessage: ChatMessage := ChatMessage(InitId, Model, Greeting)

  datatype ChatState = ChatState(isOpen: bool, messages: seq<ChatMessage>, inputValue: string, isLoading: bool)

  /** Closed, one greeting from the model, empty input, not loading. */
  const InitialState: ChatState := ChatState(false, [InitMessage], "", false)

  // ---------------------------------------------------------------------
  // String.prototype.trim
  // ---------------------------------------------------------------------

  /** The characters JavaScript's trim removes: white space and line
      terminators. */
  predicate IsJsSpace(c: char)
  {
    || c == '\t' || c == '\n' || c == '\U{000B}' || c == '\U{000C}' || c == '\r' || c == ' '
    || c == '\U{00A0}' || c == '\U{1680}' || ('\U{2000}' <= c <= '\U{200A}')
    || c == '\U{2028}' || c == '\U{2029}' || c == '\U{202F}' || c == '\U{205F}'
    || c == '\U{3000}' || c == '\U{FEFF}'
  }

  ghost predicate Blank(s: string)
  {
    forall i :: 0 <= i < |s| ==> IsJsSpace(s[i])
  }

  /** Drops the leading white space: the result is a suffix of s, what was
      dropped is blank, and the result does not start with white space. */
  function TrimStart(s: string): (r: string)
    ensures |r| <= |s| && r == s[|s| - |r|..]
    ensures Blank(s[..|s| - |r|])
    ensures r != [] ==> !IsJsSpace(r[0])
  {
    if s != [] && IsJsSpace(s[0]) then TrimStart(s[1..]) else s
  }

  /** Drops the trailing white space: the result is a prefix of s, what was
      dropped is blank, and the result does not end with white space. */
  function TrimEnd(s: string): (r: string)
    ensures |r| <= |s| && r == s[..|r|]
    ensures Blank(s[|r|..])
    ensures r != [] ==> !IsJsSpace(r[|r| - 1])
  {
    if s != [] && IsJsSpace(s[|s| - 1]) then TrimEnd(s[..|s| - 1]) else s
  }

  function Trim(s: string): string
  {
    TrimEnd(TrimStart(s))
  }

  /** trim() gives the empty string exactly for blank strings. */
  lemma TrimEmptyIffBlank(s: string)
    ensures Trim(s) == "" <==> Blank(s)
  {
    var r := TrimStart(s);
    if !Blank(s) {
      assert r != [];
    }
  }

  // ---------------------------------------------------------------------
  // The send guard and the history
  // ---------------------------------------------------------------------

  /** The send is refused, and the send button disabled, when the trimmed
      input is empty or a reply is still loading. */
  predicate SendBlocked(inputValue: string, isLoading: bool)
  {
    Trim(inputValue) == "" || isLoading
  }

  /** The conversation in the client's history format, in order, one text
      part per message. */
  function History(messages: seq<ChatMessage>): (h: seq<Content>)
    ensures |h| == |messages|
    ensures forall i :: 0 <= i < |messages| ==> h[i].role == messages[i].role && h[i].parts == [Part(messages[i].text)]
  {
    if messages == [] then []
    else [Content(messages[0].role, [Part(messages[0].text)])] + History(messages[1..])
  }

  lemma {:induction false} HistoryAppend(a: seq<ChatMessage>, b: seq<ChatMessage>)
    ensures History(a + b) == History(a) + History(b)
  {
    if a == [] {
      assert a + b == b;
    } else {
      var head := Content(a[0].role, [Part(a[0].text)]);
      assert (a + b)[0] == a[0];
      assert (a + b)[1..] == a[1..] + b;
      calc {
        History(a + b);
        [head] + History(a[1..] + b);
        { HistoryAppend(a[1..], b); }
        [head] + (History(a[1..]) + History(b));
        ([head] + History(a[1..])) + History(b);
        History(a) + History(b);
      }
    }
  }

  // ---------------------------------------------------------------------
  // Transitions
  // ---------------------------------------------------------------------

  /** The send handler up to its await. When blocked it changes nothing
      and sends nothing. Otherwise it appends one user message carrying the
      untrimmed input, clears the input, sets the loading flag and sends the
      conversation as it was before the user message, with the input. */
  function SendStep(s: ChatState, userId: string): (r: (ChatState, Option<Request>))
    ensures r.1.None? <==> SendBlocked(s.inputValue, s.isLoading)
    ensures r.1.None? ==> r.0 == s
    ensures r.1.Some? ==> r.0.messages == s.messages + [ChatMessage(userId, User, s.inputValue)]
    ensures r.1.Some? ==> r.0.inputValue == "" && r.0.isLoading && r.0.isOpen == s.isOpen
    ensures r.1.Some? ==> r.1.value.message == s.inputValue && r.1.value.history == History(s.messages)
  {
    if SendBlocked(s.inputValue, s.isLoading) then (s, None)
    else
      var userMsg := ChatMessage(userId, User, s.inputValue);
      (s.(messages := s.messages + [userMsg], inputValue := "", isLoading := true),
       Some(Request(History(s.messages), userMsg.text)))
  }

  /** The text of the model message that completes a send. */
  function ReplyText(outcome: Outcome): string
  {
    match outcome
    case Reply(text) => text
    case Failure => ErrorText
  }

  /** The send handler after its await: one model message with the reply,
      or the fixed error text on failure, is appended and loading ends. */
  function CompleteStep(s: ChatState, outcome: Outcome, replyId: string): (r: ChatState)
    ensures r.messages == s.messages + [ChatMessage(replyId, Model, ReplyText(outcome))]
    ensures outcome.Reply? ==> r.messages[|s.messages|].text == outcome.text
    ensures outcome.Failure? ==> r.messages[|s.messages|].text == ErrorText
    ensures !r.isLoading
    ensures r.isOpen == s.isOpen && r.inputValue == s.inputValue
  {
    s.(messages := s.messages + [ChatMessage(replyId, Model, ReplyText(outcome))], isLoading := false)
  }

  /** The toggle button flips the open flag and nothing else. */
  function ToggleStep(s: ChatState): (r: ChatState)
    ensures r.isOpen != s.isOpen
    ensures r.messages == s.messages && r.inputValue == s.inputValue && r.isLoading == s.isLoading
  {
    s.(isOpen := !s.isOpen)
  }

  /** Typing replaces the input text and nothing else. */
  function TypeStep(s: ChatState, value: string): (r: ChatState)
    ensures r.inputValue == value
    ensures r.isOpen == s.isOpen && r.messages == s.messages && r.isLoading == s.isLoading
  {
    s.(inputValue := value)
  }

  // ---------------------------------------------------------------------
  // Properties
  // ---------------------------------------------------------------------

  /** A message is sent exactly when the input has a character other than
      white space and no reply is loading. */
  lemma SendsIffNotBlank(s: ChatState, userId: string)
    ensures SendStep(s, userId).1.Some? <==> !Blank(s.inputValue) && !s.isLoading
  {
    TrimEmptyIffBlank(s.inputValue);
  }

  /** A complete round (send, then its completion) adds the user message
      and one model message, leaves the input empty and loading off, and
      the next send's history extends this send's history by those two
      messages. */
  lemma SendRound(s: ChatState, userId: string, outcome: Outcome, replyId: string)
    requires !SendBlocked(s.inputValue, s.isLoading)
    ensures var sent := SendStep(s, userId).0;
      var done := CompleteStep(sent, outcome, replyId);
      && done.messages == s.messages + [ChatMessage(userId, User, s.inputValue), ChatMessage(replyId, Model, ReplyText(outcome))]
      && done.inputValue == "" && !done.isLoading
      && History(done.messages) ==
           SendStep(s, userId).1.value.history
           + [Content(User, [Part(s.inputValue)]), Content(Model, [Part(ReplyText(outcome))])]
  {
    var sent := SendStep(s, userId).0;
    var done := CompleteStep(sent, outcome, replyId);
    var userMsg := ChatMessage(userId, User, s.inputValue);
    var modelMsg := ChatMessage(replyId, Model, ReplyText(outcome));
    assert done.messages == (s.messages + [userMsg]) + [modelMsg];
    assert done.messages == s.messages + [userMsg, modelMsg];
    HistoryAppend(s.messages, [userMsg, modelMsg]);
    assert History([userMsg, modelMsg]) == [Content(User, [Part(s.inputValue)]), Content(Model, [Part(ReplyText(outcome))])];
  }

  /** The conversation shape the widget maintains: the greeting first, then
      user and model messages alternating; a reply is loading exactly when
      the last message is the user's. */
  ghost predicate WellFormed(s: ChatState)
  {
    && |s.messages| >= 1
    && s.messages[0] == InitMessage
    && (forall k :: 1 <= k < |s.messages| ==> s.messages[k].role == (if k % 2 == 1 then User else Model))
    && (s.isLoading <==> |s.messages| % 2 == 0)
  }

  /** A send that goes through appends the user's turn after a model
      message, so the conversation stays well formed. */
  lemma SendKeepsWellFormed(s: ChatState, userId: string)
    requires WellFormed(s)
    ensures WellFormed(SendStep(s, userId).0)
  {
    if !SendBlocked(s.inputValue, s.isLoading) {
      var sent := SendStep(s, userId).0;
      assert sent.messages == s.messages + [ChatMessage(userId, User, s.inputValue)];
      assert forall k :: 0 <= k < |s.messages| ==> sent.messages[k] == s.messages[k];
    }
  }

  /** The completion of a pending send appends the model's turn after the
      user's, so the conversation stays well formed. */
  lemma CompleteKeepsWellFormed(s: ChatState, outcome: Outcome, replyId: string)
    requires WellFormed(s) && s.isLoading
    ensures WellFormed(CompleteStep(s, outcome, replyId))
  {
    var done := CompleteStep(s, outcome, replyId);
    assert done.messages == s.messages + [ChatMessage(replyId, Model, ReplyText(outcome))];
    assert forall k :: 0 <= k < |s.messages| ==> done.messages[k] == s.messages[k];
  }

  /** Every step of the widget keeps the conversation well formed; the
      completion is the one that follows a send, so a reply is loading. */
  lemma WellFormedPreserved(s: ChatState, userId: string, outcome: Outcome, replyId: string, value: string)
    requires WellFormed(s)
    ensures WellFormed(InitialState)
    ensures WellFormed(SendStep(s, userId).0)
    ensures s.isLoading ==> WellFormed(CompleteStep(s, outcome, replyId))
    ensures WellFormed(ToggleStep(s)) && WellFormed(TypeStep(s, value))
  {
    SendKeepsWellFormed(s, userId);
    if s.isLoading {
      CompleteKeepsWellFormed(s, outcome, replyId);
    }
  }

  // ---------------------------------------------------------------------
  // The component
  // ---------------------------------------------------------------------

  class ChatAssistant {
    var isOpen: bool
    var messages: seq<ChatMessage>
    var inputValue: string
    var isLoading: bool

    function State(): ChatState
      reads this
    {
      ChatState(isOpen, messages, inputValue, isLoading)
    }

    /** Whether the send button is disabled. */
    predicate SendButtonDisabled()
      reads this
    {
      SendBlocked(inputValue, isLoading)
    }

    constructor ()
      ensures State() == InitialState
      ensures !isOpen && !isLoading && inputValue == ""
      ensures messages == [ChatMessage("init", Model, Greeting)]
    {
      isOpen := false;
      messages := [InitMessage];
      inputValue := "";
      isLoading := false;
    }

    method Toggle()
      modifies this
      ensures State() == ToggleStep(old(State()))
    {
      isOpen := !isOpen;
    }

    method SetInput(value: string)
      modifies this
      ensures State() == TypeStep(old(State()), value)
    {
      inputValue := value;
    }

    /** The send handler up to its await. It returns the request it makes
      of the language model, or None when it returns early; it returns
      early exactly when the send button is disabled. */
    method HandleSend(userId: string) returns (request: Option<Request>)
      modifies this
      ensures (State(), request) == SendStep(old(State()), userId)
      ensures request.None? <==> old(SendButtonDisabled())
    {
      if Trim(inputValue) == "" || isLoading {
        return None;
      }
      var userMsg := ChatMessage(userId, User, inputValue);
      var history := History(messages);
      messages := messages + [userMsg];
      inputValue := "";
      isLoading := true;
      request := Some(Request(history, userMsg.text));
    }

    /** The send handler after its await. */
    method Complete(outcome: Outcome, replyId: string)
      modifies this
      ensures State() == CompleteStep(old(State()), outcome, replyId)
    {
      var text := match outcome
        case Reply(t) => t
        case Failure => ErrorText;
      messages := messages + [ChatMessage(replyId, Model, text)];
      isLoading := false;
    }
  }
}
