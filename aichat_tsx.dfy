/** The chat widget as AIChat.tsx writes it (the variant App.tsx mounts):
    typing clears the displayed error, and a failure notice quotes the
    error before a closing sentence. */
module AIChatTsx {
  import opened Base
  import opened Types
  import opened ChatCore

  const Greeting: string :=
    "Hi! I'm an AI assistant powered by Venice AI. I'm here to help answer your questions and provide information. What can I help you with today?"

  /** The error text used when the error carries nothing better. */
  const DefaultApology: string := "I'm sorry, I'm having trouble connecting to my AI brain right now."

  /** What every failure notice ends with. */
  const NoticeSuffix: string := " Please try again later or contact Tolu directly if the issue persists!"

  const GatewayTimeoutError: string := "Venice AI service is temporarily unavailable"
  const UnavailableError: string := "Unable to connect to AI service"
  const GenericError: string := "Failed to get AI response"

  /** The error text of a failure notice: the response's `detail`, else the
      error's `message`, else a thrown string itself, else the apology. */
  function FailureText(err: RequestError): string {
    if Truthy(Detail(err)) then Detail(err).value
    else if Truthy(Message(err)) then Message(err).value
    else match err
      case ThrownString(t) => t
      case Thrown(_, _) => DefaultApology
  }

  /** The display error, chosen by the HTTP status alone. */
  function DisplayError(err: RequestError): string {
    if Status(err) == Some(504) then GatewayTimeoutError
    else if Status(err) == Some(503) then UnavailableError
    else GenericError
  }

  /** The failure branch of `handleSendMessage`. */
  function Failed(s: ChatState, err: RequestError, now: int): ChatState {
    s.(messages := s.messages + [AiMessage(FailureText(err) + NoticeSuffix, now, now)],
       error := Some(DisplayError(err)),
       isLoading := false)
  }

  /** `handleInputChange`: the new text, and a truthy error is cleared. */
  function InputChanged(s: ChatState, value: string): ChatState {
    s.(inputMessage := value, error := if Truthy(s.error) then None else s.error)
  }

  /** The widget's state and the operations of AIChat.tsx on it. */
  class AIChat {
    var messages: seq<ChatMessage>
    var inputMessage: string
    var isLoading: bool
    var sessionId: Option<string>
    var error: Option<string>

    function State(): ChatState
      reads this
    {
      ChatState(messages, inputMessage, isLoading, sessionId, error)
    }

    /** The conversation is never empty. */
    ghost predicate Valid()
      reads this
    {
      NonEmptyConversation(State())
    }

    constructor (now: int)
      ensures Valid() && State() == Initial(Greeting, now)
    {
      messages := [ChatMessage(1, Ai, Greeting, now)];
      inputMessage := "";
      isLoading := false;
      sessionId := None;
      error := None;
    }

    method HandleInputChange(value: string)
      requires Valid()
      modifies this
      ensures Valid() && State() == InputChanged(old(State()), value)
    {
      inputMessage := value;
      if Truthy(error) {
        error := None;
      }
    }

    /** `handleSuggestionClick`: fills the input and leaves the error alone. */
    method HandleSuggestionClick(question: string)
      requires Valid()
      modifies this
      ensures Valid() && State() == old(State()).(inputMessage := question)
    {
      inputMessage := question;
    }

    /** The synchronous half of `handleSendMessage`, up to the network call;
        `req` is the request sent, if any. */
    method BeginSubmit(now: int) returns (req: Option<ChatRequest>)
      requires Valid()
      modifies this
      ensures Valid() && Submission(State(), req) == Submit(old(State()), now)
    {
      if IsBlank(inputMessage) {
        req := None;
        return;
      }
      error := None;
      messages := messages + [UserMessage(inputMessage, now)];
      req := Some(ChatRequest(inputMessage, sessionId));
      inputMessage := "";
      isLoading := true;
    }

    /** The rest of `handleSendMessage` when `req` was answered with `resp`. */
    method CompleteSuccess(req: ChatRequest, resp: ChatResponse, now: int, replyAt: int)
      requires Valid()
      modifies this
      ensures Valid() && State() == Replied(old(State()), req, resp, now, replyAt)
    {
      if !Truthy(req.sessionId) {
        sessionId := Some(resp.sessionId);
      }
      messages := messages + [AiMessage(resp.response, now, replyAt)];
      isLoading := false;
    }

    /** The rest of `handleSendMessage` when the request failed with `err`. */
    method CompleteFailure(err: RequestError, now: int)
      requires Valid()
      modifies this
      ensures Valid() && State() == Failed(old(State()), err, now)
    {
      var errorMessage := DefaultApology;
      if Truthy(Detail(err)) {
        errorMessage := Detail(err).value;
      } else if Truthy(Message(err)) {
        errorMessage := Message(err).value;
      } else if err.ThrownString? {
        errorMessage := err.text;
      }
      messages := messages + [AiMessage(errorMessage + NoticeSuffix, now, now)];
      error := Some(DisplayError(err));
      isLoading := false;
    }

    /** The mount effect that reads the slot. */
    method LoadSession(slot: SessionSlot)
      requires Valid()
      modifies this
      ensures Valid() && State() == Loaded(old(State()), slot.content)
    {
      match slot.content {
        case Some(Parsed(d)) =>
          if Truthy(d.sessionId) {
            sessionId := d.sessionId;
          }
          if d.messages.Some? && |d.messages.value| > 1 {
            messages := d.messages.value;
          }
        case _ =>
      }
    }

    /** The effect that runs whenever `messages` or `sessionId` change. */
    method SaveSession(slot: SessionSlot)
      modifies slot
      ensures slot.content == Saved(State(), old(slot.content))
    {
      if Truthy(sessionId) && |messages| > 1 {
        slot.content := Some(Parsed(SessionStorage(sessionId, Some(messages))));
      }
    }
  }

  // Properties of the AIChat.tsx policies

  /** The notice ends with the closing sentence and quotes the error text
      chosen by precedence: detail, then message, then a thrown string,
      then the apology. */
  lemma FailureNoticePrecedence(err: RequestError)
    ensures var notice := FailureText(err) + NoticeSuffix;
      notice[|notice| - |NoticeSuffix|..] == NoticeSuffix
    ensures Truthy(Detail(err)) ==> FailureText(err) == Detail(err).value
    ensures !Truthy(Detail(err)) && Truthy(Message(err)) ==> FailureText(err) == Message(err).value
    ensures err.ThrownString? ==> FailureText(err) == err.text
    ensures err.Thrown? && !Truthy(Detail(err)) && !Truthy(Message(err)) ==> FailureText(err) == DefaultApology
  {
  }

  /** The display error depends on the HTTP status alone: 504 and 503 have
      their own texts, every other error (and no response) the generic one. */
  lemma DisplayErrorByStatus(e1: RequestError, e2: RequestError)
    ensures Status(e1) == Status(e2) ==> DisplayError(e1) == DisplayError(e2)
    ensures DisplayError(e1) == GatewayTimeoutError <==> Status(e1) == Some(504)
    ensures DisplayError(e1) == UnavailableError <==> Status(e1) == Some(503)
    ensures DisplayError(e1) == GenericError <==> Status(e1) != Some(504) && Status(e1) != Some(503)
  {
  }

  /** A failure appends exactly one assistant message, keeps the session id,
      records the display error and ends loading. */
  lemma FailureKeepsSession(s: ChatState, err: RequestError, now: int)
    ensures var r := Failed(s, err, now);
      && |r.messages| == |s.messages| + 1
      && r.messages[..|s.messages|] == s.messages
      && r.messages[|s.messages|].kind == Ai
      && r.messages[|s.messages|].content == FailureText(err) + NoticeSuffix
      && r.sessionId == s.sessionId
      && r.error == Some(DisplayError(err))
      && !r.isLoading
  {
  }

  /** Typing leaves no truthy error behind and changes nothing else but the input. */
  lemma TypingClearsError(s: ChatState, value: string)
    ensures !Truthy(InputChanged(s, value).error)
    ensures InputChanged(s, value) == s.(inputMessage := value, error := InputChanged(s, value).error)
  {
  }
}
