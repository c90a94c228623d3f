/** The chat widget as AIChat.jsx writes it (the variant App.js mounts):
    typing leaves the displayed error alone, every failure appends the same
    apology, and the display error is the server's detail when it has one. */
module AIChatJsx {
  import opened Base
  import opened Types
  import opened ChatCore

  const Greeting: string :=
    "Hi! I'm Tolu's AI assistant powered by Venice AI. Ask me anything about his background, skills, projects, or career journey. I'm here to help you learn more about his expertise in AI and full-stack development!"

  /** The one failure notice of this variant. */
  const FixedApology: string :=
    "I'm sorry, I'm having trouble connecting to my AI brain right now. This might be because the Venice AI API key hasn't been configured yet. Please try again later or contact Tolu directly!"

  const GenericError: string := "Failed to get AI response"

  /** The failure branch of `handleSendMessage`. */
  function Failed(s: ChatState, err: RequestError, now: int): ChatState {
    s.(messages := s.messages + [AiMessage(FixedApology, now, now)],
       error := Some(DetailOrMessage(err, GenericError)),
       isLoading := false)
  }

  /** The input's `onChange`: only the text changes. */
  function InputChanged(s: ChatState, value: string): ChatState {
    s.(inputMessage := value)
  }

  /** The widget's state and the operations of AIChat.jsx on it. */
  class AIChat {
    var messages: seq<ChatMessage>
    var inputMessage: string
    var isLoading: bool
    var sessionId: Option<string>
    var error: Option<string>

    function State(): ChatState
      reads this
    {
      ChatState(messages, inputMessage, isLoading, sessionId, error)
    }

    /** The conversation is never empty. */
    ghost predicate Valid()
      reads this
    {
      NonEmptyConversation(State())
    }

    constructor (now: int)
      ensures Valid() && State() == Initial(Greeting, now)
    {
      messages := [ChatMessage(1, Ai, Greeting, now)];
      inputMessage := "";
      isLoading := false;
      sessionId := None;
      error := None;
    }

    method HandleInputChange(value: string)
      requires Valid()
      modifies this
      ensures Valid() && State() == InputChanged(old(State()), value)
    {
      inputMessage := value;
    }

    /** `handleSuggestionClick`: fills the input. */
    method HandleSuggestionClick(question: string)
      requires Valid()
      modifies this
      ensures Valid() && State() == old(State()).(inputMessage := question)
    {
      inputMessage := question;
    }

    /** The synchronous half of `handleSendMessage`, up to the network call;
        `req` is the request sent, if any. */
    method BeginSubmit(now: int) returns (req: Option<ChatRequest>)
      requires Valid()
      modifies this
      ensures Valid() && Submission(State(), req) == Submit(old(State()), now)
    {
      if IsBlank(inputMessage) {
        req := None;
        return;
      }
      error := None;
      messages := messages + [UserMessage(inputMessage, now)];
      req := Some(ChatRequest(inputMessage, sessionId));
      inputMessage := "";
      isLoading := true;
    }

    /** The rest of `handleSendMessage` when `req` was answered with `resp`. */
    method CompleteSuccess(req: ChatRequest, resp: ChatResponse, now: int, replyAt: int)
      requires Valid()
      modifies this
      ensures Valid() && State() == Replied(old(State()), req, resp, now, replyAt)
    {
      if !Truthy(req.sessionId) {
        sessionId := Some(resp.sessionId);
      }
      messages := messages + [AiMessage(resp.response, now, replyAt)];
      isLoading := false;
    }

    /** The rest of `handleSendMessage` when the request failed with `err`. */
    method CompleteFailure(err: RequestError, now: int)
      requires Valid()
      modifies this
      ensures Valid() && State() == Failed(old(State()), err, now)
    {
      messages := messages + [AiMessage(FixedApology, now, now)];
      error := Some(DetailOrMessage(err, GenericError));
      isLoading := false;
    }

    /** The mount effect that reads the slot. */
    method LoadSession(slot: SessionSlot)
      requires Valid()
      modifies this
      ensures Valid() && State() == Loaded(old(State()), slot.content)
    {
      match slot.content {
        case Some(Parsed(d)) =>
          if Truthy(d.sessionId) {
            sessionId := d.sessionId;
          }
          if d.messages.Some? && |d.messages.value| > 1 {
            messages := d.messages.value;
          }
        case _ =>
      }
    }

    /** The effect that runs whenever `messages` or `sessionId` change. */
    method SaveSession(slot: SessionSlot)
      modifies slot
      ensures slot.content == Saved(State(), old(slot.content))
    {
      if Truthy(sessionId) && |messages| > 1 {
        slot.content := Some(Parsed(SessionStorage(sessionId, Some(messages))));
      }
    }
  }

  // Properties of the AIChat.jsx policies

  /** Whatever the error, the conversation gets the same single apology and
      keeps its session id; only the display error differs. */
  lemma FailureNoticeIsFixed(s: ChatState, e1: RequestError, e2: RequestError, now: int)
    ensures Failed(s, e1, now).messages == Failed(s, e2, now).messages == s.messages + [AiMessage(FixedApology, now, now)]
    ensures Failed(s, e1, now).sessionId == s.sessionId
    ensures !Failed(s, e1, now).isLoading
  {
  }

  /** The display error is the detail, else the message, else the generic
      text, and it is never blank. */
  lemma DisplayErrorPrecedence(s: ChatState, err: RequestError, now: int)
    ensures var e := Failed(s, err, now).error.value;
      && (Truthy(Detail(err)) ==> e == Detail(err).value)
      && (!Truthy(Detail(err)) && Truthy(Message(err)) ==> e == Message(err).value)
      && (!Truthy(Detail(err)) && !Truthy(Message(err)) ==> e == GenericError)
      && e != ""
  {
  }

  /** Typing does not clear the error; only the next non-blank submit does. */
  lemma TypingKeepsError(s: ChatState, value: string, now: int)
    ensures InputChanged(s, value).error == s.error
    ensures !IsBlank(value) ==> Submit(InputChanged(s, value), now).state.error == None
  {
  }
}
