/** The backend's two handlers that carry rules: `POST /api/chat`
    (`chat_with_ai`) and `POST /api/contact` (`submit_contact_form`). The
    MongoDB collections they write are the fields of `Database`; the call to
    the language model is an input saying how it ended; fresh ids (uuid4) and
    the clock are inputs too. */
module Server {
  import opened Base
  import opened Types

  /** The pydantic `ChatResponse` of `chat_with_ai` before serialisation:
      its `timestamp` is still the server clock's value, which the client
      then receives as the ISO string of `Types.ChatResponse`. */
  datatype ChatReply = ChatReply(response: string, sessionId: string, timestamp: int)

  /** An `HTTPException`: the status and the `detail` the client receives. */
  datatype HttpError = HttpError(status: nat, detail: string)

  /** One entry of a session's stored history. */
  datatype StoredMessage = StoredMessage(role: string, content: string, timestamp: int)

  /** One entry of the prompt sent to the model. */
  datatype PromptMessage = PromptMessage(role: string, content: string)

  /** How the call to the model ended: an HTTP answer with its status and
      the reply text, or an exception raised before the history is saved
      (connection failure, timeout, a body without the expected fields) with
      its text. */
  datatype Upstream = Answered(status: nat, content: string) | Raised(text: string)

  const SystemPrompt: string :=
    "You are Tolu Shekoni's AI assistant. You represent Tolu, an AI Generalist and Full-Stack Developer who transitioned from 8+ years in pharmaceutical manufacturing to AI development. \n" +
    "\n" +
    "Key facts about Tolu:\n" +
    "- Expert in AI integration, LLM development, prompt engineering\n" +
    "- Full-stack developer (React, Next.js, Python, Rust/WASM, Node.js)\n" +
    "- Strong background in process optimization, Lean Six Sigma, data analytics\n" +
    "- Transitioned from biopharma operations to AI/tech\n" +
    "- Specializes in turning complex problems into elegant solutions\n" +
    "- Experience with cGMP, regulatory compliance, technical troubleshooting\n" +
    "- Passionate about automation, efficiency, and continuous improvement\n" +
    "\n" +
    "Answer questions about Tolu's background, skills, projects, and expertise. Be conversational, professional, and highlight his unique combination of operational excellence and AI development skills."

  /** How many stored entries of the history are replayed to the model. */
  const HistoryWindow: nat := 10

  const MissingKeyDetail: string := "Venice AI API key not configured"

  /** `chat_input.sessionId or str(uuid.uuid4())`. */
  function SessionIdFor(supplied: Option<string>, freshId: string): string {
    OrElse(supplied, freshId)
  }

  /** The stored history of a session; none for an unknown session. */
  function HistoryOf(sessions: map<string, seq<StoredMessage>>, sid: string): seq<StoredMessage> {
    if sid in sessions then sessions[sid] else []
  }

  function Min(a: nat, b: nat): nat {
    if a <= b then a else b
  }

  /** `conversation_history[-10:]`. */
  function Window(h: seq<StoredMessage>): seq<StoredMessage> {
    h[|h| - Min(HistoryWindow, |h|)..]
  }

  function Replayed(m: StoredMessage): PromptMessage {
    PromptMessage(m.role, m.content)
  }

  /** The prompt for `message` after `history`: the system prompt, the
      window of the history with each entry's role and content, the user's
      message. */
  function Prompt(history: seq<StoredMessage>, message: string): seq<PromptMessage> {
    var w := Window(history);
    [PromptMessage("system", SystemPrompt)]
      + seq(|w|, i requires 0 <= i < |w| => Replayed(w[i]))
      + [PromptMessage("user", message)]
  }

  /** The loop that assembles the `messages` list sent to the model. */
  method BuildPrompt(history: seq<StoredMessage>, message: string) returns (prompt: seq<PromptMessage>)
    ensures prompt == Prompt(history, message)
    ensures |prompt| <= HistoryWindow + 2
  {
    prompt := [PromptMessage("system", SystemPrompt)];
    var recent := Window(history);
    for i := 0 to |recent|
      invariant |prompt| == i + 1
      invariant prompt[0] == PromptMessage("system", SystemPrompt)
      invariant forall j :: 0 <= j < i ==> prompt[j + 1] == Replayed(recent[j])
    {
      prompt := prompt + [PromptMessage(recent[i].role, recent[i].content)];
    }
    prompt := prompt + [PromptMessage("user", message)];
    assert prompt == Prompt(history, message);
  }

  function DigitChar(d: nat): char
    requires d < 10
  {
    "0123456789"[d]
  }

  /** The decimal text of a number, as an f-string prints an int. */
  function Decimal(n: nat): string
    decreases n
  {
    if n < 10 then [DigitChar(n)] else Decimal(n / 10) + [DigitChar(n % 10)]
  }

  /** `str(e)` of an `HTTPException`, which Starlette renders as "<status>: <detail>". */
  function ExceptionText(e: HttpError): string {
    Decimal(e.status) + ": " + e.detail
  }

  const WrapPrefix: string := "Chat service error: "

  const UpstreamPrefix: string := "Venice AI API error: "

  /** What the `except Exception` clause of `chat_with_ai` raises. */
  function Wrapped(text: string): HttpError {
    HttpError(500, WrapPrefix + text)
  }

  /** The reply of `chat_with_ai` and the chat session collection after it. */
  datatype ChatTurn = ChatTurn(result: Result<ChatReply, HttpError>, sessions: map<string, seq<StoredMessage>>)

  /** `chat_with_ai` over the session collection `sessions`. */
  function HandleChat(apiKey: Option<string>, input: ChatRequest, freshId: string,
                      sessions: map<string, seq<StoredMessage>>, upstream: Upstream, now: int): ChatTurn
  {
    if !Truthy(apiKey) then ChatTurn(Err(HttpError(500, MissingKeyDetail)), sessions)
    else
      Concluded(sessions, SessionIdFor(input.sessionId, freshId), input.message, upstream, now)
  }

  /** The part of `chat_with_ai` after the model was called for `message` in
      session `sid`: the reply, and the history saved when the call succeeded. */
  function Concluded(sessions: map<string, seq<StoredMessage>>, sid: string, message: string,
                     upstream: Upstream, now: int): ChatTurn
  {
    match upstream
    case Raised(text) => ChatTurn(Err(Wrapped(text)), sessions)
    case Answered(status, content) =>
      if status != 200 then
        ChatTurn(Err(Wrapped(ExceptionText(HttpError(500, UpstreamPrefix + Decimal(status))))), sessions)
      else
        var turn := [StoredMessage("user", message, now), StoredMessage("ai", content, now)];
        ChatTurn(Ok(ChatReply(content, sid, now)), sessions[sid := HistoryOf(sessions, sid) + turn])
  }

  /** A document of the `contact_submissions` collection. */
  datatype ContactDoc = ContactDoc(
    id: string,
    name: string,
    email: string,
    company: Option<string>,
    subject: string,
    message: string,
    status: string,
    submittedAt: int)

  /** The document `submit_contact_form` builds for a submission. */
  function ContactDocFor(contact: ContactForm, freshId: string, now: int): ContactDoc {
    ContactDoc(freshId, contact.name, contact.email, contact.company, contact.subject, contact.message, "pending", now)
  }

  /** The reply of `submit_contact_form` and the collection after it. */
  datatype ContactOutcome = ContactOutcome(response: ContactResponse, stored: seq<ContactDoc>)

  /** `submit_contact_form` over the collection `stored`; `insertError` is
      the text of the exception the insert raised, if it raised one. */
  function SubmitContact(contact: ContactForm, freshId: string, now: int,
                         insertError: Option<string>, stored: seq<ContactDoc>): ContactOutcome
  {
    match insertError
    case Some(text) => ContactOutcome(ContactResponse(false, None, Some(text)), stored)
    case None => ContactOutcome(ContactResponse(true, Some(freshId), None), stored + [ContactDocFor(contact, freshId, now)])
  }

  /** The backend's MongoDB database: the chat sessions by session id, and
      the contact submissions in insertion order. */
  class Database {
    var chatSessions: map<string, seq<StoredMessage>>
    var contactSubmissions: seq<ContactDoc>

    /** Connecting to the database finds whatever earlier runs of the
        server stored in it. */
    constructor (sessions: map<string, seq<StoredMessage>>, contacts: seq<ContactDoc>)
      ensures chatSessions == sessions && contactSubmissions == contacts
    {
      chatSessions := sessions;
      contactSubmissions := contacts;
    }

    /** `chat_with_ai`; `prompt` is what was sent to the model, if anything was. */
    method ChatWithAi(apiKey: Option<string>, input: ChatRequest, freshId: string, upstream: Upstream, now: int)
      returns (prompt: Option<seq<PromptMessage>>, result: Result<ChatReply, HttpError>)
      modifies this
      ensures ChatTurn(result, chatSessions) == HandleChat(apiKey, input, freshId, old(chatSessions), upstream, now)
      ensures prompt.None? <==> !Truthy(apiKey)
      ensures prompt.Some? ==>
        prompt.value == Prompt(HistoryOf(old(chatSessions), SessionIdFor(input.sessionId, freshId)), input.message)
      ensures contactSubmissions == old(contactSubmissions)
    {
      if !Truthy(apiKey) {
        prompt, result := None, Err(HttpError(500, MissingKeyDetail));
        return;
      }
      var sessionId := SessionIdFor(input.sessionId, freshId);
      var history := HistoryOf(chatSessions, sessionId);
      var messages := BuildPrompt(history, input.message);
      prompt := Some(messages);
      result := Conclude(sessionId, input.message, upstream, now);
    }

    /** The rest of `chat_with_ai` once the model answered or failed: a
        successful answer is saved after the session's history. */
    method Conclude(sessionId: string, message: string, upstream: Upstream, now: int)
      returns (result: Result<ChatReply, HttpError>)
      modifies this
      ensures ChatTurn(result, chatSessions) == Concluded(old(chatSessions), sessionId, message, upstream, now)
      ensures contactSubmissions == old(contactSubmissions)
    {
      match upstream {
        case Raised(text) =>
          result := Err(Wrapped(text));
        case Answered(status, content) =>
          if status != 200 {
            var e := HttpError(500, UpstreamPrefix + Decimal(status));
            result := Err(Wrapped(ExceptionText(e)));
          } else {
            var history := HistoryOf(chatSessions, sessionId);
            var newMessages := history + [StoredMessage("user", message, now), StoredMessage("ai", content, now)];
            chatSessions := chatSessions[sessionId := newMessages];
            result := Ok(ChatReply(content, sessionId, now));
          }
      }
    }

    /** `submit_contact_form`. */
    method SubmitContactForm(contact: ContactForm, freshId: string, now: int, insertError: Option<string>)
      returns (response: ContactResponse)
      modifies this
      ensures ContactOutcome(response, contactSubmissions) == SubmitContact(contact, freshId, now, insertError, old(contactSubmissions))
      ensures chatSessions == old(chatSessions)
    {
      var doc := ContactDocFor(contact, freshId, now);
      if insertError.Some? {
        response := ContactResponse(false, None, Some(insertError.value));
        return;
      }
      contactSubmissions := contactSubmissions + [doc];
      response := ContactResponse(true, Some(doc.id), None);
    }
  }

  // Properties of `chat_with_ai`

  /** Without an API key the handler fails with 500 before it reads or
      writes any session. */
  lemma MissingKeyFailsFirst(apiKey: Option<string>, input: ChatRequest, freshId: string,
                             sessions: map<string, seq<StoredMessage>>, upstream: Upstream, now: int)
    requires !Truthy(apiKey)
    ensures HandleChat(apiKey, input, freshId, sessions, upstream, now) == ChatTurn(Err(HttpError(500, MissingKeyDetail)), sessions)
  {
  }

  /** The session used is the supplied one when it is truthy and the fresh
      one otherwise, and a successful reply echoes it. */
  lemma ReplyEchoesSession(apiKey: Option<string>, input: ChatRequest, freshId: string,
                           sessions: map<string, seq<StoredMessage>>, upstream: Upstream, now: int)
    ensures Truthy(input.sessionId) ==> SessionIdFor(input.sessionId, freshId) == input.sessionId.value
    ensures !Truthy(input.sessionId) ==> SessionIdFor(input.sessionId, freshId) == freshId
    ensures var r := HandleChat(apiKey, input, freshId, sessions, upstream, now).result;
      r.Ok? ==> r.value.sessionId == SessionIdFor(input.sessionId, freshId)
  {
  }

  /** The prompt is the system prompt, then the last min(10, |history|)
      entries in their order with their roles as stored, then the user's
      message: never more than 12 entries. */
  lemma PromptShape(history: seq<StoredMessage>, message: string)
    ensures var p := Prompt(history, message);
      var n := Min(HistoryWindow, |history|);
      && |p| == n + 2 <= 12
      && p[0] == PromptMessage("system", SystemPrompt)
      && p[|p| - 1] == PromptMessage("user", message)
      && forall j :: 1 <= j <= n ==>
           p[j] == PromptMessage(history[|history| - n + j - 1].role, history[|history| - n + j - 1].content)
  {
  }

  /** An answered call stores the user's message and the reply after the
      old history, a growth of exactly two, and touches no other session. */
  lemma AnswerAppendsTwo(apiKey: Option<string>, input: ChatRequest, freshId: string,
                         sessions: map<string, seq<StoredMessage>>, content: string, now: int)
    requires Truthy(apiKey)
    ensures var sid := SessionIdFor(input.sessionId, freshId);
      var after := HandleChat(apiKey, input, freshId, sessions, Answered(200, content), now).sessions;
      var h := HistoryOf(sessions, sid);
      && |HistoryOf(after, sid)| == |h| + 2
      && HistoryOf(after, sid)[..|h|] == h
      && HistoryOf(after, sid)[|h|] == StoredMessage("user", input.message, now)
      && HistoryOf(after, sid)[|h| + 1] == StoredMessage("ai", content, now)
      && after - {sid} == sessions - {sid}
  {
  }

  /** A non-200 answer, or an exception raised before the history is saved,
      leaves every history as it was and fails with 500 and a detail that
      starts "Chat service error: "; a non-200 status is quoted inside the
      re-wrapped upstream error. */
  lemma FailedCallLeavesHistory(apiKey: Option<string>, input: ChatRequest, freshId: string,
                                sessions: map<string, seq<StoredMessage>>, upstream: Upstream, now: int)
    requires Truthy(apiKey)
    requires !Succeeded(upstream)
    ensures var t := HandleChat(apiKey, input, freshId, sessions, upstream, now);
      && t.sessions == sessions
      && t.result.Err? && t.result.error.status == 500
      && t.result.error.detail[..|WrapPrefix|] == WrapPrefix
    ensures upstream.Answered? ==>
      HandleChat(apiKey, input, freshId, sessions, upstream, now).result.error.detail
        == WrapPrefix + "500: " + UpstreamPrefix + Decimal(upstream.status)
  {
    var t := HandleChat(apiKey, input, freshId, sessions, upstream, now);
    match upstream
    case Raised(text) =>
      assert t == ChatTurn(Err(Wrapped(text)), sessions);
      assert (WrapPrefix + text)[..|WrapPrefix|] == WrapPrefix;
    case Answered(status, _) =>
      var quoted := UpstreamPrefix + Decimal(status);
      var inner := ExceptionText(HttpError(500, quoted));
      assert t == ChatTurn(Err(Wrapped(inner)), sessions);
      assert (WrapPrefix + inner)[..|WrapPrefix|] == WrapPrefix;
      StatusText500(quoted);
  }

  /** The text of the 500 error raised for a non-200 status, as the
      `except` clause sees it. */
  lemma StatusText500(detail: string)
    ensures ExceptionText(HttpError(500, detail)) == "500: " + detail
  {
    assert Decimal(5) == "5";
    assert Decimal(50) == Decimal(5) + "0";
    assert Decimal(500) == "500";
  }

  /** A stored reply is replayed to the model with the role "ai" exactly as
      stored: the next prompt of that session ends with the previous
      question, the previous reply and the new message. */
  lemma AssistantTurnReplayedAsAi(apiKey: Option<string>, input: ChatRequest, freshId: string,
                                  sessions: map<string, seq<StoredMessage>>, content: string, now: int, next: string)
    requires Truthy(apiKey)
    ensures var sid := SessionIdFor(input.sessionId, freshId);
      var after := HandleChat(apiKey, input, freshId, sessions, Answered(200, content), now).sessions;
      var p := Prompt(HistoryOf(after, sid), next);
      && |p| >= 4
      && p[|p| - 3] == PromptMessage("user", input.message)
      && p[|p| - 2] == PromptMessage("ai", content)
      && p[|p| - 1] == PromptMessage("user", next)
  {
    var sid := SessionIdFor(input.sessionId, freshId);
    var after := HandleChat(apiKey, input, freshId, sessions, Answered(200, content), now).sessions;
    AnswerAppendsTwo(apiKey, input, freshId, sessions, content, now);
    PromptShape(HistoryOf(after, sid), next);
  }

  /** One exchange of a conversation held in a single session. */
  datatype Exchange = Exchange(message: string, upstream: Upstream, now: int)

  /** The session collection after the exchanges of a conversation in session `sid`. */
  function Converse(apiKey: Option<string>, sid: string, exchanges: seq<Exchange>,
                    sessions: map<string, seq<StoredMessage>>): map<string, seq<StoredMessage>>
    decreases |exchanges|
  {
    if exchanges == [] then sessions
    else
      var e := exchanges[0];
      Converse(apiKey, sid, exchanges[1..], HandleChat(apiKey, ChatRequest(e.message, Some(sid)), sid, sessions, e.upstream, e.now).sessions)
  }

  predicate Succeeded(u: Upstream) {
    u.Answered? && u.status == 200
  }

  /** The number of exchanges the model answered with status 200. */
  function Answers(exchanges: seq<Exchange>): nat
    decreases |exchanges|
  {
    if exchanges == [] then 0
    else (if Succeeded(exchanges[0].upstream) then 1 else 0) + Answers(exchanges[1..])
  }

  /** Over a whole conversation the session's history only grows, by two
      entries per answered exchange, and no other session changes. */
  lemma {:induction false} HistoryGrowsTwoPerAnswer(apiKey: Option<string>, sid: string, exchanges: seq<Exchange>,
                                                    sessions: map<string, seq<StoredMessage>>)
    requires Truthy(apiKey) && sid != ""
    ensures var after := Converse(apiKey, sid, exchanges, sessions);
      && |HistoryOf(after, sid)| == |HistoryOf(sessions, sid)| + 2 * Answers(exchanges)
      && HistoryOf(after, sid)[..|HistoryOf(sessions, sid)|] == HistoryOf(sessions, sid)
      && after - {sid} == sessions - {sid}
    decreases |exchanges|
  {
    if exchanges != [] {
      var e := exchanges[0];
      var input := ChatRequest(e.message, Some(sid));
      var mid := HandleChat(apiKey, input, sid, sessions, e.upstream, e.now).sessions;
      assert SessionIdFor(input.sessionId, sid) == sid;
      if Succeeded(e.upstream) {
        AnswerAppendsTwo(apiKey, input, sid, sessions, e.upstream.content, e.now);
      } else {
        FailedCallLeavesHistory(apiKey, input, sid, sessions, e.upstream, e.now);
      }
      HistoryGrowsTwoPerAnswer(apiKey, sid, exchanges[1..], mid);
      var after := Converse(apiKey, sid, exchanges, sessions);
      var h0, h1 := HistoryOf(sessions, sid), HistoryOf(mid, sid);
      assert HistoryOf(after, sid)[..|h1|] == h1;
      assert HistoryOf(after, sid)[..|h0|] == HistoryOf(after, sid)[..|h1|][..|h0|];
    }
  }

  // Properties of `submit_contact_form`

  /** The handler always answers: success with the stored document's id, or
      failure with the exception's text and nothing stored. */
  lemma ContactReplyShape(contact: ContactForm, freshId: string, now: int,
                          insertError: Option<string>, stored: seq<ContactDoc>)
    ensures var o := SubmitContact(contact, freshId, now, insertError, stored);
      && (o.response.success <==> insertError.None?)
      && (o.response.success ==>
            |o.stored| == |stored| + 1 && o.stored[..|stored|] == stored
            && o.response.messageId == Some(o.stored[|stored|].id) && o.response.error == None)
      && (!o.response.success ==>
            o.stored == stored && o.response.error == insertError && o.response.messageId == None)
  {
  }

  /** The stored document copies the five form fields and is "pending". */
  lemma StoredDocCopiesForm(contact: ContactForm, freshId: string, now: int)
    ensures var d := ContactDocFor(contact, freshId, now);
      && d.id == freshId && d.status == "pending" && d.submittedAt == now
      && ContactForm(d.name, d.email, d.company, d.subject, d.message) == contact
  {
  }
}
