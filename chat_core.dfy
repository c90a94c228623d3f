/** The state of the chat widget and the transitions that both variants of
    the widget (AIChat.tsx and AIChat.jsx) perform identically: the first
    half of a submit, a successful reply, and the two localStorage effects. */
module ChatCore {
  import opened Base
  import opened Types

  /** The React state of the widget that the logic reads and writes. */
  datatype ChatState = ChatState(
    messages: seq<ChatMessage>,
    inputMessage: string,
    isLoading: bool,
    sessionId: Option<string>,
    error: Option<string>)

  /** A freshly mounted widget: the seed greeting (id 1) and nothing else. */
  function Initial(greeting: string, now: int): ChatState {
    ChatState([ChatMessage(1, Ai, greeting, now)], "", false, None, None)
  }

  /** The state after the first, synchronous half of `handleSendMessage`,
      and the request it sends (none when the input is blank). */
  datatype Submission = Submission(state: ChatState, request: Option<ChatRequest>)

  function UserMessage(content: string, now: int): ChatMessage {
    ChatMessage(now, User, content, now)
  }

  function AiMessage(content: string, now: int, at: int): ChatMessage {
    ChatMessage(now + 1, Ai, content, at)
  }

  /** Guard on the trimmed input, then the optimistic append of the user's
      text as typed, the cleared input and error, and the loading flag. The
      request carries the text and the session id of this moment. */
  function Submit(s: ChatState, now: int): Submission {
    if IsBlank(s.inputMessage) then Submission(s, None)
    else
      Submission(
        s.(messages := s.messages + [UserMessage(s.inputMessage, now)],
           inputMessage := "",
           isLoading := true,
           error := None),
        Some(ChatRequest(s.inputMessage, s.sessionId)))
  }

  /** The success branch of `handleSendMessage` for the request `req`: the
      session id is adopted when the one captured at submit time was unset,
      and the reply is appended. `now` is the clock at completion and
      `replyAt` the parsed `response.timestamp`. */
  function Replied(s: ChatState, req: ChatRequest, resp: ChatResponse, now: int, replyAt: int): ChatState {
    s.(sessionId := if Truthy(req.sessionId) then s.sessionId else Some(resp.sessionId),
       messages := s.messages + [AiMessage(resp.response, now, replyAt)],
       isLoading := false)
  }

  /** The content of the `aiChatSession` slot: text that `JSON.parse` turns
      into a session record, or text it rejects. */
  datatype Stored = Parsed(data: SessionStorage) | Unparsable

  /** The widget's invariant: the conversation always holds at least one
      message, the seed or what replaced it. */
  predicate NonEmptyConversation(s: ChatState) {
    |s.messages| >= 1
  }

  /** The save effect: it writes only once a session id is known and the
      conversation holds more than the seed. */
  function Saved(s: ChatState, slot: Option<Stored>): Option<Stored> {
    if Truthy(s.sessionId) && |s.messages| > 1 then Some(Parsed(SessionStorage(s.sessionId, Some(s.messages))))
    else slot
  }

  /** The load effect: a truthy stored session id is adopted, and the
      messages are replaced only by a stored list of more than one entry; a
      missing or unparsable slot changes nothing. */
  function Loaded(s: ChatState, slot: Option<Stored>): ChatState {
    match slot
    case None => s
    case Some(Unparsable) => s
    case Some(Parsed(d)) =>
      s.(sessionId := if Truthy(d.sessionId) then d.sessionId else s.sessionId,
         messages := if d.messages.Some? && |d.messages.value| > 1 then d.messages.value else s.messages)
  }

  /** The browser's localStorage entry `aiChatSession`, which outlives a page
      load and is shared by both variants of the widget. */
  class SessionSlot {
    var content: Option<Stored>

    constructor (initial: Option<Stored>)
      ensures content == initial
    {
      content := initial;
    }
  }

  // Properties of the shared transitions

  /** A submit whose input is blank once trimmed sends nothing and changes nothing. */
  lemma BlankSubmitIsNoOp(s: ChatState, now: int)
    requires IsBlank(s.inputMessage)
    ensures Submit(s, now) == Submission(s, None)
  {
  }

  /** A non-blank submit appends exactly one user message holding the
      untrimmed input, clears input and error, sets loading, and sends the
      input with the current session id. */
  lemma SubmitAppendsUserMessage(s: ChatState, now: int)
    requires !IsBlank(s.inputMessage)
    ensures var r := Submit(s, now).state;
      && |r.messages| == |s.messages| + 1
      && r.messages[..|s.messages|] == s.messages
      && r.messages[|s.messages|].kind == User
      && r.messages[|s.messages|].content == s.inputMessage
      && r.inputMessage == "" && r.isLoading && r.error == None
      && r.sessionId == s.sessionId
    ensures Submit(s, now).request == Some(ChatRequest(s.inputMessage, s.sessionId))
  {
  }

  /** On success the session id is taken from the reply only when none was
      set at submit time; a set one is never overwritten. */
  lemma ReplyAdoptsSessionOnlyWhenUnset(s: ChatState, req: ChatRequest, resp: ChatResponse, now: int, replyAt: int)
    ensures Truthy(req.sessionId) ==> Replied(s, req, resp, now, replyAt).sessionId == s.sessionId
    ensures !Truthy(req.sessionId) ==> Replied(s, req, resp, now, replyAt).sessionId == Some(resp.sessionId)
  {
  }

  /** A full successful turn grows the conversation by exactly two: the
      user's text, then the reply; the earlier messages stay in place, and a
      session id that was set stays. */
  lemma SuccessfulTurnAddsTwo(s: ChatState, now: int, resp: ChatResponse, later: int, replyAt: int)
    requires !IsBlank(s.inputMessage)
    ensures var sub := Submit(s, now);
      var r := Replied(sub.state, sub.request.value, resp, later, replyAt);
      && |r.messages| == |s.messages| + 2
      && r.messages[..|s.messages|] == s.messages
      && r.messages[|s.messages|] == UserMessage(s.inputMessage, now)
      && r.messages[|s.messages| + 1].kind == Ai
      && r.messages[|s.messages| + 1].content == resp.response
      && !r.isLoading
      && (Truthy(s.sessionId) ==> r.sessionId == s.sessionId)
  {
  }

  /** The slot is written only when a session id is set and the conversation
      has more than the seed, and then it holds exactly those two. */
  lemma SaveOnlyStartedConversations(s: ChatState, slot: Option<Stored>)
    ensures Saved(s, slot) != slot ==> Truthy(s.sessionId) && |s.messages| > 1
    ensures Truthy(s.sessionId) && |s.messages| > 1 ==>
      Saved(s, slot) == Some(Parsed(SessionStorage(s.sessionId, Some(s.messages))))
  {
  }

  /** A missing or unparsable slot, or a record without messages or with a
      list of at most one entry, leaves the seed-only conversation of a fresh
      widget. */
  lemma FailedLoadKeepsSeed(greeting: string, now: int, slot: Option<Stored>)
    requires || slot.None? || slot == Some(Unparsable)
             || (slot.value.Parsed? && (slot.value.data.messages.None? || |slot.value.data.messages.value| <= 1))
    ensures Loaded(Initial(greeting, now), slot).messages == [ChatMessage(1, Ai, greeting, now)]
    ensures slot.None? || slot == Some(Unparsable) ==> Loaded(Initial(greeting, now), slot) == Initial(greeting, now)
  {
  }

  /** A parsed record brings back its session id whenever that id is
      truthy, with or without messages, and the conversation is replaced
      only by a stored list of more than one entry. */
  lemma LoadAdoptsStoredSession(s: ChatState, d: SessionStorage)
    ensures Loaded(s, Some(Parsed(d))).sessionId == (if Truthy(d.sessionId) then d.sessionId else s.sessionId)
    ensures Loaded(s, Some(Parsed(d))).messages != s.messages ==> d.messages.Some? && |d.messages.value| > 1
    ensures d.messages.Some? && |d.messages.value| > 1 ==> Loaded(s, Some(Parsed(d))).messages == d.messages.value
  {
  }

  /** Loading keeps the widget's invariant that the conversation is not
      empty, and it changes nothing but the session id and the messages.
      The seed itself can be replaced by a stored conversation, so
      non-emptiness is what remains of it. */
  lemma LoadKeepsConversationNonEmpty(s: ChatState, slot: Option<Stored>)
    requires NonEmptyConversation(s)
    ensures NonEmptyConversation(Loaded(s, slot))
    ensures Loaded(s, slot).inputMessage == s.inputMessage
    ensures Loaded(s, slot).isLoading == s.isLoading && Loaded(s, slot).error == s.error
  {
  }

  /** Saving what a previous page saved restores it: a fresh widget that
      loads the slot has the saved session id and the saved messages. */
  lemma SaveThenLoadRestores(s: ChatState, slot: Option<Stored>, greeting: string, now: int)
    requires Truthy(s.sessionId) && |s.messages| > 1
    ensures Loaded(Initial(greeting, now), Saved(s, slot)).sessionId == s.sessionId
    ensures Loaded(Initial(greeting, now), Saved(s, slot)).messages == s.messages
  {
  }

  /** Loading the slot into a fresh widget and saving right away leaves the
      slot exactly as it was, whatever it held. */
  lemma LoadThenSaveLeavesSlot(greeting: string, now: int, slot: Option<Stored>)
    ensures Saved(Loaded(Initial(greeting, now), slot), slot) == slot
  {
  }
}
