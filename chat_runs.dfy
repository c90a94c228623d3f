/** Whole conversations: a run of turns, each one typing a text, submitting
    it, and receiving the backend's answer or an error, in either variant of
    the widget. The widget disables its input while a reply is pending, so
    the turns of a run do not overlap. */
module ChatRuns {
  import opened Base
  import opened Types
  import opened ChatCore
  import AIChatTsx
  import AIChatJsx

  datatype Variant = Tsx | Jsx

  /** How the pending request ended: an answer (with its parsed timestamp)
      or an error. */
  datatype Outcome = Answered(resp: ChatResponse, replyAt: int) | Rejected(err: RequestError)

  /** The user types `text` and submits it at `now`; the request ends as `outcome` at `later`. */
  datatype Turn = Turn(text: string, now: int, later: int, outcome: Outcome)

  function Typed(v: Variant, s: ChatState, text: string): ChatState {
    match v
    case Tsx => AIChatTsx.InputChanged(s, text)
    case Jsx => AIChatJsx.InputChanged(s, text)
  }

  function Failed(v: Variant, s: ChatState, err: RequestError, now: int): ChatState {
    match v
    case Tsx => AIChatTsx.Failed(s, err, now)
    case Jsx => AIChatJsx.Failed(s, err, now)
  }

  function PlayTurn(v: Variant, s: ChatState, t: Turn): ChatState {
    var sub := Submit(Typed(v, s, t.text), t.now);
    match sub.request
    case None => sub.state
    case Some(req) =>
      match t.outcome
      case Answered(resp, at) => Replied(sub.state, req, resp, t.later, at)
      case Rejected(err) => Failed(v, sub.state, err, t.later)
  }

  function Play(v: Variant, s: ChatState, turns: seq<Turn>): ChatState
    decreases |turns|
  {
    if turns == [] then s else Play(v, PlayTurn(v, s, turns[0]), turns[1..])
  }

  /** The number of turns whose text is not blank, that is, that reach the backend. */
  function Sent(turns: seq<Turn>): nat
    decreases |turns|
  {
    if turns == [] then 0 else (if IsBlank(turns[0].text) then 0 else 1) + Sent(turns[1..])
  }

  /** Typing changes only the input and, in the TSX variant, the error. */
  lemma TypedKeepsConversation(v: Variant, s: ChatState, text: string)
    ensures var r := Typed(v, s, text);
      r.messages == s.messages && r.sessionId == s.sessionId && r.isLoading == s.isLoading && r.inputMessage == text
  {
  }

  /** Either variant's failure appends one message, keeps the session id and
      ends loading. */
  lemma FailedAppendsNotice(v: Variant, s: ChatState, err: RequestError, now: int)
    ensures var r := Failed(v, s, err, now);
      |r.messages| == |s.messages| + 1 && s.messages <= r.messages && r.sessionId == s.sessionId && !r.isLoading
  {
  }

  /** One turn's effect on the conversation: a blank text leaves it alone,
      a sent one appends exactly two messages after the old ones. */
  lemma TurnMessages(v: Variant, s: ChatState, t: Turn)
    ensures var r := PlayTurn(v, s, t);
      && s.messages <= r.messages
      && (IsBlank(t.text) ==> r.messages == s.messages)
      && (!IsBlank(t.text) ==> |r.messages| == |s.messages| + 2)
  {
    var typed := Typed(v, s, t.text);
    TypedKeepsConversation(v, s, t.text);
    if !IsBlank(t.text) {
      SubmitAppendsUserMessage(typed, t.now);
      var sub := Submit(typed, t.now);
      var mid := sub.state;
      assert s.messages <= mid.messages;
      match t.outcome
      case Answered(resp, at) =>
        assert PlayTurn(v, s, t) == Replied(mid, sub.request.value, resp, t.later, at);
      case Rejected(err) =>
        FailedAppendsNotice(v, mid, err, t.later);
        assert PlayTurn(v, s, t) == Failed(v, mid, err, t.later);
    }
  }

  /** One turn's effect on the session id: a set one is kept, and a new one
      can only come from the turn's answer. */
  lemma TurnSession(v: Variant, s: ChatState, t: Turn)
    ensures var r := PlayTurn(v, s, t);
      && (IsBlank(t.text) ==> r.sessionId == s.sessionId)
      && (Truthy(s.sessionId) ==> r.sessionId == s.sessionId)
      && (r.sessionId == s.sessionId || (t.outcome.Answered? && r.sessionId == Some(t.outcome.resp.sessionId)))
  {
    var typed := Typed(v, s, t.text);
    TypedKeepsConversation(v, s, t.text);
    if !IsBlank(t.text) {
      SubmitAppendsUserMessage(typed, t.now);
      var sub := Submit(typed, t.now);
      match t.outcome
      case Answered(resp, at) =>
        ReplyAdoptsSessionOnlyWhenUnset(sub.state, sub.request.value, resp, t.later, at);
        assert PlayTurn(v, s, t) == Replied(sub.state, sub.request.value, resp, t.later, at);
      case Rejected(err) =>
        FailedAppendsNotice(v, sub.state, err, t.later);
        assert PlayTurn(v, s, t) == Failed(v, sub.state, err, t.later);
    }
  }

  /** One turn's effect on the loading flag: a blank text leaves it alone,
      a sent one ends with it off. */
  lemma TurnLoading(v: Variant, s: ChatState, t: Turn)
    ensures IsBlank(t.text) ==> PlayTurn(v, s, t).isLoading == s.isLoading
    ensures !IsBlank(t.text) ==> !PlayTurn(v, s, t).isLoading
  {
    TypedKeepsConversation(v, s, t.text);
    if !IsBlank(t.text) {
      var sub := Submit(Typed(v, s, t.text), t.now);
      match t.outcome
      case Answered(resp, at) =>
      case Rejected(err) =>
        FailedAppendsNotice(v, sub.state, err, t.later);
    }
  }

  /** Once a session id is set, no run of turns changes it, whatever ids the
      backend returns. */
  lemma {:induction false} PinnedSessionSurvives(v: Variant, s: ChatState, turns: seq<Turn>)
    requires Truthy(s.sessionId)
    ensures Play(v, s, turns).sessionId == s.sessionId
    decreases |turns|
  {
    if turns != [] {
      TurnSession(v, s, turns[0]);
      PinnedSessionSurvives(v, PlayTurn(v, s, turns[0]), turns[1..]);
    }
  }

  lemma PrefixTransitive<T>(a: seq<T>, b: seq<T>, c: seq<T>)
    requires a <= b && b <= c
    ensures a <= c
  {
    assert a == b[..|a|] && b == c[..|b|];
    assert b[..|a|] == c[..|a|];
  }

  /** A run only ever appends: the old conversation is a prefix of the new
      one, which is longer by exactly two messages per sent turn. */
  lemma {:induction false} ConversationOnlyGrows(v: Variant, s: ChatState, turns: seq<Turn>)
    ensures |Play(v, s, turns).messages| == |s.messages| + 2 * Sent(turns)
    ensures s.messages <= Play(v, s, turns).messages
    decreases |turns|
  {
    if turns != [] {
      var s1 := PlayTurn(v, s, turns[0]);
      TurnMessages(v, s, turns[0]);
      ConversationOnlyGrows(v, s1, turns[1..]);
      var r := Play(v, s1, turns[1..]);
      assert r == Play(v, s, turns);
      assert Sent(turns) == (if IsBlank(turns[0].text) then 0 else 1) + Sent(turns[1..]);
      PrefixTransitive(s.messages, s1.messages, r.messages);
    }
  }

  /** Some answer among `turns` carried the session id `sid`. */
  predicate SomeAnswerCarried(turns: seq<Turn>, sid: Option<string>) {
    exists i :: 0 <= i < |turns| && turns[i].outcome.Answered? && sid == Some(turns[i].outcome.resp.sessionId)
  }

  lemma CarriedByLaterTurn(turns: seq<Turn>, sid: Option<string>)
    requires turns != [] && SomeAnswerCarried(turns[1..], sid)
    ensures SomeAnswerCarried(turns, sid)
  {
    var i :| 0 <= i < |turns[1..]| && turns[1..][i].outcome.Answered? && sid == Some(turns[1..][i].outcome.resp.sessionId);
    assert turns[i + 1] == turns[1..][i];
  }

  /** The session id is never made up by the widget: after a run it is the
      one it started with or one that an answer of the run carried. */
  lemma {:induction false} SessionComesFromBackend(v: Variant, s: ChatState, turns: seq<Turn>)
    ensures var r := Play(v, s, turns);
      r.sessionId == s.sessionId || SomeAnswerCarried(turns, r.sessionId)
    decreases |turns|
  {
    if turns != [] {
      var s1 := PlayTurn(v, s, turns[0]);
      TurnSession(v, s, turns[0]);
      SessionComesFromBackend(v, s1, turns[1..]);
      var r := Play(v, s1, turns[1..]);
      assert r == Play(v, s, turns);
      if r.sessionId != s1.sessionId {
        CarriedByLaterTurn(turns, r.sessionId);
      } else if s1.sessionId != s.sessionId {
        assert turns[0].outcome.Answered? && r.sessionId == Some(turns[0].outcome.resp.sessionId);
        assert SomeAnswerCarried(turns, r.sessionId);
      }
    }
  }

  /** After any run that starts idle the widget is idle again. */
  lemma {:induction false} RunEndsIdle(v: Variant, s: ChatState, turns: seq<Turn>)
    requires !s.isLoading
    ensures !Play(v, s, turns).isLoading
    decreases |turns|
  {
    if turns != [] {
      TurnLoading(v, s, turns[0]);
      RunEndsIdle(v, PlayTurn(v, s, turns[0]), turns[1..]);
    }
  }

  /** The first answered turn of a fresh widget fixes the session id to the
      backend's, and the slot then holds seed, question and answer. */
  lemma FirstAnswerStartsSession(v: Variant, greeting: string, now: int, text: string, resp: ChatResponse,
                                 later: int, replyAt: int, slot: Option<Stored>)
    requires !IsBlank(text) && resp.sessionId != ""
    ensures var r := PlayTurn(v, Initial(greeting, now), Turn(text, now, later, Answered(resp, replyAt)));
      && r.sessionId == Some(resp.sessionId)
      && |r.messages| == 3
      && Saved(r, slot) == Some(Parsed(SessionStorage(Some(resp.sessionId), Some(r.messages))))
  {
  }

  /** The one-letter texts the race below types are sent. */
  lemma LettersAreNotBlank()
    ensures !IsBlank("a") && !IsBlank("b")
  {
    BlankIffAllWhitespace("a");
    assert !IsJsWhitespace("a"[0]);
    BlankIffAllWhitespace("b");
    assert !IsJsWhitespace("b"[0]);
  }

  /** Two submits that overlap, both made before any session id was known,
      can each adopt the id of their own answer: the second overwrites the
      first. Pinning therefore rests on one pending request at a time. */
  lemma OverlappingSubmitsCanRepin(greeting: string, now: int)
    ensures
      var s0 := AIChatTsx.InputChanged(Initial(greeting, now), "a");
      var sub1 := Submit(s0, now);
      var sub2 := Submit(AIChatTsx.InputChanged(sub1.state, "b"), now);
      var s3 := Replied(sub2.state, ChatRequest("a", None), ChatResponse("x", "first", ""), now, now);
      var s4 := Replied(s3, ChatRequest("b", None), ChatResponse("y", "second", ""), now, now);
      && sub1.request == Some(ChatRequest("a", None))
      && sub2.request == Some(ChatRequest("b", None))
      && s3.sessionId == Some("first") && s4.sessionId == Some("second")
  {
    var s0 := AIChatTsx.InputChanged(Initial(greeting, now), "a");
    LettersAreNotBlank();
    SubmitAppendsUserMessage(s0, now);
    var sub1 := Submit(s0, now);
    var t1 := AIChatTsx.InputChanged(sub1.state, "b");
    SubmitAppendsUserMessage(t1, now);
    var sub2 := Submit(t1, now);
    var s3 := Replied(sub2.state, ChatRequest("a", None), ChatResponse("x", "first", ""), now, now);
    ReplyAdoptsSessionOnlyWhenUnset(sub2.state, ChatRequest("a", None), ChatResponse("x", "first", ""), now, now);
    ReplyAdoptsSessionOnlyWhenUnset(s3, ChatRequest("b", None), ChatResponse("y", "second", ""), now, now);
  }
}
