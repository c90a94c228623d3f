# Portfolio chat widget, contact form and their backend handlers, in Dafny

This project models the parts of the portfolio site that hold state and rules:

- the **chat widget** (`AIChat`), which turns typed text into a conversation
  with the assistant backend. It appends the user's message optimistically,
  then appends either the reply or an error notice. It adopts the backend's
  session id and keeps the conversation in the `aiChatSession` localStorage
  slot. The repository has two variants: `AIChat.tsx` (mounted by `App.tsx`)
  and `AIChat.jsx` (mounted by `App.js`). They differ in how a failure is
  reported and in whether typing clears the displayed error;
- the **contact form** (`Contact.tsx` and `Contact.jsx`, identical logic). It is a small
  state machine over the form fields and the `isSubmitting`, `isSubmitted`
  and `error` flags;
- the backend's **`chat_with_ai`** (session id defaulting, the prompt
  window, the history update, error wrapping) and **`submit_contact_form`**.

Modules:

- `Base` (base.dfy): optional values, results, JavaScript/Python truthiness
  of strings, and ECMAScript `trim`.
- `Types` (types.dfy): the data shapes of `frontend/src/types/index.ts`. It
  also holds the shape of a failed request as a `catch` block sees it:
  `error.response.status`, `error.response.data.detail`, `error.message`,
  or a thrown string.
- `ChatCore` (chat_core.dfy): the widget state and the transitions both
  variants share. These are the first half of a submit, a successful reply,
  the save effect, the load effect, and the localStorage slot as a class.
- `AIChatTsx`, `AIChatJsx` (aichat_tsx.dfy, aichat_jsx.dfy): each variant's
  failure policy, its input handler, and the widget as a class `AIChat`
  whose fields are the React state. Each method is tied to the transition
  function it performs.
- `ChatRuns` (chat_runs.dfy): whole conversations of non-overlapping turns
  in either variant, with induction lemmas about them.
- `ContactFlow` (contact_flow.dfy): the contact form, as a class `Contact`
  and its transition functions.
- `Server` (server.py's handlers, server.dfy): a class `Database` holding the
  `chat_sessions` collection as a map from session id to history, and the
  `contact_submissions` collection as a sequence.

`handleSendMessage` awaits the network, so it is two transitions:
`BeginSubmit` returns the request it sends, or none for a blank input.
`CompleteSuccess(req, resp, …)` or `CompleteFailure(err, …)` then finishes
it. The request passed back in stands for the values the async callback
captured at submit time. This matters for the session id: the reply's id is
adopted when the id *captured at submit time* was unset. The widget disables
its input while a reply is pending, so turns never overlap.
`ChatRuns.OverlappingSubmitsCanRepin` shows what overlapping submits would do.

Inputs that stand for the environment:

- the clock (`Date.now()`, `new Date()`, `datetime.utcnow()`) is an integer `now`;
- the parsed reply timestamp is the integer `replyAt`;
- uuid4 values are the `freshId` arguments;
- the language-model call is an `Upstream` outcome: an HTTP status with text, or an exception raised before the history is saved;
- a failed MongoDB insert is the exception text `insertError`;
- `JSON.parse` either yields a session record or fails (`Stored.Unparsable`).

Behaviour worth noting:

- Assistant messages have the type `'ai'`, on the client and in the stored
  server history alike (AIChat.tsx:11, server.py:172).
- Session pinning rests on one pending request at a time. The success branch
  tests the session id captured when the request was sent, not the current
  one (see above).
- In the TSX variant the failure notice quotes the error's detail or
  message. That notice becomes an ordinary message and is saved with the
  conversation.
- The failure texts are chosen from the HTTP status, `detail` and `message`
  fields of the error. The two variants choose differently.
- A stored record with a truthy `sessionId` brings that id back even when it
  has no `messages`, or a list of at most one entry; the seed conversation
  then stays (AIChat.tsx:51-61, AIChat.jsx:35-45).
- A stored timestamp that does not parse makes an Invalid Date. It does not
  reject the snapshot.

## Model

| member | source | states |
|---|---|---|
| `Base.TrimStart` | frontend/src/components/AIChat.tsx:98 | what `trimStart` leaves is a suffix of the input, everything dropped is whitespace, and the rest does not start with whitespace |
| `Base.TrimEnd` | frontend/src/components/AIChat.tsx:98 | what `trimEnd` leaves is a prefix, everything dropped is whitespace, and the rest does not end with whitespace |
| `Base.BlankIffAllWhitespace` | frontend/src/components/AIChat.jsx:65 | the submit guard `!inputMessage.trim()` holds exactly when every character is ECMAScript whitespace |
| `Types.DetailOrMessage` | frontend/src/components/AIChat.jsx:115 | `detail \|\| message \|\| fallback`: a truthy detail wins, else a truthy message, else the fallback; never blank when the fallback is not |
| `ChatCore.Submit` | frontend/src/components/AIChat.tsx:96-119 | the synchronous half of `handleSendMessage`; its properties are `BlankSubmitIsNoOp` and `SubmitAppendsUserMessage` |
| `ChatCore.Replied` | frontend/src/components/AIChat.tsx:122-135 | the success branch for the request captured at submit time; its properties are `ReplyAdoptsSessionOnlyWhenUnset` and `SuccessfulTurnAddsTwo` |
| `ChatCore.Saved` | frontend/src/components/AIChat.tsx:78-86 | the save effect; its properties are `SaveOnlyStartedConversations`, `SaveThenLoadRestores` and `LoadThenSaveLeavesSlot` |
| `ChatCore.Loaded` | frontend/src/components/AIChat.tsx:47-65 | the load effect; its properties are `FailedLoadKeepsSeed`, `LoadAdoptsStoredSession`, `LoadKeepsConversationNonEmpty` and the round trips with `Saved` |
| `ChatCore.SessionSlot.constructor` | frontend/src/components/AIChat.tsx:47 | the `aiChatSession` slot holds what the browser had stored before the page loaded |
| `ChatCore.BlankSubmitIsNoOp` | frontend/src/components/AIChat.tsx:98 | a submit whose input is blank after trimming sends no request and changes no state |
| `ChatCore.SubmitAppendsUserMessage` | frontend/src/components/AIChat.tsx:100-119 | a non-blank submit appends one `user` message with the untrimmed input, clears input and error, sets loading, keeps the session id, and sends the input with the current session id |
| `ChatCore.ReplyAdoptsSessionOnlyWhenUnset` | frontend/src/components/AIChat.tsx:122-125 | on success the reply's session id is adopted exactly when the id captured at submit time was unset; a set one is kept |
| `ChatCore.SuccessfulTurnAddsTwo` | frontend/src/components/AIChat.tsx:103-135 | a successful turn appends the user message, then one `ai` message with `response.response`: exactly two new messages after the unchanged old ones; loading ends; a set session id stays |
| `ChatCore.SaveOnlyStartedConversations` | frontend/src/components/AIChat.tsx:78-86 | the slot is written only when the session id is truthy and there is more than the seed message, and then holds exactly that id and those messages |
| `ChatCore.FailedLoadKeepsSeed` | frontend/src/components/AIChat.tsx:46-65 | a missing or unparsable slot leaves a fresh widget unchanged; a record without messages, or with a list of at most one entry, leaves the seed-only conversation |
| `ChatCore.LoadAdoptsStoredSession` | frontend/src/components/AIChat.tsx:50-61 | a parsed record's truthy session id is adopted whether or not it has messages, a falsy one keeps the current id; the messages change only to a stored list of more than one entry, and then to exactly that list |
| `ChatCore.LoadKeepsConversationNonEmpty` | frontend/src/components/AIChat.tsx:50-61 | loading keeps the widget invariant that the conversation is not empty, and changes only the session id and the messages |
| `ChatCore.SaveThenLoadRestores` | frontend/src/components/AIChat.tsx:47-84 | what one page saves, a freshly mounted widget loads back: same session id, same messages |
| `ChatCore.LoadThenSaveLeavesSlot` | frontend/src/components/AIChat.tsx:47-86 | loading the slot into a fresh widget and saving right away leaves the slot exactly as it was, whatever it held |
| `AIChatTsx.FailureText` | frontend/src/components/AIChat.tsx:141-149 | the text of the failure notice; its order is proved in `FailureNoticePrecedence` |
| `AIChatTsx.DisplayError` | frontend/src/components/AIChat.tsx:162-166 | the display error by HTTP status; proved in `DisplayErrorByStatus` |
| `AIChatTsx.Failed` | frontend/src/components/AIChat.tsx:137-171 | the failure branch of this variant; its properties are `FailureNoticePrecedence` and `FailureKeepsSession` |
| `AIChatTsx.InputChanged` | frontend/src/components/AIChat.tsx:88-94 | `handleInputChange`; its property is `TypingClearsError` |
| `AIChatTsx.AIChat.constructor` | frontend/src/components/AIChat.tsx:8-20 | the widget starts with the seed greeting (id 1), empty input, not loading, no session id, no error |
| `AIChatTsx.AIChat.HandleInputChange` | frontend/src/components/AIChat.tsx:88-94 | the input takes the typed value and a truthy error is cleared; nothing else changes |
| `AIChatTsx.AIChat.HandleSuggestionClick` | frontend/src/components/AIChat.tsx:189-191 | a suggestion replaces the input and changes nothing else |
| `AIChatTsx.AIChat.BeginSubmit` | frontend/src/components/AIChat.tsx:96-119 | the new state and the request sent are those of `Submit`: no-op for blank input, else optimistic user append, cleared input and error, loading |
| `AIChatTsx.AIChat.CompleteSuccess` | frontend/src/components/AIChat.tsx:120-135 | the new state is `Replied`: session adopted only if unset at submit time, reply appended, loading off |
| `AIChatTsx.AIChat.CompleteFailure` | frontend/src/components/AIChat.tsx:137-171 | the new state is `Failed`: the notice appended, display error set, loading off |
| `AIChatTsx.AIChat.LoadSession` | frontend/src/components/AIChat.tsx:44-75 | the new state is `Loaded` from the slot |
| `AIChatTsx.AIChat.SaveSession` | frontend/src/components/AIChat.tsx:77-86 | the slot becomes `Saved` of the current state |
| `AIChatTsx.FailureNoticePrecedence` | frontend/src/components/AIChat.tsx:140-159 | the notice is the error text followed by " Please try again later or contact Tolu directly if the issue persists!"; the text is `detail`, else `message`, else a thrown string, else the default apology |
| `AIChatTsx.DisplayErrorByStatus` | frontend/src/components/AIChat.tsx:161-168 | the display error depends on the HTTP status alone: 504 and 503 each have their own text (both directions); anything else gives "Failed to get AI response" |
| `AIChatTsx.FailureKeepsSession` | frontend/src/components/AIChat.tsx:137-171 | a failure appends exactly one `ai` message, keeps the session id, records the display error and ends loading |
| `AIChatTsx.TypingClearsError` | frontend/src/components/AIChat.tsx:88-94 | after typing no truthy error remains, and only the input and the error may change |
| `AIChatJsx.Failed` | frontend/src/components/AIChat.jsx:103-118 | the failure branch of this variant; its properties are `FailureNoticeIsFixed` and `DisplayErrorPrecedence` |
| `AIChatJsx.InputChanged` | frontend/src/components/AIChat.jsx:276 | the input's `onChange`; its property is `TypingKeepsError` |
| `AIChatJsx.AIChat.constructor` | frontend/src/components/AIChat.jsx:6-18 | the widget starts with this variant's seed greeting (id 1) and otherwise empty state |
| `AIChatJsx.AIChat.HandleInputChange` | frontend/src/components/AIChat.jsx:276 | the input takes the typed value; the error is left alone |
| `AIChatJsx.AIChat.HandleSuggestionClick` | frontend/src/components/AIChat.jsx:136-138 | a suggestion replaces the input and changes nothing else |
| `AIChatJsx.AIChat.BeginSubmit` | frontend/src/components/AIChat.jsx:63-86 | the new state and the request sent are those of `Submit` |
| `AIChatJsx.AIChat.CompleteSuccess` | frontend/src/components/AIChat.jsx:88-101 | the new state is `Replied` |
| `AIChatJsx.AIChat.CompleteFailure` | frontend/src/components/AIChat.jsx:103-118 | the new state is this variant's `Failed`: fixed apology appended, display error by precedence, loading off |
| `AIChatJsx.AIChat.LoadSession` | frontend/src/components/AIChat.jsx:29-50 | the new state is `Loaded` from the slot |
| `AIChatJsx.AIChat.SaveSession` | frontend/src/components/AIChat.jsx:52-61 | the slot becomes `Saved` of the current state |
| `AIChatJsx.FailureNoticeIsFixed` | frontend/src/components/AIChat.jsx:106-114 | whatever the error, the conversation gets the same single apology message; the session id is kept and loading ends |
| `AIChatJsx.DisplayErrorPrecedence` | frontend/src/components/AIChat.jsx:115 | the display error is `detail`, else `message`, else "Failed to get AI response", and is never blank |
| `AIChatJsx.TypingKeepsError` | frontend/src/components/AIChat.jsx:63-67 | typing leaves the error as it was; only the next non-blank submit clears it |
| `ChatRuns.TurnMessages` | frontend/src/components/AIChat.tsx:96-159 | one turn in either variant: a blank text leaves the conversation as it was; a sent one keeps the old messages as a prefix and adds exactly two, answer or failure alike |
| `ChatRuns.TurnSession` | frontend/src/components/AIChat.tsx:96-125 | one turn: a blank text or a set session id leaves the id unchanged; a changed id can only be the one the turn's answer carried |
| `ChatRuns.TurnLoading` | frontend/src/components/AIChat.tsx:96-171 | one turn: a blank text leaves the loading flag alone; a sent one ends with it off, whether it was answered or failed |
| `ChatRuns.PinnedSessionSurvives` | frontend/src/components/AIChat.tsx:122-125 | once a session id is set, no run of turns changes it, whatever ids the backend returns |
| `ChatRuns.ConversationOnlyGrows` | frontend/src/components/AIChat.tsx:110-159 | over any run the old conversation is a prefix of the new one, which is longer by exactly two per sent turn |
| `ChatRuns.SessionComesFromBackend` | frontend/src/components/AIChat.jsx:88-91 | after any run the session id is the starting one or one that some answer of the run carried; the widget never invents one |
| `ChatRuns.RunEndsIdle` | frontend/src/components/AIChat.tsx:169-171 | a run that starts idle ends idle |
| `ChatRuns.FirstAnswerStartsSession` | frontend/src/components/AIChat.tsx:78-135 | the first answered turn of a fresh widget gives three messages, the backend's session id, and a saved slot holding both |
| `ChatRuns.OverlappingSubmitsCanRepin` | frontend/src/components/AIChat.tsx:116-125 | two overlapping submits made before any id was known each adopt their own answer's id, so the later one overwrites the first |
| `ContactFlow.Changed` | frontend/src/components/Contact.jsx:17-22 | `handleChange`; its property is `ChangeTouchesOneField` |
| `ContactFlow.Submitting` | frontend/src/components/Contact.jsx:24-27 | the start of `handleSubmit`; its property is `SubmitStartsClean` |
| `ContactFlow.Responded` | frontend/src/components/Contact.jsx:32-54 | `handleSubmit` after a reply; its properties are `AcceptedMarksSubmitted`, `RefusedReportsError` and `SubmittingEndsAfterEveryOutcome` |
| `ContactFlow.Raised` | frontend/src/components/Contact.jsx:49-54 | `handleSubmit` after a failed request; its properties are `RaisedReportsError` and `SubmittingEndsAfterEveryOutcome` |
| `ContactFlow.ResetForm` | frontend/src/components/Contact.jsx:36-45 | the delayed reset; its properties are `ResetClearsForm` and `SuccessfulRoundTripStartsOver` |
| `ContactFlow.Contact.constructor` | frontend/src/components/Contact.tsx:7-16 | the form starts with five empty fields, not submitting, not submitted, no error |
| `ContactFlow.Contact.HandleChange` | frontend/src/components/Contact.tsx:18-23 | the new state is `Changed`: one field overwritten |
| `ContactFlow.Contact.BeginSubmit` | frontend/src/components/Contact.tsx:25-31 | `isSubmitting` is set and the error cleared before the request; the request is the form as it was |
| `ContactFlow.Contact.CompleteResponse` | frontend/src/components/Contact.tsx:33-55 | the new state is `Responded`: marked submitted on success, else the server's error or the default; submitting ends |
| `ContactFlow.Contact.CompleteError` | frontend/src/components/Contact.tsx:50-55 | the new state is `Raised`: error by precedence, submitting ends |
| `ContactFlow.Contact.ResetAfterSuccess` | frontend/src/components/Contact.tsx:37-46 | the new state is `ResetForm`: all five fields empty, not submitted |
| `ContactFlow.ChangeTouchesOneField` | frontend/src/components/Contact.jsx:17-22 | the named field takes the value, every other field and every flag is unchanged |
| `ContactFlow.SubmitStartsClean` | frontend/src/components/Contact.jsx:24-27 | a submit starts with `isSubmitting` set and no error, form and submitted mark unchanged |
| `ContactFlow.AcceptedMarksSubmitted` | frontend/src/components/Contact.jsx:32-33 | a reply with `success` true marks the form submitted and sets no error |
| `ContactFlow.RefusedReportsError` | frontend/src/components/Contact.jsx:46-47 | a reply with `success` false shows `response.error`, else "Failed to send message", and leaves the submitted mark alone |
| `ContactFlow.RaisedReportsError` | frontend/src/components/Contact.jsx:49-51 | a failed request shows `detail`, else `message`, else "Failed to send message", never blank |
| `ContactFlow.SubmittingEndsAfterEveryOutcome` | frontend/src/components/Contact.jsx:52-54 | after every outcome `isSubmitting` is false |
| `ContactFlow.ResetClearsForm` | frontend/src/components/Contact.jsx:36-45 | the delayed reset empties all five fields and clears `isSubmitted` |
| `ContactFlow.SuccessfulRoundTripStartsOver` | frontend/src/components/Contact.tsx:25-56 | submit, success and reset bring any form back to the state of a freshly mounted one |
| `Server.SessionIdFor` | backend/server.py:101 | the supplied id or a fresh one; its property is `ReplyEchoesSession` |
| `Server.Prompt` | backend/server.py:111-141 | the reference prompt; its shape is `PromptShape`, and `BuildPrompt` is proved equal to it |
| `Server.HandleChat` | backend/server.py:93-195 | `chat_with_ai` over the session collection; its properties are `MissingKeyFailsFirst`, `ReplyEchoesSession`, `AnswerAppendsTwo`, `FailedCallLeavesHistory`, `AssistantTurnReplayedAsAi` and `HistoryGrowsTwoPerAnswer` |
| `Server.Concluded` | backend/server.py:163-195 | the part after the model call; its properties are `AnswerAppendsTwo` and `FailedCallLeavesHistory` through `HandleChat` |
| `Server.ContactDocFor` | backend/server.py:203-212 | the stored contact document; its property is `StoredDocCopiesForm` |
| `Server.SubmitContact` | backend/server.py:201-230 | `submit_contact_form` over the collection; its property is `ContactReplyShape` |
| `Server.BuildPrompt` | backend/server.py:111-141 | the loop builds exactly the reference prompt `Prompt(history, message)`, at most 12 entries |
| `Server.PromptShape` | backend/server.py:111-141 | the prompt is the system prompt, then the last min(10, \|history\|) entries in order with their stored roles, then the user's message: length min(10, \|history\|) + 2 ≤ 12 |
| `Server.Database.constructor` | backend/server.py:23-26 | the collections hold what the database already held, so a stored session id finds its earlier history |
| `Server.Database.ChatWithAi` | backend/server.py:93-195 | result and new session collection are `HandleChat`; the model is called, with the prompt for the session's stored history, exactly when a key is configured; contacts untouched |
| `Server.Database.Conclude` | backend/server.py:163-191 | result and new session collection are `Concluded`: an exception or a non-200 status fails and leaves the histories alone; an answer is saved after the session's history and echoed with the session id |
| `Server.Database.SubmitContactForm` | backend/server.py:197-230 | reply and new contact collection are `SubmitContact`; chat sessions untouched |
| `Server.MissingKeyFailsFirst` | backend/server.py:97-98 | without a truthy API key the reply is 500 "Venice AI API key not configured" and no session is read or written |
| `Server.ReplyEchoesSession` | backend/server.py:101-191 | the session id is the supplied one when truthy, else the fresh one, and a successful reply echoes it |
| `Server.AnswerAppendsTwo` | backend/server.py:169-186 | an answered call stores the old history followed by the user message and the `ai` reply (growth of exactly two, prefix unchanged); no other session changes |
| `Server.FailedCallLeavesHistory` | backend/server.py:163-195 | a non-200 status or an exception raised before the history is saved leaves every history unchanged and fails with 500 and a detail starting "Chat service error: "; for a status s it is "Chat service error: 500: Venice AI API error: s" |
| `Server.AssistantTurnReplayedAsAi` | backend/server.py:130-172 | after an answered call, the next prompt of that session ends with the previous question, the reply with role "ai" as stored, and the new message |
| `Server.HistoryGrowsTwoPerAnswer` | backend/server.py:104-186 | over a conversation in one session the history only grows, by exactly two per answered exchange, and other sessions stay unchanged |
| `Server.ContactReplyShape` | backend/server.py:201-230 | the handler always answers: success exactly when the insert did not raise, then with `messageId` equal to the stored document's `_id`; otherwise the exception text, no id, nothing stored |
| `Server.StoredDocCopiesForm` | backend/server.py:203-214 | the stored document has the fresh id, copies the five form fields and has status "pending" |

## Left out

- Markup, styling, minimising the widget, and scrolling are not modelled, because they are presentation. This includes the `isMinimized` flag, which hides the whole chat body (message list and input; AIChat.tsx:222-231, AIChat.jsx:169-178), and the `isInitialLoad` and `hasLoadedFromStorage` flags, which gate the scroll effect (AIChat.tsx:34).
- `formatTime` (`Intl.DateTimeFormat`) and DOMPurify sanitising are not modelled: one is locale formatting, the other a foreign library.
- The timers become explicit events: the 100 ms delayed load is `LoadSession`, and the 3 s contact reset is `ResetAfterSuccess`. The 50 ms scroll delay is presentation.
- The axios wrappers in `services/api.ts` and `services/api.js` are not modelled. A request is an abstract call that answers or fails.
- Clock values and uuid4 are inputs. Timestamps are integers, and the ISO-8601 round trip through JSON is treated as the identity. Invalid dates are not modelled.
- `JSON.parse` is modelled only as "parses to a session record" or "fails". A parsed value of the wrong shape is not modelled. Examples are `null`, or a non-list `messages`. In the source these throw inside the `try`, possibly after the session id was already adopted.
- A model reply whose `choices[0].message.content` is not a string (JSON `null`, say) is not modelled. The source saves it to the history (server.py:175) and then fails building `ChatResponse` (server.py:188), so the client gets a 500 although its history grew by two. `Upstream.Answered` carries only a string.
- A `detail` that is not a string is not modelled. FastAPI's 422 validation errors carry a list there. Nor is a `catch` of `null`, which throws inside the JSX variant's handler.
- Pydantic validation, including `EmailStr` and the 422 path, is library behaviour and is not modelled.
- MongoDB failures in `find_one` and `update_one` are not modelled. Only the model call's outcome and the contact insert's outcome are inputs. A duplicate `_id` is one of the insert errors.
- A successful chat turn reads the clock five times: the two message timestamps, `updatedAt`, `createdAt`, and the reply's default `timestamp` (server.py:51, 171-183). The model uses one `now` for the two message timestamps and the reply's timestamp. `updatedAt` and `createdAt` are not modelled.
- The model call's request parameters are not modelled: model name, temperature, token limit and headers.
- `send_contact_email` and SMTP are not modelled. They catch their own errors, so they never change the reply. Logging, CORS, and the `/api/status` and root routes are outside the core.
- Concurrent requests on the server are not modelled. On the client, overlapping submits appear only in `ChatRuns.OverlappingSubmitsCanRepin`.
- `str(e)` of an `HTTPException` is taken to be Starlette's "<status>: <detail>".
