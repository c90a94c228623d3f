/** The data shapes the frontend exchanges with the backend, and the shape of
    the error a failed request hands to a `catch` block. */
module Types {
  import opened Base

  /** `type: 'user' | 'ai'` of a chat message (the field is called `kind`
      here because `type` is a Dafny keyword). */
  datatype MessageType = User | Ai

  /** One entry of the conversation; `id` and `timestamp` are milliseconds
      since the epoch, taken from the clock by the caller. */
  datatype ChatMessage = ChatMessage(id: int, kind: MessageType, content: string, timestamp: int)

  /** The body of `POST /api/chat`. */
  datatype ChatRequest = ChatRequest(message: string, sessionId: Option<string>)

  /** The body of a successful reply to `POST /api/chat`. */
  datatype ChatResponse = ChatResponse(response: string, sessionId: string, timestamp: string)

  /** The body of `POST /api/contact`. */
  datatype ContactForm = ContactForm(
    name: string,
    email: string,
    company: Option<string>,
    subject: string,
    message: string)

  /** The body of the reply to `POST /api/contact`. */
  datatype ContactResponse = ContactResponse(success: bool, messageId: Option<string>, error: Option<string>)

  /** The JSON record kept under the `aiChatSession` key of localStorage. */
  datatype SessionStorage = SessionStorage(sessionId: Option<string>, messages: Option<seq<ChatMessage>>)

  /** `error.response` of a rejected request: the HTTP status and the
      `detail` field of the JSON body, when there is one. */
  datatype ErrorResponse = ErrorResponse(status: int, detail: Option<string>)

  /** What a `catch` block receives: an `Error` object (with a `response`
      when the server answered, and a `message`), or a bare thrown string. */
  datatype RequestError =
    | Thrown(response: Option<ErrorResponse>, message: Option<string>)
    | ThrownString(text: string)

  /** `error?.response?.data?.detail`. */
  function Detail(err: RequestError): Option<string> {
    match err
    case Thrown(Some(r), _) => r.detail
    case _ => None
  }

  /** `error?.response?.status`. */
  function Status(err: RequestError): Option<int> {
    match err
    case Thrown(Some(r), _) => Some(r.status)
    case _ => None
  }

  /** `error?.message` (a thrown string has no `message` property). */
  function Message(err: RequestError): Option<string> {
    match err
    case Thrown(_, m) => m
    case ThrownString(_) => None
  }

  /** `error.response?.data?.detail || error.message || fallback`: the detail
      wins when there is one, else the message when there is one, else the
      fallback, and the text is never blank when the fallback is not. */
  function DetailOrMessage(err: RequestError, fallback: string): (r: string)
    ensures Truthy(Detail(err)) ==> r == Detail(err).value
    ensures !Truthy(Detail(err)) && Truthy(Message(err)) ==> r == Message(err).value
    ensures !Truthy(Detail(err)) && !Truthy(Message(err)) ==> r == fallback
    ensures r == fallback || r == Detail(err).GetOr("") || r == Message(err).GetOr("")
    ensures fallback != "" ==> r != ""
  {
    OrElse(Detail(err), OrElse(Message(err), fallback))
  }
}
