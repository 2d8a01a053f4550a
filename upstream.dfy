/**
 * What the relay and the browser service have in common: the shape of the
 * chat-completion request they build (each with its own guideline text), the
 * reply they get back (supplied as an input instead of performed over the
 * network) and the classification of that reply, which both files write out
 * identically.
 */
module Upstream {
  import opened Wrappers
  import opened Text

  /** A JSON value as it arrives in a parsed request body. */
  datatype JsonValue =
    | JNull
    | JBool(b: bool)
    | JNumber(x: real)
    | JString(s: string)
    | JArray(items: seq<JsonValue>)
    | JObject(fields: map<string, JsonValue>)

  /** JavaScript truthiness of a JSON value (JSON has no NaN). */
  predicate Truthy(v: JsonValue) {
    match v
    case JNull => false
    case JBool(b) => b
    case JNumber(x) => x != 0.0
    case JString(s) => s != ""
    case JArray(_) => true
    case JObject(_) => true
  }

  /** A value thrown in JavaScript: an `Error` (with its message) or anything else. */
  datatype Thrown = ErrorValue(message: string) | OtherValue

  /** How a promise settles: with a value, or rejected with a thrown value. */
  datatype Settled<T> = Fulfilled(value: T) | Rejected(reason: Thrown)

  /**
   * What the completion endpoint answers, as far as the classification looks
   * at it: a non-2xx status with the parsed body's `error.message`, a 2xx
   * status with the parsed body's `choices[0].message.content`, or a `fetch`
   * that rejected.
   */
  datatype Reply =
    | NotOk(errorMessage: Option<string>)
    | Ok(content: Option<string>)
    | TransportFailed(thrown: Thrown)

  datatype Role = System | User

  /**
   * Which fixed guideline text a system prompt uses: the relay's (server.js)
   * and the service's (paraphraseApi.ts) word several guidelines differently.
   */
  datatype Prompt = RelayGuidelines | ServiceGuidelines

  /**
   * The content of a chat message: one of the fixed guideline texts with the
   * three interpolated preferences, or a value sent as it is.
   */
  datatype Content =
    | Guidelines(prompt: Prompt, tone: JsonValue, lengthPreference: JsonValue, targetLanguage: JsonValue)
    | Verbatim(value: JsonValue)

  datatype Message = Message(role: Role, content: Content)

  /** A chat-completion POST: where it goes, its bearer token and its JSON body. */
  datatype ChatRequest = ChatRequest(
    url: string,
    bearer: string,
    model: string,
    messages: seq<Message>,
    temperature: real,
    maxTokens: nat)

  const ChatModel := "gpt-3.5-turbo"
  const Temperature: real := 0.7
  const MaxTokens: nat := 2048

  const RequestFailedMessage := "OpenAI API request failed"
  const InvalidFormatMessage := "Invalid response format from OpenAI API"

  /** The request both sides build: their guidelines as system message, then the text as user message. */
  function CompletionRequest(url: string, bearer: string, prompt: Prompt, text: JsonValue,
                             tone: JsonValue, lengthPreference: JsonValue, targetLanguage: JsonValue): ChatRequest
  {
    ChatRequest(url, bearer, ChatModel,
      [Message(System, Guidelines(prompt, tone, lengthPreference, targetLanguage)),
       Message(User, Verbatim(text))],
      Temperature, MaxTokens)
  }

  /** `errorData.error?.message || fallback` for a message that is a string or absent. */
  function MessageOr(m: Option<string>, fallback: string): string {
    if m.Some? && m.value != "" then m.value else fallback
  }

  /**
   * The body of the `try` block after `fetch`: a non-ok reply throws an `Error`
   * carrying the provider's message or the generic one, an ok reply without
   * content throws the format error, and content is returned trimmed.
   */
  function Classify(reply: Reply): (r: Settled<string>)
    ensures r.Fulfilled? <==> reply.Ok? && reply.content.Some? && reply.content.value != ""
    ensures r.Fulfilled? ==> r.value == Trim(reply.content.value)
    ensures reply.NotOk? ==> r == Rejected(ErrorValue(MessageOr(reply.errorMessage, RequestFailedMessage)))
    ensures reply.Ok? && r.Rejected? ==> r.reason == ErrorValue(InvalidFormatMessage)
    ensures reply.TransportFailed? ==> r == Rejected(reply.thrown)
  {
    match reply
    case TransportFailed(thrown) => Rejected(thrown)
    case NotOk(m) => Rejected(ErrorValue(MessageOr(m, RequestFailedMessage)))
    case Ok(content) =>
      if content.None? || content.value == "" then Rejected(ErrorValue(InvalidFormatMessage))
      else Fulfilled(Trim(content.value))
  }
}
