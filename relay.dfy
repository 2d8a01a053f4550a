/**
 * The relay's `POST /api/paraphrase` handler (server.js) as a total function
 * of the parsed request body, the configured API key and the provider's
 * reply. Its result records whether the provider was called, with which
 * request, and the HTTP response the handler sends.
 */
module Relay {
  import opened Wrappers
  import opened Text
  import opened Upstream

  /** The four fields the handler destructures from `req.body`; `None` is `undefined`. */
  datatype RequestBody = RequestBody(
    text: Option<JsonValue>,
    targetLanguage: Option<JsonValue>,
    tone: Option<JsonValue>,
    lengthPreference: Option<JsonValue>)

  /** The JSON bodies the handler sends: `{error}` or `{paraphrasedText}`. */
  datatype ResponseBody = ErrorBody(error: string) | ParaphrasedBody(paraphrasedText: string)

  datatype Response = Response(status: nat, body: ResponseBody)

  /** One handled request: the provider call made (if any) and the response sent. */
  datatype Exchange = Exchange(sent: Option<ChatRequest>, response: Response)

  const ProviderUrl := "https://api.openai.com/v1/chat/completions"
  const MissingFieldsMessage := "Missing required fields"
  const NoKeyMessage := "OpenAI API key not configured"
  const HandlerFallbackMessage := "Failed to paraphrase text"
  const InternalErrorMessage := "Internal Server Error"

  /** The field exists and is truthy. */
  predicate Present(f: Option<JsonValue>) {
    f.Some? && Truthy(f.value)
  }

  predicate HasAllFields(b: RequestBody) {
    Present(b.text) && Present(b.targetLanguage) && Present(b.tone) && Present(b.lengthPreference)
  }

  /** `process.env.OPENAI_API_KEY` is set to a non-empty string. */
  predicate Configured(apiKey: Option<string>) {
    apiKey.Some? && apiKey.value != ""
  }

  /** The handler's `catch`: every thrown value becomes a 500 with an error message. */
  function CatchResponse(thrown: Thrown): (r: Response)
    ensures r.status == 500 && r.body.ErrorBody?
  {
    Response(500, ErrorBody(if thrown.ErrorValue? then thrown.message else HandlerFallbackMessage))
  }

  /** The application-wide error middleware registered after all routes. */
  function ErrorMiddleware(thrown: Thrown): (r: Response)
    ensures r.status == 500 && r.body.ErrorBody?
  {
    Response(500, ErrorBody(if thrown.ErrorValue? then thrown.message else InternalErrorMessage))
  }

  /** `POST /api/paraphrase`. */
  function HandleParaphrase(body: RequestBody, apiKey: Option<string>, reply: Reply): (x: Exchange)
    ensures x.response.status == 200 || x.response.status == 400 || x.response.status == 500
    ensures x.response.status == 200 <==> x.response.body.ParaphrasedBody?
    ensures x.response.status == 400 <==> !HasAllFields(body)
    ensures x.sent.Some? <==> HasAllFields(body) && Configured(apiKey)
    ensures x.sent.Some? ==>
      && x.sent.value.url == ProviderUrl
      && x.sent.value.bearer == apiKey.value
      && x.sent.value.model == ChatModel
      && x.sent.value.maxTokens == MaxTokens
      && x.sent.value.messages
         == [Message(System, Guidelines(RelayGuidelines, body.tone.value, body.lengthPreference.value, body.targetLanguage.value)),
             Message(User, Verbatim(body.text.value))]
  {
    if !HasAllFields(body) then
      Exchange(None, Response(400, ErrorBody(MissingFieldsMessage)))
    else if !Configured(apiKey) then
      Exchange(None, Response(500, ErrorBody(NoKeyMessage)))
    else
      var request := CompletionRequest(ProviderUrl, apiKey.value, RelayGuidelines, body.text.value,
                                       body.tone.value, body.lengthPreference.value, body.targetLanguage.value);
      var response :=
        match Classify(reply)
        case Fulfilled(text) => Response(200, ParaphrasedBody(text))
        case Rejected(thrown) => CatchResponse(thrown);
      Exchange(Some(request), response)
  }

  /** A missing or falsy field is answered 400 before the key is looked at, whatever the provider would say. */
  lemma MissingFieldsComeFirst(body: RequestBody, apiKey: Option<string>, reply: Reply)
    requires !HasAllFields(body)
    ensures HandleParaphrase(body, apiKey, reply) == Exchange(None, Response(400, ErrorBody(MissingFieldsMessage)))
  {
  }

  /** With all fields but no key the answer is a 500 and the provider is not called. */
  lemma MissingKeyComesSecond(body: RequestBody, apiKey: Option<string>, reply: Reply)
    requires HasAllFields(body) && !Configured(apiKey)
    ensures HandleParaphrase(body, apiKey, reply) == Exchange(None, Response(500, ErrorBody(NoKeyMessage)))
  {
  }

  /**
   * A provider failure is always answered 500, never with the provider's own
   * status, and carries the provider's message or the generic one.
   */
  lemma ProviderStatusNotPropagated(body: RequestBody, apiKey: Option<string>, m: Option<string>)
    requires HasAllFields(body) && Configured(apiKey)
    ensures var r := HandleParaphrase(body, apiKey, NotOk(m)).response;
      && r.status == 500
      && r.body == ErrorBody(if m.Some? && m.value != "" then m.value else RequestFailedMessage)
      && r.body.error != ""
  {
  }

  /** The relay answers 200 exactly for non-empty content, and then with that content trimmed. */
  lemma SuccessIsTrimmedContent(body: RequestBody, apiKey: Option<string>, reply: Reply)
    ensures var r := HandleParaphrase(body, apiKey, reply).response;
      r.status == 200 <==>
        HasAllFields(body) && Configured(apiKey) && reply.Ok? && reply.content.Some? && reply.content.value != ""
    ensures var r := HandleParaphrase(body, apiKey, reply).response;
      r.status == 200 ==> r.body.paraphrasedText == Trim(reply.content.value)
  {
  }

  /** Content made only of white space passes the presence test and is answered as an empty text. */
  lemma BlankContentGivesEmptyText(body: RequestBody, apiKey: Option<string>, content: string)
    requires HasAllFields(body) && Configured(apiKey)
    requires content != "" && AllSpace(content)
    ensures HandleParaphrase(body, apiKey, Ok(Some(content))).response == Response(200, ParaphrasedBody(""))
  {
  }

  /** An ok reply without content is the format error. */
  lemma MissingContentIsFormatError(body: RequestBody, apiKey: Option<string>, content: Option<string>)
    requires HasAllFields(body) && Configured(apiKey)
    requires content.None? || content.value == ""
    ensures HandleParaphrase(body, apiKey, Ok(content)).response == Response(500, ErrorBody(InvalidFormatMessage))
  {
  }

  /**
   * When `fetch` itself rejects, the `catch` answers 500 with the `Error`'s
   * own message, or with the handler's fallback for any other thrown value.
   */
  lemma FailedFetchAnswers500(body: RequestBody, apiKey: Option<string>, thrown: Thrown)
    requires HasAllFields(body) && Configured(apiKey)
    ensures var x := HandleParaphrase(body, apiKey, TransportFailed(thrown));
      && x.sent.Some?
      && x.response == Response(500, ErrorBody(if thrown.ErrorValue? then thrown.message else HandlerFallbackMessage))
  {
  }

  /**
   * The application-wide middleware answers like the handler's own `catch`
   * for every `Error`, and differs from it only in the fallback message for
   * any other thrown value.
   */
  lemma MiddlewareAgreesWithCatch(thrown: Thrown)
    ensures ErrorMiddleware(thrown).status == CatchResponse(thrown).status == 500
    ensures ErrorMiddleware(thrown) == CatchResponse(thrown) <==> thrown.ErrorValue?
    ensures thrown.OtherValue? ==> ErrorMiddleware(thrown).body == ErrorBody(InternalErrorMessage)
  {
  }
}

