/**
 * The browser's `paraphraseText` service (src/services/paraphraseApi.ts): it
 * builds a chat-completion request from typed parameters and turns the reply
 * into the text it resolves with or the `Error` it rejects with. The reply is
 * an input; `fetch` itself is not modelled.
 */
module ParaphraseApi {
  import opened Wrappers
  import opened Text
  import opened Upstream
  import Relay

  datatype Tone = Professional | Casual | Academic | Creative {
    function Code(): string {
      match this
      case Professional => "professional"
      case Casual => "casual"
      case Academic => "academic"
      case Creative => "creative"
    }
  }

  datatype LengthPreference = Shorter | Similar | Longer {
    function Code(): string {
      match this
      case Shorter => "shorter"
      case Similar => "similar"
      case Longer => "longer"
    }
  }

  /** The supported target languages (src/config/constants.ts). */
  datatype Language = English | Spanish | French {
    function Code(): string {
      match this
      case English => "en"
      case Spanish => "es"
      case French => "fr"
    }
  }

  datatype ParaphraseParams = ParaphraseParams(
    text: string,
    targetLanguage: Language,
    tone: Tone,
    lengthPreference: LengthPreference)

  const ServiceUrl := "/api/chat/completions"
  const ServiceFallbackMessage := "Failed to paraphrase text. Please try again."

  /** The request `paraphraseText` posts, given the build-time key it sends as bearer token. */
  function ServiceRequest(p: ParaphraseParams, bearer: string): (r: ChatRequest)
    ensures r.url == ServiceUrl && r.bearer == bearer
    ensures r.model == ChatModel && r.temperature == Temperature && r.maxTokens == MaxTokens
    ensures |r.messages| == 2
    ensures r.messages[0].role == System
    ensures r.messages[0].content.Guidelines? && r.messages[0].content.prompt == ServiceGuidelines
    ensures r.messages[0].content.tone == JString(p.tone.Code())
    ensures r.messages[0].content.lengthPreference == JString(p.lengthPreference.Code())
    ensures r.messages[0].content.targetLanguage == JString(p.targetLanguage.Code())
    ensures r.messages[1] == Message(User, Verbatim(JString(p.text)))
  {
    CompletionRequest(ServiceUrl, bearer, ServiceGuidelines, JString(p.text), JString(p.tone.Code()),
                      JString(p.lengthPreference.Code()), JString(p.targetLanguage.Code()))
  }

  /**
   * How the promise returned by `paraphraseText` settles for a given reply:
   * the classification, whose `Error`s are rethrown unchanged and whose other
   * thrown values are replaced by a fixed `Error`.
   */
  function ParaphraseText(p: ParaphraseParams, reply: Reply): (r: Settled<string>)
    ensures r.Rejected? ==> r.reason.ErrorValue?
    ensures r.Fulfilled? <==> reply.Ok? && reply.content.Some? && reply.content.value != ""
    ensures r.Fulfilled? ==> r.value == Trim(reply.content.value)
    ensures reply.NotOk? ==> r == Rejected(ErrorValue(MessageOr(reply.errorMessage, RequestFailedMessage)))
    ensures reply.Ok? && r.Rejected? ==> r.reason == ErrorValue(InvalidFormatMessage)
    ensures reply.TransportFailed? && reply.thrown.ErrorValue? ==> r == Rejected(reply.thrown)
    ensures reply == TransportFailed(OtherValue) ==> r == Rejected(ErrorValue(ServiceFallbackMessage))
  {
    match Classify(reply)
    case Fulfilled(text) => Fulfilled(text)
    case Rejected(ErrorValue(m)) => Rejected(ErrorValue(m))
    case Rejected(OtherValue) => Rejected(ErrorValue(ServiceFallbackMessage))
  }

  /** The relay body the service's parameters would make, if it were posted to the relay. */
  function AsRelayBody(p: ParaphraseParams): Relay.RequestBody {
    Relay.RequestBody(Some(JString(p.text)), Some(JString(p.targetLanguage.Code())),
                      Some(JString(p.tone.Code())), Some(JString(p.lengthPreference.Code())))
  }

  /**
   * The service and the relay classify a reply alike: the relay answers 200
   * with exactly the text the service resolves with, and otherwise answers 500
   * with the message of the `Error` the service rejects with. The one
   * exception is a thrown non-`Error`, where each side has its own fallback
   * message.
   */
  lemma ServiceAgreesWithRelay(p: ParaphraseParams, apiKey: string, reply: Reply)
    requires p.text != "" && apiKey != ""
    ensures var x := Relay.HandleParaphrase(AsRelayBody(p), Some(apiKey), reply);
            var r := ParaphraseText(p, reply);
      && (x.response.status == 200 <==> r.Fulfilled?)
      && (r.Fulfilled? ==> x.response.body == Relay.ParaphrasedBody(r.value))
      && (reply != TransportFailed(OtherValue) && r.Rejected? ==>
            x.response == Relay.Response(500, Relay.ErrorBody(r.reason.message)))
    ensures var x := Relay.HandleParaphrase(AsRelayBody(p), Some(apiKey), reply);
            var r := ParaphraseText(p, reply);
      reply == TransportFailed(OtherValue) ==>
        && x.response == Relay.Response(500, Relay.ErrorBody(Relay.HandlerFallbackMessage))
        && r == Rejected(ErrorValue(ServiceFallbackMessage))
        && Relay.HandlerFallbackMessage != ServiceFallbackMessage
  {
  }

  /**
   * The two sides send the same preferences but not the same system prompt:
   * the relay's guideline text is not the service's.
   */
  lemma PromptsDiffer(p: ParaphraseParams, bearer: string, apiKey: string, reply: Reply)
    requires p.text != "" && apiKey != ""
    ensures var sent := Relay.HandleParaphrase(AsRelayBody(p), Some(apiKey), reply).sent;
            var own := ServiceRequest(p, bearer);
      && sent.Some?
      && sent.value.messages[0] != own.messages[0]
      && sent.value.messages[0].content.(prompt := ServiceGuidelines) == own.messages[0].content
      && sent.value.messages[1] == own.messages[1]
  {
  }
}
