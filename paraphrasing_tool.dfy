/**
 * The paraphrasing form (src/components/ParaphrasingTool.tsx): its state
 * fields, the handlers that update them, the guard chain that decides
 * whether a paraphrase request goes out, and the Paraphrase button's enable
 * condition. The awaited service call is split into a begin step, which
 * yields the parameters of the call (if any), and a completion step, which
 * receives how the call settled.
 */
module ParaphrasingTool {
  import opened Wrappers
  import opened Text
  import opened Upstream
  import opened Captcha
  import opened ParaphraseApi

  /** `MAX_WORDS` (src/config/constants.ts). */
  const MaxWords: nat := 1000

  const LimitMessage := "Text exceeds 1000 words limit"
  const CaptchaMessage := "Please complete the CAPTCHA verification"
  const BlankMessage := "Please enter some text to paraphrase"
  const FailureFallbackMessage := "Failed to paraphrase text"

  /** The error `handleInputChange` leaves for a text of the given word count. */
  function LimitError(words: nat): Option<string> {
    if words > MaxWords then Some(LimitMessage) else None
  }

  /**
   * The checks at the head of `handleParaphrase`, in their order: the
   * message the first failing check sets, or `None` when the call goes ahead.
   */
  function Gate(verified: bool, inputWords: nat, inputText: string): Option<string> {
    if !verified then Some(CaptchaMessage)
    else if inputWords > MaxWords then Some(LimitMessage)
    else if Trim(inputText) == "" then Some(BlankMessage)
    else None
  }

  /** The Paraphrase button's `disabled` condition, negated. */
  predicate ButtonEnabled(inputText: string, isLoading: bool, inputWords: nat, verified: bool) {
    inputText != "" && !isLoading && inputWords <= MaxWords && verified
  }

  /** The message the form shows for a rejected call. */
  function FailureMessage(reason: Thrown): string {
    if reason.ErrorValue? then reason.message else FailureFallbackMessage
  }

  /**
   * With the word count kept up to date, a call goes ahead exactly when the
   * CAPTCHA is verified and the text has between 1 and `MaxWords` words.
   */
  lemma GatePassesIff(verified: bool, text: string)
    ensures Gate(verified, WordCount(text), text) == None
        <==> verified && 0 < WordCount(text) <= MaxWords
  {
    NoWordsIffBlank(text);
  }

  /**
   * The order of the checks: an unverified CAPTCHA wins over everything, a
   * text over the limit wins over blankness, and the blank-text message only
   * ever fires for a text with no words.
   */
  lemma GateOrder(verified: bool, text: string)
    ensures !verified ==> Gate(verified, WordCount(text), text) == Some(CaptchaMessage)
    ensures verified && WordCount(text) > MaxWords ==> Gate(verified, WordCount(text), text) == Some(LimitMessage)
    ensures Gate(verified, WordCount(text), text) == Some(BlankMessage) ==> verified && WordCount(text) == 0
  {
    NoWordsIffBlank(text);
  }

  /**
   * The button and the guard chain agree except on white-space-only text,
   * which enables the button and is then refused by the blank-text check.
   */
  lemma ButtonVersusGate(text: string, isLoading: bool, verified: bool)
    ensures var words := WordCount(text);
      Gate(verified, words, text) == None && !isLoading ==> ButtonEnabled(text, isLoading, words, verified)
    ensures var words := WordCount(text);
      ButtonEnabled(text, isLoading, words, verified) ==>
        Gate(verified, words, text) == None || Gate(verified, words, text) == Some(BlankMessage)
    ensures var words := WordCount(text);
      (ButtonEnabled(text, isLoading, words, verified) && Gate(verified, words, text) == Some(BlankMessage))
        <==> (!isLoading && verified && text != "" && AllSpace(text))
  {
    NoWordsIffBlank(text);
  }

  /** A snapshot of the form's own state fields. */
  datatype FormState = FormState(
    inputText: string,
    outputText: string,
    isLoading: bool,
    error: Option<string>,
    tone: Tone,
    targetLanguage: Language,
    lengthPreference: LengthPreference,
    verified: bool,
    inputWords: nat,
    outputWords: nat)

  class ParaphraseForm {
    var inputText: string
    var outputText: string
    var isLoading: bool
    var error: Option<string>
    var tone: Tone
    var targetLanguage: Language
    var lengthPreference: LengthPreference
    var verified: bool
    var inputWords: nat
    var outputWords: nat
    /** The CAPTCHA child component, whose `onVerify` sets `verified`. */
    const verification: TextCaptcha

    function State(): FormState
      reads this
    {
      FormState(inputText, outputText, isLoading, error, tone, targetLanguage,
                lengthPreference, verified, inputWords, outputWords)
    }

    /**
     * The input count always matches the input text; while a call is
     * pending the output is empty; a non-empty output has its own count.
     */
    ghost predicate Valid()
      reads this, verification
    {
      && verification.Valid()
      && inputWords == WordCount(inputText)
      && (isLoading ==> outputText == "")
      && (outputText != "" ==> outputWords == WordCount(outputText))
    }

    /** The initial `useState` values, with a freshly generated CAPTCHA. */
    constructor (draws: seq<Draw>)
      requires |draws| == CodeLength
      ensures Valid() && fresh(verification)
      ensures State() == FormState("", "", false, None, Professional, English, Similar, false, 0, 0)
      ensures verification.captcha == CodeOf(draws) && verification.userInput == "" && !verification.error
    {
      inputText, outputText, isLoading, error := "", "", false, None;
      tone, targetLanguage, lengthPreference := Professional, English, Similar;
      verified, inputWords, outputWords := false, 0, 0;
      verification := new TextCaptcha(draws);
    }

    /**
     * `handleInputChange`: store the text and its word count, and replace any
     * previous error by the limit error or by none.
     */
    method InputChange(text: string)
      requires Valid()
      modifies this
      ensures Valid()
      ensures State() == old(State()).(inputText := text, inputWords := WordCount(text),
                                       error := LimitError(WordCount(text)))
    {
      inputText := text;
      var words := WordCount(text);
      inputWords := words;
      error := if words > MaxWords then Some(LimitMessage) else None;
    }

    method SelectTone(t: Tone)
      requires Valid()
      modifies this
      ensures Valid() && State() == old(State()).(tone := t)
    {
      tone := t;
    }

    method SelectLanguage(l: Language)
      requires Valid()
      modifies this
      ensures Valid() && State() == old(State()).(targetLanguage := l)
    {
      targetLanguage := l;
    }

    method SelectLength(p: LengthPreference)
      requires Valid()
      modifies this
      ensures Valid() && State() == old(State()).(lengthPreference := p)
    {
      lengthPreference := p;
    }

    /**
     * `handleParaphrase` up to its `await`: a failing check changes only the
     * error and makes no call; otherwise the error is cleared, loading starts,
     * the output is emptied and the call's parameters are returned.
     */
    method BeginParaphrase() returns (call: Option<ParaphraseParams>)
      requires Valid()
      modifies this
      ensures Valid()
      ensures var gate := Gate(old(verified), old(inputWords), old(inputText));
        gate.Some? ==> call.None? && State() == old(State()).(error := gate)
      ensures var gate := Gate(old(verified), old(inputWords), old(inputText));
        gate.None? ==>
          && call == Some(ParaphraseParams(inputText, targetLanguage, tone, lengthPreference))
          && State() == old(State()).(error := None, isLoading := true, outputText := "")
    {
      ghost var before := State();
      ghost var gate := Gate(verified, inputWords, inputText);
      if !verified {
        error := Some(CaptchaMessage);
        assert State() == before.(error := error);
        return None;
      }
      if inputWords > MaxWords {
        error := Some(LimitMessage);
        assert State() == before.(error := error);
        return None;
      }
      if Trim(inputText) == "" {
        error := Some(BlankMessage);
        assert State() == before.(error := error);
        return None;
      }
      assert gate.None?;
      error := None;
      isLoading := true;
      outputText := "";
      call := Some(ParaphraseParams(inputText, targetLanguage, tone, lengthPreference));
      assert State() == before.(error := None, isLoading := true, outputText := "");
    }

    /**
     * `handleParaphrase` after its `await`: on success the output and its
     * count are stored, on failure the error message; loading ends either way.
     */
    method CompleteParaphrase(outcome: Settled<string>)
      requires Valid()
      modifies this
      ensures Valid()
      ensures outcome.Fulfilled? ==>
        State() == old(State()).(outputText := outcome.value, outputWords := WordCount(outcome.value),
                                 isLoading := false)
      ensures outcome.Rejected? ==>
        State() == old(State()).(error := Some(FailureMessage(outcome.reason)), isLoading := false)
    {
      match outcome {
        case Fulfilled(result) =>
          outputText := result;
          outputWords := WordCount(result);
        case Rejected(reason) =>
          error := Some(if reason.ErrorValue? then reason.message else FailureFallbackMessage);
      }
      isLoading := false;
    }

    /**
     * The whole of `handleParaphrase` when nothing happens during the
     * `await`: the service is called with the current fields and settles as
     * the reply dictates.
     */
    method Paraphrase(reply: Reply)
      requires Valid()
      modifies this
      ensures Valid()
      ensures var gate := Gate(old(verified), old(inputWords), old(inputText));
        gate.Some? ==> State() == old(State()).(error := gate)
      ensures var gate := Gate(old(verified), old(inputWords), old(inputText));
        var settled := ParaphraseText(ParaphraseParams(old(inputText), old(targetLanguage), old(tone),
                                                       old(lengthPreference)), reply);
        && (gate.None? && settled.Fulfilled? ==>
              State() == old(State()).(outputText := settled.value, outputWords := WordCount(settled.value),
                                       error := None, isLoading := false))
        && (gate.None? && settled.Rejected? ==>
              State() == old(State()).(outputText := "", error := Some(settled.reason.message), isLoading := false))
    {
      var call := BeginParaphrase();
      if call.Some? {
        var settled := ParaphraseText(call.value, reply);
        CompleteParaphrase(settled);
      }
    }

    /** `handleReset`: texts, counts, verification and error are cleared; preferences stay. */
    method Reset()
      requires Valid()
      modifies this
      ensures Valid()
      ensures State() == old(State()).(inputText := "", outputText := "", inputWords := 0, outputWords := 0,
                                       verified := false, error := None)
    {
      inputText := "";
      outputText := "";
      inputWords, outputWords := 0, 0;
      verified := false;
      error := None;
    }

    /**
     * Typing into the CAPTCHA: the widget validates a changed, non-empty
     * entry and `onVerify` stores the verdict; an emptied or unchanged entry
     * reports nothing and leaves `verified` as it was.
     */
    method TypeCaptcha(typed: string)
      requires Valid()
      modifies this, verification
      ensures Valid()
      ensures verification.captcha == old(verification.captcha) && verification.userInput == Upper(typed)
      ensures verified ==
        if Upper(typed) != old(verification.userInput) && Upper(typed) != ""
        then Matches(typed, verification.captcha) else old(verified)
      ensures verification.error ==
        if Upper(typed) != old(verification.userInput) && Upper(typed) != ""
        then !Matches(typed, verification.captcha) else old(verification.error)
      ensures State() == old(State()).(verified := verified)
    {
      var reported := verification.TypeInput(typed);
      if reported.Some? {
        verified := reported.value;
      }
    }

    /** The CAPTCHA's refresh button: a new code, and `onVerify(false)`. */
    method RefreshCaptcha(draws: seq<Draw>)
      requires Valid() && |draws| == CodeLength
      modifies this, verification
      ensures Valid()
      ensures verification.captcha == CodeOf(draws) && verification.userInput == "" && !verification.error
      ensures State() == old(State()).(verified := false)
    {
      var reported := verification.Refresh(draws);
      verified := reported;
    }
  }

  /** A provider answer of "Hola mundo" is shown as it is, with an output count of 2. */
  lemma HolaMundoHasTwoWords(answer: string)
    requires answer == "Hola mundo"
    ensures Trim(answer) == answer && WordCount(answer) == 2
  {
    assert answer == answer[..4] + (answer[4..5] + answer[5..]);
    TwoWordsCount(answer[..4], answer[4..5], answer[5..]);
    TrimKeepsUnpadded(answer);
  }
}
