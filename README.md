# AI paraphrasing tool — a Dafny model of its request logic

The application is a browser form that sends a text and three style
preferences (tone, target language, relative length) to a paraphrasing
service backed by a chat-completion provider. This project models the parts
of it that decide something:

- **The form** (`ParaphrasingTool.ParaphraseForm`, a class): its state
  fields, the input handler that recounts words and sets or clears the
  word-limit error, the three ordered checks that gate a paraphrase request
  (CAPTCHA, then the 1000-word limit, then blank text), the request itself
  split into a begin step and a completion step, reset, and the Paraphrase
  button's enable condition.
- **The text CAPTCHA** (`Captcha.TextCaptcha`, a class, and the
  `GenerateCaptcha` loop): six symbols drawn from a 32-symbol alphabet,
  input stored upper-cased, validation by upper-case equality, and the
  effect that validates only a changed, non-empty entry.
- **The relay's `POST /api/paraphrase` handler** (`Relay.HandleParaphrase`):
  a total function from the parsed request body, the configured key and the
  provider's reply to the provider call made (if any) and the HTTP response.
- **The browser service** (`ParaphraseApi.ParaphraseText`): the request it
  builds and how its promise settles for a given reply.

Shared pieces live in `Text` (JavaScript white space, `trim`,
`split(/\s+/).filter(Boolean)` as a word counter, ASCII upper case) and
`Upstream` (the reply, the shape of the chat request, whose system prompt is
tagged with the side that wrote it because the two guideline texts differ,
and the reply classification that server.js and paraphraseApi.ts write out
identically).

Randomness and the network are inputs: `Math.random()` is replaced by the
sequence of alphabet indices it would have drawn, and each `fetch` by a
`Reply` value (`NotOk` with the provider's error message, `Ok` with the
completion content, or `TransportFailed` with what `fetch` threw). The
`await` in the form is two steps, `BeginParaphrase` (returns the call's
parameters, or `None` when a check fails) and `CompleteParaphrase` (receives
how the call settled); `Paraphrase` runs both back to back.

Behaviour the model keeps as the code has it:

- The relay answers every provider failure with 500; it never forwards the
  provider's own status code (server.js:105-123).
- The relay does not re-check the 1000-word limit; only the form does.
- A successful CAPTCHA match does not regenerate the code; only the refresh
  button does.
- White-space-only input enables the Paraphrase button and is then refused
  by the blank-text check (`ButtonVersusGate`).
- Starting a request empties the output but leaves the output word count as
  it was, so after a failed request the form shows an empty output next to
  the previous count; the class invariant therefore ties the output count to
  the output text only when the output is non-empty.
- Reset sets `verified` to false but leaves the CAPTCHA widget untouched;
  retyping the same entry is not a change, so it reports nothing
  (`TypeCaptcha`).

## Model

| member | source | states |
|---|---|---|
| Text.Trim | server.js:117 | the result is empty exactly when the text is all white space, and otherwise starts and ends with a non-space character |
| Text.TrimRemovesPadding | server.js:117 | trimming any white-space padding around a text with non-blank ends gives exactly that text |
| Text.Split | src/components/ParaphrasingTool.tsx:32 | `split(/\s+/)` yields at least one piece and no piece contains white space |
| Text.SplitCountsGaps | src/components/ParaphrasingTool.tsx:32 | `split(/\s+/)` yields exactly one piece more than the text has maximal white-space runs, counted by an independent left-to-right scan |
| Text.SplitFirstEmpty | src/components/ParaphrasingTool.tsx:32 | the first piece is empty exactly when the text is empty or starts with white space |
| Text.SplitLastEmpty | src/components/ParaphrasingTool.tsx:32 | the last piece is empty exactly when the text is empty or ends with white space |
| Text.SplitInnerNonEmpty | src/components/ParaphrasingTool.tsx:32 | every piece strictly between the first and the last is non-empty |
| Text.SplitCutsAtSpace | src/components/ParaphrasingTool.tsx:32 | the pieces start at strictly increasing indices, each at the start of the text or right after white space, and each runs up to the next white space, so every piece is a whole word of the text |
| Text.KeepNonEmpty | src/components/ParaphrasingTool.tsx:32 | `filter(Boolean)` keeps only non-empty pieces, each taken from the input, and never more of them |
| Text.KeepNonEmptyExact | src/components/ParaphrasingTool.tsx:32 | `filter(Boolean)` keeps every non-empty piece and drops exactly the empty ones: the kept count is the piece count minus the number of empty pieces |
| Text.KeepNonEmptyAppend | src/components/ParaphrasingTool.tsx:32 | filtering distributes over concatenation, so the kept pieces stay in their original order |
| Text.Words | src/components/ParaphrasingTool.tsx:32 | every counted word is non-empty and free of white space |
| Text.WordCountIsWordStarts | src/components/ParaphrasingTool.tsx:32 | the split-and-filter count equals the number of places where a non-space character follows white space or the start |
| Text.NoWordsIffBlank | src/components/ParaphrasingTool.tsx:48 | a text has zero words exactly when it is blank after trimming |
| Text.SplitLosesOnlySpace | src/components/ParaphrasingTool.tsx:32 | the pieces of `split(/\s+/)`, joined end to end, are the text with every white-space character removed, so splitting drops white space and nothing else |
| Text.WordsLoseOnlySpace | src/components/ParaphrasingTool.tsx:32 | the counted words, joined end to end, are the text with its white space removed |
| Text.TwoWordsCount | src/components/ParaphrasingTool.tsx:32 | two non-empty words separated by any run of white space count as exactly two words |
| Text.TrimKeepsUnpadded | server.js:117 | a text whose first and last characters are not white space comes out of trimming unchanged |
| Text.UpperIdempotent | src/components/TextCaptcha.tsx:30 | upper-casing the stored (already upper-cased) input changes nothing |
| Upstream.Classify | server.js:105-117 | fulfilled exactly for an ok reply with non-empty content, then with that content trimmed; a non-ok reply rejects with the provider message or 'OpenAI API request failed'; an ok reply without content rejects with 'Invalid response format from OpenAI API'; a failed fetch rejects with what it threw |
| Relay.FailedFetchAnswers500 | server.js:119-123 | when the provider call itself throws, the provider was called and the answer is 500 with the thrown `Error`'s message, or 'Failed to paraphrase text' for any other thrown value |
| Relay.MiddlewareAgreesWithCatch | server.js:133-138 | the error middleware and the handler's catch both answer 500 and agree exactly on thrown `Error`s; for any other value the middleware says 'Internal Server Error' |
| Relay.HandleParaphrase | server.js:55-125 | status is 200, 400 or 500; 200 exactly when the body is `{paraphrasedText}`; 400 exactly when a field is missing or falsy; the provider is called exactly when all fields are present and a key is configured, with the key as bearer, model 'gpt-3.5-turbo', 2048 max tokens and exactly two messages: the relay's guidelines with tone, length and language, then `text` verbatim |
| Relay.MissingFieldsComeFirst | server.js:59-63 | a missing or falsy field gives 400 'Missing required fields' and no provider call, whatever the key and the reply |
| Relay.MissingKeyComesSecond | server.js:65-70 | with all fields present and no key: 500 'OpenAI API key not configured' and no provider call |
| Relay.ProviderStatusNotPropagated | server.js:105-107 | a non-ok reply always gives 500 with the provider's message, or 'OpenAI API request failed' when it is missing or empty, and that message is non-empty |
| Relay.SuccessIsTrimmedContent | server.js:112-118 | the relay answers 200 exactly for an ok reply with non-empty content, and then with that content trimmed |
| Relay.BlankContentGivesEmptyText | server.js:116-118 | white-space-only content passes the presence test and is answered 200 with an empty text |
| Relay.MissingContentIsFormatError | server.js:112-113 | an ok reply with missing or empty content gives 500 'Invalid response format from OpenAI API' |
| ParaphraseApi.ServiceRequest | src/services/paraphraseApi.ts:18-49 | the request goes to '/api/chat/completions' with model, temperature and token limit fixed, a system message with the service's own guidelines carrying the given tone, length preference and language, then a user message carrying `text` verbatim |
| ParaphraseApi.ParaphraseText | src/services/paraphraseApi.ts:51-67 | the promise rejects only with an `Error`; it fulfils exactly for non-empty ok content, with that content trimmed; a non-ok reply carries the provider message or 'OpenAI API request failed'; an ok reply without content rejects with 'Invalid response format from OpenAI API'; a thrown `Error` is rethrown unchanged; a thrown non-`Error` becomes 'Failed to paraphrase text. Please try again.' |
| ParaphraseApi.PromptsDiffer | src/services/paraphraseApi.ts:24-48 | for the same text and preferences, the service's system message differs from the relay's, and only in its guideline text; the user message is the same |
| ParaphraseApi.ServiceAgreesWithRelay | server.js:105-123 | for a non-empty text and a configured key, the relay answers 200 exactly when the service fulfils for the same reply, with the same text; otherwise it answers 500 with the message the service rejects with, except when `fetch` throws a non-`Error`: then the relay says 'Failed to paraphrase text' and the service 'Failed to paraphrase text. Please try again.' |
| Captcha.GenerateCaptcha | src/components/TextCaptcha.tsx:8-15 | the code has exactly six characters, each the alphabet symbol at the corresponding draw |
| Captcha.AlphabetFacts | src/components/TextCaptcha.tsx:9 | the alphabet has 32 distinct symbols, none white space, none changed by upper-casing, none of 0, 1, I, O |
| Captcha.AnyCaseVerifies | src/components/TextCaptcha.tsx:30 | the generated code re-entered in any mix of letter cases matches |
| Captcha.OneChangeFails | src/components/TextCaptcha.tsx:30 | changing one character of a matching entry to one with a different upper case makes it fail |
| Captcha.TextCaptcha.constructor | src/components/TextCaptcha.tsx:18-20 | a generated code, empty input, no error |
| Captcha.TextCaptcha.Validate | src/components/TextCaptcha.tsx:29-33 | reports true exactly when the upper-cased input equals the code, and sets the error flag to the negation |
| Captcha.TextCaptcha.Refresh | src/components/TextCaptcha.tsx:22-27 | a new code from the draws, input cleared, error cleared, false reported |
| Captcha.TextCaptcha.TypeInput | src/components/TextCaptcha.tsx:35-39 | input stored upper-cased; a verdict is reported exactly when the stored input changed and is non-empty, otherwise nothing is reported and the error flag stays |
| ParaphrasingTool.GatePassesIff | src/components/ParaphrasingTool.tsx:38-51 | a request goes ahead exactly when the CAPTCHA is verified and the text has between 1 and 1000 words |
| ParaphrasingTool.GateOrder | src/components/ParaphrasingTool.tsx:38-51 | unverified gives the CAPTCHA message even for long or blank text; over the limit gives the limit message; the blank message fires only for a verified text with no words |
| ParaphrasingTool.ButtonVersusGate | src/components/ParaphrasingTool.tsx:179 | when the checks pass and nothing is loading the button is enabled; an enabled button can only meet the blank-text refusal, and meets it exactly for non-empty white-space-only text |
| ParaphrasingTool.HolaMundoHasTwoWords | src/components/ParaphrasingTool.tsx:67 | the answer 'Hola mundo' is shown as it is with an output count of 2 |
| ParaphrasingTool.ParaphraseForm.constructor | src/components/ParaphrasingTool.tsx:19-28 | the initial field values, with a fresh CAPTCHA holding a generated code, no input and no error |
| ParaphrasingTool.ParaphraseForm.InputChange | src/components/ParaphrasingTool.tsx:30-35 | stores the text and its word count; the error becomes the limit message when over 1000 words and none otherwise; nothing else changes |
| ParaphrasingTool.ParaphraseForm.SelectTone | src/components/ParaphrasingTool.tsx:107 | only the tone changes |
| ParaphrasingTool.ParaphraseForm.SelectLanguage | src/components/ParaphrasingTool.tsx:118 | only the target language changes |
| ParaphrasingTool.ParaphraseForm.SelectLength | src/components/ParaphrasingTool.tsx:128 | only the length preference changes |
| ParaphrasingTool.ParaphraseForm.BeginParaphrase | src/components/ParaphrasingTool.tsx:37-63 | a failing check sets only the error and makes no call; otherwise the error clears, loading starts, the output empties and the call gets exactly the current text, language, tone and length |
| ParaphrasingTool.ParaphraseForm.CompleteParaphrase | src/components/ParaphrasingTool.tsx:64-73 | success stores the result and its word count; failure stores the message (or 'Failed to paraphrase text') and leaves the output; loading ends either way; the input count never changes |
| ParaphrasingTool.ParaphraseForm.Paraphrase | src/components/ParaphrasingTool.tsx:37-74 | without interleaving, a failing check changes only the error; a passing request ends not loading with the service's trimmed result, its count and no error, or with an empty output, the previous output count and the service's error message; nothing else changes |
| ParaphrasingTool.ParaphraseForm.Reset | src/components/ParaphrasingTool.tsx:86-92 | texts emptied, both counts 0, unverified, no error; tone, language, length and loading unchanged |
| ParaphrasingTool.ParaphraseForm.TypeCaptcha | src/components/ParaphrasingTool.tsx:174 | the verdict of a changed, non-empty CAPTCHA entry becomes `verified` and its negation the widget's error flag; an emptied or unchanged entry leaves both as they were; nothing else in the form changes |
| ParaphrasingTool.ParaphraseForm.RefreshCaptcha | src/components/ParaphrasingTool.tsx:174 | a refreshed CAPTCHA has a new code, an empty input and no error, makes the form unverified and changes nothing else |

## Left out

- Rendering, styling and icons; Header.tsx, Footer.tsx, App.tsx, LanguageSelector.tsx and WordCounter.tsx are view code (WordCounter's only logic is the `> MAX_WORDS` test the form already has).
- `handleCopy` and `isCopied`: they call the clipboard and a timer.
- The network: `fetch` and `response.json()` are replaced by the `Reply` input. A JSON parse failure of a reply body, a non-string `error.message` (converted by `new Error`) and non-string content (whose `trim` would throw) are not modelled.
- The wording of the fixed guideline lines of the system prompt: the prompt is modelled as a tag naming whose guidelines it carries (the relay's or the service's, whose lines differ at server.js:84-86, 90 and 92 against src/services/paraphraseApi.ts:30-32, 36 and 38) with the three interpolated values, not as rendered text.
- ParaphraseApi.ServiceRequest: the bearer token is a parameter; how an unset build-time key renders ('Bearer undefined') is not modelled.
- The relay's rate limiter (its counting lives in an unseen library), CORS matching, static files, the catch-all `index.html` route, `GET /api/health`, start-up and SIGTERM shutdown.
- Parsing of the request body by `express.json()` (server.js:43): a body it cannot parse, or one over its size limit, is rejected inside the body-parser library before the handler runs and reaches the error middleware instead. The library is not part of this model; `HandleParaphrase` starts from an already parsed body, and `ErrorMiddleware` is modelled only for the value it is handed.
- The service posts to '/api/chat/completions', a route the relay does not define; the two are not composed, and `ServiceAgreesWithRelay` compares them as if the service posted the same fields to the relay.
- `Math.random` and its floating-point arithmetic: each draw is an index in [0, 32). The temperature 0.7 is a constant.
- Text.UpperChar: upper-cases the ASCII letters only; JavaScript's `toUpperCase` also maps other characters (some onto the alphabet, such as 'ſ' to 'S', 'ı' to 'I', or ligatures such as 'ﬆ' to two letters).
- Strings are sequences of Unicode scalar values, not UTF-16 code units; lengths differ only for characters outside the Basic Multilingual Plane.
- The CAPTCHA input's `maxLength={6}`, which the browser enforces; validation does not depend on it.
- React scheduling: each handler and the effect that follows it is one atomic step, and the awaited call is two steps with anything allowed in between.
