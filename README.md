# Real-time translation front-end: a Dafny model of its core

The application lets a user type or dictate text in English, Korean or Khmer. It sends the text, after a 600 ms pause in typing, to a hosted language model. It shows the translation or an error. This project models the two parts of it that have behaviour worth stating:

- **The translation client** (`services/translationService.ts`). `translateText` returns `{text: ""}` for blank input without checking the API key. It fails fast with a fixed configuration message when `API_KEY` is missing. Otherwise it picks a polite or casual register instruction for Korean and Khmer, builds the prompt from a template, calls the model, and maps the outcome to a `{text, error?}` result. A success is trimmed. A failure becomes either "The service is not available." or "Translation failed. Please try again.", decided by searching the lower-cased error text for `429`, `quota`, `resource_exhausted` and `too many requests`. The model client is constructed lazily, once.
- **The session** (`components/TranslationInterface.tsx`). This component owns:
  - the input and output texts and the displayed error;
  - the two languages, the polite flag and the listening flag;
  - a debounced copy of the input.

  Its event handlers are: typing, swapping, clearing, dismissing the error, dictation, the microphone button, the debounce timer, and `performTranslation`.

Files:

- `optional.dfy`: `Option`.
- `languages.dfy`: the three languages of the language selector.
- `text.dfy`: JavaScript `trim`, `toLowerCase` and `includes` on `seq<char>`.
- `translation_service.dfy`: the client. `Prepare` is everything before the network call. `Finish` maps the remote outcome. `TranslationOf` composes the two around an oracle for the remote call. The `ServiceModule` class holds the module-level key and the cached client.
- `debounce.dfy`: `useDebounce` as a discrete-event machine. The pure `DebounceState` functions are the specification. The `Debouncer` class holds the debounced value and the pending-timer handle.
- `translation_interface.dfy`: `SessionState` and one function per event, as the specification. The `Session` class has the component's fields and one method per event. Each method is proved to move the state as its function says and to keep the invariant `Inv`.

The remote model call is a parameter: a function from (model name, prompt) to `Response(text?)` or `Thrown(message, toString)`. It is consulted only on the path where the source makes the call, and `NoRemoteCallWithoutWork` proves that the result on other paths does not depend on it. `performTranslation` is split at its `await`. `BeginTranslation` covers what happens before the await and returns the request. `ApplyResult` is the continuation. The caller decides the order in which results arrive.

### Behaviour worth knowing

- `performTranslation` applies every result as it arrives, with no guard against stale responses (components/TranslationInterface.tsx:92-97). The result that arrives last decides the output, whichever request it answers (`LastArrivalDecidesOutput`, `StaleFailureOverwritesNewerOutput`).
- Starting a translation clears the error (line 83). Applying a success does not, so a success that arrives after a failure leaves the failure's message on screen (`SuccessKeepsEarlierError`).
- Clear empties the input, the output and the error but leaves the debounced copy alone. The debounced copy follows 600 units later, and no request is issued then (`ClearKeepsSettings`, `ClearSettlesToEmpty`).
- After typing stops for 600 units, exactly one translation starts, for the last value typed, unless that value is blank or already the debounced value (`TickSettlesOnInput`, `BurstTranslatesOnce`).
- Failures are reported as three fixed strings, with empty output text.

## Model

| member | source | states |
|---|---|---|
| Languages.Language.Name | components/Header.tsx:12 | each language has the non-empty display name the selector lists |
| Languages.Language.SupportsNuance | services/translationService.ts:39-43 | Korean and Khmer have a polite/casual register, English has none |
| Text.IsSpace | services/translationService.ts:29 | the usual ASCII white space counts as white space, and no letter, digit or double quote does |
| Text.TrimStart | services/translationService.ts:29 | the result is a suffix of the input; everything cut off is white space; the result does not start with white space |
| Text.TrimEnd | services/translationService.ts:65 | the result is a prefix of the input; everything cut off is white space; the result does not end with white space |
| Text.Trim | services/translationService.ts:65 | the result is never longer than the input and neither starts nor ends with white space |
| Text.TrimIsMiddle | services/translationService.ts:65 | what `trim` returns is the input's middle slice, with only white space before it and only white space after it |
| Text.IsBlank | services/translationService.ts:29 | `!text.trim()`: the empty string is blank, and a string that starts with anything but white space is not |
| Text.BlankIffAllSpace | services/translationService.ts:29 | `!text.trim()` holds exactly when every character is white space |
| Text.TrimIdempotent | services/translationService.ts:65 | trimming a trimmed string changes nothing |
| Text.Lower | services/translationService.ts:69 | the lower-cased text has the same length, and each character is that character lower-cased |
| Text.LowerIdempotent | services/translationService.ts:69 | lower-casing twice is lower-casing once |
| Text.Contains | services/translationService.ts:73-76 | `includes`: an occurrence never exceeds the string searched |
| Text.ContainsAt | services/translationService.ts:73-76 | a needle found at some offset counts as included |
| Text.ContainsWitness | services/translationService.ts:73-76 | an included needle is found at some offset (with `ContainsAt`, both directions of `includes`) |
| Text.ContainsLower | services/translationService.ts:69-76 | an occurrence of a needle survives lower-casing, as the lower-cased needle |
| TranslationService.KeyMissing | services/translationService.ts:32 | `!API_KEY`: the key counts as present exactly when it is defined and non-empty |
| TranslationService.KeyOrEmpty | services/translationService.ts:11 | the client key is empty exactly when `API_KEY` is missing (undefined or empty) |
| TranslationService.Truthy | services/translationService.ts:40-44 | a truthy `isPolite` is defined, and `undefined` is falsy |
| TranslationService.NuanceInstruction | services/translationService.ts:37-47 | the register line is empty exactly when the target is not Korean or Khmer |
| TranslationService.NuanceFollowsTruthiness | services/translationService.ts:40-46 | only the truthiness of `isPolite` matters (undefined acts as casual); for Korean and Khmer the polite and casual lines differ |
| TranslationService.Prepare | services/translationService.ts:28-57 | blank text gives `{text: ""}` before the key is checked; non-blank text with a missing key gives the configuration error; otherwise, and only otherwise, the template prompt goes to `gemini-flash-lite-latest` |
| TranslationService.Finish | services/translationService.ts:59-83 | a response gives no error and its trimmed text, or "" when the text is absent; a thrown error gives "" and "The service is not available." exactly when the lower-cased message names a rate limit, and "Translation failed. Please try again." exactly when it does not |
| TranslationService.TranslationOf | services/translationService.ts:28-83 | every failure has empty text and one of the three fixed messages; the configuration message comes exactly for non-blank text with a missing key |
| TranslationService.NoRemoteCallWithoutWork | services/translationService.ts:29-35 | with blank text or a missing key, the result is "" and does not depend on the remote service |
| TranslationService.BlankBeforeKey | services/translationService.ts:29-35 | blank text succeeds with no text even when the key is missing |
| TranslationService.MissingKeyFailsFast | services/translationService.ts:32-35 | non-blank text with a missing key gives `{text: "", error: configuration message}`, whatever the remote would say |
| TranslationService.Template | services/translationService.ts:49-57 | the template opens with the translator instruction and the source language, and closes with the quoted text |
| TranslationService.Prompt | services/translationService.ts:49-57 | the prompt sent for a request ends with the text to translate, in double quotes |
| TranslationService.TemplateMentionsValues | services/translationService.ts:49-57 | the template contains the source language, the target language, the register line and the text in double quotes |
| TranslationService.PromptMentionsRequest | services/translationService.ts:49-57 | the prompt names both languages and carries the register line and the quoted text |
| TranslationService.TemplateDiffersInNuanceOnly | services/translationService.ts:49-57 | two templates that differ only in the register line agree before it and after it |
| TranslationService.PolitenessOnlyChangesNuance | services/translationService.ts:37-57 | changing `isPolite` changes only the register line of the prompt, and changes nothing when the target is English |
| TranslationService.ErrorText | services/translationService.ts:69 | the error text is the lower-cased message, or the lower-cased `toString()` when there is no message; it is already in lower case |
| TranslationService.RateLimited | services/translationService.ts:72-77 | a text too short for the shortest needle ("429") is never rate-limited |
| TranslationService.RateLimitNeedleIsUnavailable | services/translationService.ts:69-79 | a failure whose message, or whose `toString()` when the message is empty, contains "429", "quota", "resource_exhausted" or "too many requests" in any ASCII letter case gives "The service is not available." with empty text |
| TranslationService.Status429IsUnavailable | services/translationService.ts:69-79 | an error message containing "429" maps to "The service is not available." with empty text |
| TranslationService.UpperCaseQuotaIsUnavailable | services/translationService.ts:69-79 | an upper-case "QUOTA" matches, because matching happens after lower-casing |
| TranslationService.OtherFailureIsGeneric | services/translationService.ts:81-82 | an error with none of the four needles maps to "Translation failed. Please try again." with empty text |
| TranslationService.BlankResponseIsEmptySuccess | services/translationService.ts:65 | a response of only white space is an empty success, not an error |
| TranslationService.PoliteKoreanRequest | services/translationService.ts:39-65 | a polite Korean request puts the polite Korean line in the prompt, and an answer with no surrounding spaces comes back unchanged with no error |
| TranslationService.AiClient.constructor | services/translationService.ts:11 | the client is built with the key it is given |
| TranslationService.ServiceModule.constructor | services/translationService.ts:4-6 | the module starts with the key and no client |
| TranslationService.ServiceModule.GetAiClient | services/translationService.ts:8-14 | the first call constructs a client with `API_KEY` or ""; later calls return the cached client and construct nothing; at most one construction ever |
| TranslationService.ServiceModule.GetAiClientTwice | services/translationService.ts:6-14 | two calls hand out the same client |
| TranslationService.ServiceModule.TranslateText | services/translationService.ts:28-83 | the result is `TranslationOf`; the client is fetched (and so built at most once) only when the remote call is made |
| Debounce.Init | components/TranslationInterface.tsx:10-14 | on mount, the debounced value is the initial value and a valid timer is pending |
| Debounce.Change | components/TranslationInterface.tsx:11-14 | a new value cancels the pending timer and starts a valid one |
| Debounce.Elapse | components/TranslationInterface.tsx:12 | time passing keeps the timer state valid |
| Debounce.WaitsOnPending | components/TranslationInterface.tsx:12-13 | a pending timer changes nothing until its time has run out; then it delivers its value exactly once |
| Debounce.WaitsOnSettled | components/TranslationInterface.tsx:12-13 | with no timer pending, waiting changes nothing |
| Debounce.SettlesAfterQuietDelay | components/TranslationInterface.tsx:9-16 | after a new value, the debounced value is unchanged while less than 600 has passed; after 600 with no new value it is the new value, delivered once |
| Debounce.SettlesOnTarget | components/TranslationInterface.tsx:12-13 | after 600 units the debounced value is whatever the pending timer carried, or stays as it was |
| Debounce.BurstSettlesOnLast | components/TranslationInterface.tsx:9-16 | a burst of values less than 600 apart, then a pause of 600, yields exactly one update, to the last value |
| Debounce.Debouncer.constructor | components/TranslationInterface.tsx:10-14 | the state is `Init(v)` |
| Debounce.Debouncer.Restart | components/TranslationInterface.tsx:11-14 | the state is `Change(old, v)`; the debounced value is unchanged |
| Debounce.Debouncer.Advance | components/TranslationInterface.tsx:12 | the state is `Elapse(old, dt)`; `fired` is the delivered value, which becomes the debounced value |
| TranslationInterface.Initial | components/TranslationInterface.tsx:19-28 | the initial state keeps the invariant: input "", output "", no error, English to Korean, polite, not listening |
| TranslationInterface.SetInput | components/TranslationInterface.tsx:11-14 | setting the input keeps the invariant (the timer restarts only when the input changes) |
| TranslationInterface.Swap | components/TranslationInterface.tsx:112-125 | swapping keeps the invariant |
| TranslationInterface.Clear | components/TranslationInterface.tsx:164-168 | clearing keeps the invariant |
| TranslationInterface.DismissError | components/TranslationInterface.tsx:145 | dismissing keeps the invariant |
| TranslationInterface.AppendTranscript | components/TranslationInterface.tsx:41-44 | a transcript keeps the invariant |
| TranslationInterface.Locale | components/TranslationInterface.tsx:61-63 | each source language has a recognition locale of five characters with `-` in the middle |
| TranslationInterface.MicClick | components/TranslationInterface.tsx:51-73 | a microphone click keeps the invariant |
| TranslationInterface.ForwardedPoliteness | components/TranslationInterface.tsx:89 | politeness is forwarded exactly for Korean and Khmer targets, and then it is the session's flag |
| TranslationInterface.BeginTranslation | components/TranslationInterface.tsx:75-90 | starting a translation keeps the invariant |
| TranslationInterface.HasError | components/TranslationInterface.tsx:92 | a truthy `result.error` is present, and each of the client's three messages is truthy |
| TranslationInterface.ApplyResult | components/TranslationInterface.tsx:92-97 | applying a result keeps the invariant, and so never shows an empty error |
| TranslationInterface.Tick | components/TranslationInterface.tsx:100-103 | time passing and the translation it may start keep the invariant (what it starts: `TickSettlesOnInput`, `TickBeforeTimerIsQuiet`) |
| TranslationInterface.SwapTwiceRestores | components/TranslationInterface.tsx:112-125 | swapping twice restores both languages and both texts and leaves no error; politeness becomes true if either language is Korean or Khmer |
| TranslationInterface.ClearKeepsSettings | components/TranslationInterface.tsx:164-168 | clear empties input, output and error, and keeps the languages, the polite flag, the listening flag and the debounced value |
| TranslationInterface.TickSettlesOnInput | components/TranslationInterface.tsx:100-103 | once the pending timer's remaining time has passed (or with none pending), the debounced value is the input with no timer pending; a translation of the input starts exactly when this changed the debounced value and the input is not blank |
| TranslationInterface.TickBeforeTimerIsQuiet | components/TranslationInterface.tsx:12-13 | before the pending timer runs out, time only counts it down: the debounced value stays and no translation starts; with no timer pending nothing changes (with `TickSettlesOnInput`, every wait is covered) |
| TranslationInterface.Typing | components/TranslationInterface.tsx:11-14 | typing values with pauses between them keeps the session invariant |
| TranslationInterface.TypingKeepsQuiet | components/TranslationInterface.tsx:9-16 | typing values that each differ from the one before, with every pause shorter than 600, starts no translation, leaves the debounced value, output and error as they were, and leaves a timer pending for the last value |
| TranslationInterface.BurstTranslatesOnce | components/TranslationInterface.tsx:100-103 | such a burst followed by a pause of 600 starts exactly one translation, for the last value, unless it is blank or already the debounced value |
| TranslationInterface.ClearSettlesToEmpty | components/TranslationInterface.tsx:164-168 | 600 units after a clear the debounced value is "" with no timer pending, and no request is issued |
| TranslationInterface.TranscriptExtendsInput | components/TranslationInterface.tsx:43 | the old input stays as a prefix, followed by one space when it was non-empty, and the transcript ends the input |
| TranslationInterface.UnsupportedMicOnlyReports | components/TranslationInterface.tsx:51-55 | without speech support, a microphone click sets only the "not supported" error and asks nothing of the recogniser |
| TranslationInterface.BlankTextIssuesNoRequest | components/TranslationInterface.tsx:76-80 | blank text sets output "" and error null and issues no request |
| TranslationInterface.RequestCarriesSettings | components/TranslationInterface.tsx:83-90 | non-blank text clears the error and requests that text with the current languages; politeness goes along exactly for Korean and Khmer, and the prompt's register follows the session's flag |
| TranslationInterface.LastArrivalDecidesOutput | components/TranslationInterface.tsx:92-97 | the result that arrives last decides the output, and a failing last result decides the error |
| TranslationInterface.StaleFailureOverwritesNewerOutput | components/TranslationInterface.tsx:75-98 | if request A is issued before B and A's failure arrives after B's success, the output ends up "" with A's error |
| TranslationInterface.SuccessKeepsEarlierError | components/TranslationInterface.tsx:83-97 | a success applied after a failure shows its text but leaves the failure's error |
| TranslationInterface.Session.constructor | components/TranslationInterface.tsx:19-28 | the state is `Initial()`; the debouncer is fresh |
| TranslationInterface.Session.SetInputText | components/TranslationInterface.tsx:19 | the state becomes `SetInput(old, v)`; the invariant holds |
| TranslationInterface.Session.SetSourceLang | components/TranslationInterface.tsx:22 | only the source language changes |
| TranslationInterface.Session.SetTargetLang | components/TranslationInterface.tsx:23 | only the target language changes |
| TranslationInterface.Session.SetIsPolite | components/TranslationInterface.tsx:24 | only the polite flag changes |
| TranslationInterface.Session.SwapLanguages | components/TranslationInterface.tsx:112-125 | the state becomes `Swap(old)`; the invariant holds |
| TranslationInterface.Session.ClearInput | components/TranslationInterface.tsx:164-168 | the state becomes `Clear(old)`; the invariant holds |
| TranslationInterface.Session.Dismiss | components/TranslationInterface.tsx:145 | only the error is cleared |
| TranslationInterface.Session.OnTranscript | components/TranslationInterface.tsx:41-44 | the state becomes `AppendTranscript(old, t)`; the invariant holds |
| TranslationInterface.Session.OnRecognitionStart | components/TranslationInterface.tsx:39 | only the listening flag changes, to true |
| TranslationInterface.Session.OnRecognitionEnd | components/TranslationInterface.tsx:40 | only the listening flag changes, to false |
| TranslationInterface.Session.HandleMicClick | components/TranslationInterface.tsx:51-73 | state and recogniser action are as in `MicClick`: unsupported reports; listening stops; otherwise it starts in the source locale, clearing the error or reporting a failed start |
| TranslationInterface.Session.StartTranslation | components/TranslationInterface.tsx:75-90 | state and request are as in `BeginTranslation` |
| TranslationInterface.Session.ReceiveResult | components/TranslationInterface.tsx:92-97 | the state becomes `ApplyResult(old, result)`, with no check of which request the result answers |
| TranslationInterface.Session.AdvanceTime | components/TranslationInterface.tsx:100-103 | state and request are as in `Tick`: a translation starts only when the debounced value changes |

## Left out

- The Gemini library: constructing `GoogleGenAI` and calling `generateContent` (services/translationService.ts:1, 11, 61-64). The call is an oracle parameter. `AiClient` records only the key it was built with.
- Reading `process.env.API_KEY` (services/translationService.ts:4). The key is a constructor or function parameter of type `Option<string>`.
- `console.error` logging. It has no effect on state.
- Browser speech recognition and synthesis, and the clipboard. The model keeps:
  - whether recognition is supported;
  - the transcript event;
  - `onstart`/`onend` as events that set the listening flag;
  - whether `start()` throws, as a parameter.

  `handleSpeak` and `handleCopy` in components/TranslationCard.tsx are not part of this model.
- React effect scheduling (components/TranslationInterface.tsx:101-110). A change of language or of the polite flag re-runs the translation effects. The model does not capture this: only a change of the debounced value starts a translation in `Tick`. Batching and interleaving of renders are not modelled either. Each event is applied on its own, and the order in which results arrive is left to the caller.
- components/TranslationCard.tsx, components/Header.tsx, components/ActionBar.tsx and App.tsx are presentation. From them the model takes only the language list (components/Header.tsx:12) and the callbacks that set state.
- Text.Lower: lower-cases ASCII letters only, not JavaScript's full Unicode case mapping. The only non-ASCII characters whose lower case contains an ASCII letter are U+0130 (to `i` plus a combining dot) and U+212A (to `k`). Neither `i` nor `k` occurs in the four needles, so the rate-limit classification is the same.
- `translateText` takes languages as strings. The model takes the `Language` datatype, because the session only ever passes the three names from the selector.
- An error object whose `message` is undefined is modelled like one with an empty message: `||` falls back to `toString()` for both.
- Time is in abstract units (`nat`). The delay is 600.

## Findings

No source defect is claimed.
