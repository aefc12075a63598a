/**
 * The translation client of services/translationService.ts: `translateText`
 * and the lazily constructed model client behind it.
 *
 * `translateText` is split where it reaches the network. `Prepare` is
 * everything before the remote call (the blank check, the API-key check, the
 * nuance instruction and the prompt); `Finish` maps what the remote call
 * produced to a result. The remote call itself is an oracle from (model name,
 * prompt) to a `RemoteOutcome`.
 */
module TranslationService {
  import opened Optional
  import opened Languages
  import opened Text

  /** The argument record of `translateText`. */
  datatype TranslationParams = TranslationParams(
    text: string,
    sourceLang: Language,
    targetLang: Language,
    isPolite: Option<bool>)

  /** `{ text, error? }`: the translated text and, on failure, a message. */
  datatype TranslationResult = TranslationResult(text: string, error: Option<string>)

  /**
   * What `generateContent` produced: a response whose `text` may be absent,
   * or a thrown error with its `message` (empty when it has none) and what
   * its `toString()` gives.
   */
  datatype RemoteOutcome =
    | Response(text: Option<string>)
    | Thrown(message: string, asString: string)

  /** `translateText` either returns before the network, or sends `prompt` to `model`. */
  datatype Step = Done(result: TranslationResult) | Call(model: string, prompt: string)

  const ModelName := "gemini-flash-lite-latest"

  const ConfigurationError := "Configuration Error: API_KEY is missing in Vercel Environment Variables."
  const ServiceUnavailable := "The service is not available."
  const TranslationFailed := "Translation failed. Please try again."

  const KoreanPolite := "Use polite/formal Korean (존댓말/honorifics). Ensure the tone is respectful."
  const KoreanCasual := "Use casual/informal Korean (반말). Ensure the tone is friendly and conversational."
  const KhmerPolite := "Use formal/polite Khmer (ភាសាផ្លូវការ/គួរសម). Use appropriate honorifics (words like ខ្ញុំ, លោក, អ្នក) and polite particles suitable for business or addressing elders. Ensure it sounds natural, not robotic."
  const KhmerCasual := "Use natural, spoken Khmer (ភាសានិយាយ). Use casual vocabulary and sentence structures common in daily conversation between friends. Avoid stiff, written-style language."

  /** JavaScript truthiness of an optional boolean: `undefined` is false. */
  predicate Truthy(b: Option<bool>)
    ensures Truthy(b) ==> b.Some?
    ensures b.None? ==> !Truthy(b)
  {
    b == Some(true)
  }

  /** `!API_KEY`: the key is undefined or the empty string. */
  predicate KeyMissing(apiKey: Option<string>)
    ensures !KeyMissing(apiKey) <==> apiKey.Some? && |apiKey.value| > 0
  {
    apiKey == None || apiKey == Some("")
  }

  /** `API_KEY || ''`: the key the client is constructed with. */
  function KeyOrEmpty(apiKey: Option<string>): (k: string)
    ensures KeyMissing(apiKey) <==> k == ""
  {
    if apiKey.Some? then apiKey.value else ""
  }

  /**
   * The register instruction for the target language: none for a language
   * without a polite/casual register, otherwise the polite or the casual
   * variant as `isPolite` is truthy or not.
   */
  function NuanceInstruction(targetLang: Language, isPolite: Option<bool>): (r: string)
    ensures r == "" <==> !targetLang.SupportsNuance()
  {
    match targetLang
    case Korean => if Truthy(isPolite) then KoreanPolite else KoreanCasual
    case Khmer => if Truthy(isPolite) then KhmerPolite else KhmerCasual
    case English => ""
  }

  /** The fixed lines of the prompt template, around the interpolated values. */
  const PromptIntro := "\n    Act as a professional translator.\n    Translate the following text from "
  const PromptTo := " to "
  const PromptAfterLanguages := ".\n    "
  const PromptOutro := "\n    Ensure the translation is natural, idiomatically correct, and culturally appropriate for the target audience.\n    Return ONLY the translated text, no explanations.\n    \n    Text: "
  const PromptEnd := "\n  "

  /** The part of the prompt before the nuance line. */
  function PromptLead(sourceLang: string, targetLang: string): string {
    PromptIntro + (sourceLang + (PromptTo + (targetLang + PromptAfterLanguages)))
  }

  /** The part of the prompt after the nuance line, ending with the text in double quotes. */
  function PromptTail(text: string): string {
    PromptOutro + (Quoted(text) + PromptEnd)
  }

  function Quoted(text: string): string {
    "\"" + text + "\""
  }

  /**
   * The template string, with its four interpolated values: it opens with the
   * translator instruction and closes with the quoted text.
   */
  function Template(sourceLang: string, targetLang: string, nuance: string, text: string): (r: string)
    ensures |PromptIntro| + |sourceLang| <= |r| && r[..|PromptIntro| + |sourceLang|] == PromptIntro + sourceLang
    ensures |Quoted(text) + PromptEnd| <= |r| && r[|r| - |Quoted(text) + PromptEnd|..] == Quoted(text) + PromptEnd
  {
    var lead, rest := PromptLead(sourceLang, targetLang), nuance + PromptTail(text);
    var r := lead + rest;
    var tail := sourceLang + (PromptTo + (targetLang + PromptAfterLanguages));
    assert lead == PromptIntro + tail;
    assert r[..|PromptIntro| + |sourceLang|] == lead[..|PromptIntro| + |sourceLang|];
    assert lead[..|PromptIntro| + |sourceLang|] == PromptIntro + sourceLang;
    var end := Quoted(text) + PromptEnd;
    assert rest == (nuance + PromptOutro) + end;
    assert r == (lead + nuance + PromptOutro) + end;
    r
  }

  /**
   * The prompt `translateText` sends for these arguments: the text to
   * translate, in double quotes, is the last thing in it.
   */
  function Prompt(p: TranslationParams): (r: string)
    ensures |Quoted(p.text) + PromptEnd| <= |r| && r[|r| - |Quoted(p.text) + PromptEnd|..] == Quoted(p.text) + PromptEnd
  {
    var src, tgt, nuance := p.sourceLang.Name(), p.targetLang.Name(), NuanceInstruction(p.targetLang, p.isPolite);
    Template(src, tgt, nuance, p.text)
  }

  /**
   * `translateText` up to the remote call: blank text succeeds with no text
   * before the key is looked at; a missing key fails with the configuration
   * message; only then is the prompt sent.
   */
  function Prepare(p: TranslationParams, apiKey: Option<string>): (r: Step)
    ensures IsBlank(p.text) ==> r == Done(TranslationResult("", None))
    ensures !IsBlank(p.text) && KeyMissing(apiKey) ==> r == Done(TranslationResult("", Some(ConfigurationError)))
    ensures r.Call? <==> !IsBlank(p.text) && !KeyMissing(apiKey)
    ensures r.Call? ==> r.model == ModelName && r.prompt == Prompt(p)
  {
    if IsBlank(p.text) then Done(TranslationResult("", None))
    else if KeyMissing(apiKey) then Done(TranslationResult("", Some(ConfigurationError)))
    else Call(ModelName, Prompt(p))
  }

  /** `(error.message || error.toString()).toLowerCase()` */
  function ErrorText(message: string, asString: string): (r: string)
    ensures message != "" ==> r == Lower(message)
    ensures message == "" ==> r == Lower(asString)
    ensures Lower(r) == r
  {
    LowerIdempotent(if message != "" then message else asString);
    Lower(if message != "" then message else asString)
  }

  /** The lower-cased error text names a quota or rate limit. */
  predicate RateLimited(lowered: string)
    ensures RateLimited(lowered) ==> |lowered| >= 3
  {
    Contains(lowered, "429") || Contains(lowered, "quota") ||
    Contains(lowered, "resource_exhausted") || Contains(lowered, "too many requests")
  }

  /**
   * The result for what the remote call produced: a response becomes a
   * success carrying its trimmed text (empty when absent); a thrown error
   * becomes a failure with empty text and the rate-limit or the generic message.
   */
  function Finish(o: RemoteOutcome): (r: TranslationResult)
    ensures r.error.None? <==> o.Response?
    ensures o == Response(None) ==> r.text == ""
    ensures o.Response? && o.text.Some? ==> r.text == Trim(o.text.value)
    ensures o.Thrown? ==> r.text == ""
    ensures o.Thrown? ==>
      (r.error == Some(ServiceUnavailable) <==> RateLimited(ErrorText(o.message, o.asString))) &&
      (r.error == Some(TranslationFailed) <==> !RateLimited(ErrorText(o.message, o.asString)))
  {
    match o
    case Response(text) =>
      TranslationResult(if text.Some? then Trim(text.value) else "", None)
    case Thrown(message, asString) =>
      if RateLimited(ErrorText(message, asString))
      then TranslationResult("", Some(ServiceUnavailable))
      else TranslationResult("", Some(TranslationFailed))
  }

  /**
   * `translateText` with the remote call made by `remote`. Every failure has
   * empty text and one of the three fixed messages; the configuration message
   * appears exactly for non-blank text with a missing key.
   */
  function TranslationOf(p: TranslationParams, apiKey: Option<string>,
                         remote: (string, string) -> RemoteOutcome): (r: TranslationResult)
    ensures r.error.Some? ==>
      && r.text == ""
      && (r.error.value == ConfigurationError || r.error.value == ServiceUnavailable ||
          r.error.value == TranslationFailed)
    ensures r.error == Some(ConfigurationError) <==> !IsBlank(p.text) && KeyMissing(apiKey)
  {
    MessagesDistinct();
    match Prepare(p, apiKey)
    case Done(result) => result
    case Call(model, prompt) => Finish(remote(model, prompt))
  }

  /** The three failure messages are told apart. */
  lemma MessagesDistinct()
    ensures ConfigurationError != ServiceUnavailable && ConfigurationError != TranslationFailed
    ensures ServiceUnavailable != TranslationFailed
  {
  }

  /** Blank text, and a missing key, never reach the remote service. */
  lemma NoRemoteCallWithoutWork(p: TranslationParams, apiKey: Option<string>,
                                remote1: (string, string) -> RemoteOutcome,
                                remote2: (string, string) -> RemoteOutcome)
    requires IsBlank(p.text) || KeyMissing(apiKey)
    ensures TranslationOf(p, apiKey, remote1) == TranslationOf(p, apiKey, remote2)
    ensures TranslationOf(p, apiKey, remote1).text == ""
  {
  }

  /** Blank input succeeds with no text even when the key is missing. */
  lemma BlankBeforeKey(p: TranslationParams, remote: (string, string) -> RemoteOutcome)
    requires IsBlank(p.text)
    ensures TranslationOf(p, None, remote) == TranslationResult("", None)
  {
  }

  /** Only a truthy `isPolite` picks the polite variant; `undefined` behaves as `false`. */
  lemma NuanceFollowsTruthiness(targetLang: Language, isPolite: Option<bool>)
    ensures NuanceInstruction(targetLang, isPolite) == NuanceInstruction(targetLang, Some(Truthy(isPolite)))
    ensures targetLang.SupportsNuance() ==>
      NuanceInstruction(targetLang, Some(true)) != NuanceInstruction(targetLang, Some(false))
  {
  }

  /**
   * The template names both languages and carries the nuance line and the
   * text in double quotes.
   */
  lemma TemplateMentionsValues(sourceLang: string, targetLang: string, nuance: string, text: string)
    ensures var t := Template(sourceLang, targetLang, nuance, text);
      Contains(t, sourceLang) && Contains(t, targetLang) && Contains(t, nuance) && Contains(t, Quoted(text))
  {
    var lead, tail := PromptLead(sourceLang, targetLang), PromptTail(text);
    var rest := nuance + tail;
    ContainsPrefix(targetLang, PromptAfterLanguages);
    ContainsAfter(PromptTo, targetLang + PromptAfterLanguages, targetLang);
    ContainsPrefix(sourceLang, PromptTo + (targetLang + PromptAfterLanguages));
    ContainsAfter(sourceLang, PromptTo + (targetLang + PromptAfterLanguages), targetLang);
    ContainsAfter(PromptIntro, sourceLang + (PromptTo + (targetLang + PromptAfterLanguages)), sourceLang);
    ContainsAfter(PromptIntro, sourceLang + (PromptTo + (targetLang + PromptAfterLanguages)), targetLang);
    ContainsBefore(lead, rest, sourceLang);
    ContainsBefore(lead, rest, targetLang);
    ContainsPrefix(nuance, tail);
    ContainsAfter(lead, rest, nuance);
    ContainsPrefix(Quoted(text), PromptEnd);
    ContainsAfter(PromptOutro, Quoted(text) + PromptEnd, Quoted(text));
    ContainsAfter(nuance, tail, Quoted(text));
    ContainsAfter(lead, rest, Quoted(text));
  }

  /** The prompt names both languages and carries the nuance line and the text in double quotes. */
  lemma PromptMentionsRequest(p: TranslationParams)
    ensures Contains(Prompt(p), p.sourceLang.Name())
    ensures Contains(Prompt(p), p.targetLang.Name())
    ensures Contains(Prompt(p), NuanceInstruction(p.targetLang, p.isPolite))
    ensures Contains(Prompt(p), Quoted(p.text))
  {
    TemplateMentionsValues(p.sourceLang.Name(), p.targetLang.Name(), NuanceInstruction(p.targetLang, p.isPolite), p.text);
  }

  /**
   * Two prompts that differ in the nuance line only agree up to the nuance
   * line and after it.
   */
  lemma TemplateDiffersInNuanceOnly(sourceLang: string, targetLang: string, n: string, m: string, text: string)
    ensures SameOutside(Template(sourceLang, targetLang, n, text), Template(sourceLang, targetLang, m, text),
      |PromptLead(sourceLang, targetLang)|, n, m)
  {
    Splice(PromptLead(sourceLang, targetLang), n, PromptTail(text));
    Splice(PromptLead(sourceLang, targetLang), m, PromptTail(text));
  }

  /**
   * `a` holds `n` and `b` holds `m` at index `k`, and the two strings agree
   * on everything before and after.
   */
  predicate SameOutside(a: string, b: string, k: nat, n: string, m: string) {
    && k + |n| <= |a| && k + |m| <= |b|
    && a[..k] == b[..k] && a[k..k + |n|] == n && b[k..k + |m|] == m
    && a[k + |n|..] == b[k + |m|..]
  }

  /**
   * Changing `isPolite` changes the nuance line and nothing else, and for a
   * target language without a register it changes nothing.
   */
  lemma PolitenessOnlyChangesNuance(p: TranslationParams, isPolite: Option<bool>)
    ensures SameOutside(Prompt(p), Prompt(p.(isPolite := isPolite)),
      |PromptLead(p.sourceLang.Name(), p.targetLang.Name())|,
      NuanceInstruction(p.targetLang, p.isPolite), NuanceInstruction(p.targetLang, isPolite))
    ensures !p.targetLang.SupportsNuance() ==> Prompt(p.(isPolite := isPolite)) == Prompt(p)
  {
    TemplateDiffersInNuanceOnly(p.sourceLang.Name(), p.targetLang.Name(),
      NuanceInstruction(p.targetLang, p.isPolite), NuanceInstruction(p.targetLang, isPolite), p.text);
    if !p.targetLang.SupportsNuance() {
      assert NuanceInstruction(p.targetLang, p.isPolite) == NuanceInstruction(p.targetLang, isPolite);
    }
  }

  /** Where a value sits in `lead + (value + tail)`. */
  lemma Splice(lead: string, value: string, tail: string)
    ensures var s := lead + (value + tail);
      s[..|lead|] == lead && s[|lead|..|lead| + |value|] == value && s[|lead| + |value|..] == tail
  {
  }

  /** A failure whose text mentions 429, in any case, is reported as the service being unavailable. */
  lemma Status429IsUnavailable(message: string, asString: string)
    requires message != "" && Contains(message, "429")
    ensures Finish(Thrown(message, asString)) == TranslationResult("", Some(ServiceUnavailable))
  {
    ContainsLower(message, "429");
    assert Lower("429") == "429";
  }

  /** The needles are matched after lower-casing, so an upper-case quota message is rate-limited too. */
  lemma UpperCaseQuotaIsUnavailable(message: string)
    requires Contains(message, "QUOTA")
    ensures Finish(Thrown(message, "")) == TranslationResult("", Some(ServiceUnavailable))
  {
    ContainsLower(message, "QUOTA");
    assert Lower("QUOTA") == "quota";
  }

  /**
   * A failure whose message (or, without one, whose `toString()`) contains
   * one of the four needles, in any mix of ASCII letter case, is reported as
   * the service being unavailable.
   */
  lemma RateLimitNeedleIsUnavailable(message: string, asString: string, found: string)
    requires Contains(if message != "" then message else asString, found)
    requires Lower(found) in {"429", "quota", "resource_exhausted", "too many requests"}
    ensures Finish(Thrown(message, asString)) == TranslationResult("", Some(ServiceUnavailable))
  {
    ContainsLower(if message != "" then message else asString, found);
  }

  /** A failure whose text carries no rate-limit needle is the generic failure. */
  lemma OtherFailureIsGeneric(message: string, asString: string)
    requires !RateLimited(ErrorText(message, asString))
    ensures Finish(Thrown(message, asString)) == TranslationResult("", Some(TranslationFailed))
  {
  }

  /** A response that is only white space is an empty success, not an error. */
  lemma BlankResponseIsEmptySuccess(t: string)
    requires AllSpace(t)
    ensures Finish(Response(Some(t))) == TranslationResult("", None)
  {
    BlankIffAllSpace(t);
  }

  /**
   * A polite English-to-Korean request (such as "Hello"): the prompt carries
   * the polite Korean instruction, and an answer with no surrounding white
   * space (such as "안녕하세요") comes back unchanged with no error.
   */
  lemma PoliteKoreanRequest(p: TranslationParams, answer: string, apiKey: string,
                            remote: (string, string) -> RemoteOutcome)
    requires p.targetLang == Korean && p.isPolite == Some(true)
    requires !IsBlank(p.text) && apiKey != ""
    requires answer != [] && !IsSpace(answer[0]) && !IsSpace(answer[|answer| - 1])
    requires remote(ModelName, Prompt(p)) == Response(Some(answer))
    ensures Contains(Prompt(p), KoreanPolite)
    ensures TranslationOf(p, Some(apiKey), remote) == TranslationResult(answer, None)
  {
    PromptMentionsRequest(p);
    assert NuanceInstruction(p.targetLang, p.isPolite) == KoreanPolite;
    assert !KeyMissing(Some(apiKey));
    assert Prepare(p, Some(apiKey)) == Call(ModelName, Prompt(p));
    WordHasNoSurroundingSpace(answer);
    assert Finish(Response(Some(answer))) == TranslationResult(answer, None);
  }

  /** A word that neither starts nor ends with white space trims to itself. */
  lemma WordHasNoSurroundingSpace(w: string)
    requires w != [] && !IsSpace(w[0]) && !IsSpace(w[|w| - 1])
    ensures Trim(w) == w
  {
    assert TrimStart(w) == w;
  }

  /**
   * Without a key, text that is not blank (such as "Hello") fails with the
   * configuration message and empty text, whatever the remote service would say.
   */
  lemma MissingKeyFailsFast(p: TranslationParams, apiKey: Option<string>,
                            remote: (string, string) -> RemoteOutcome)
    requires !IsBlank(p.text) && KeyMissing(apiKey)
    ensures TranslationOf(p, apiKey, remote) == TranslationResult("", Some(ConfigurationError))
  {
  }

  /** The model client, built once from the key. */
  class AiClient {
    const apiKey: string

    constructor (apiKey: string)
      ensures this.apiKey == apiKey
    {
      this.apiKey := apiKey;
    }
  }

  /**
   * The module-level state of services/translationService.ts: the key read
   * at start-up and the client that `getAiClient` constructs on first use.
   */
  class ServiceModule {
    const apiKey: Option<string>
    var aiClient: Option<AiClient>
    /** How many clients have been constructed so far. */
    ghost var constructions: nat

    /** A client has been constructed at most once, and exactly when one is cached. */
    ghost predicate Valid()
      reads this
    {
      constructions == (if aiClient.Some? then 1 else 0)
    }

    constructor (apiKey: Option<string>)
      ensures Valid() && this.apiKey == apiKey && aiClient == None
    {
      this.apiKey := apiKey;
      aiClient := None;
      constructions := 0;
    }

    /** `getAiClient`: the cached client, constructed with `API_KEY || ''` on the first call. */
    method GetAiClient() returns (c: AiClient)
      requires Valid()
      modifies this
      ensures Valid() && aiClient == Some(c)
      ensures old(aiClient).Some? ==> c == old(aiClient).value && constructions == old(constructions)
      ensures old(aiClient).None? ==> fresh(c) && c.apiKey == KeyOrEmpty(apiKey)
    {
      if aiClient.None? {
        var client := new AiClient(KeyOrEmpty(apiKey));
        aiClient := Some(client);
        constructions := constructions + 1;
      }
      c := aiClient.value;
    }

    /** Two calls of `getAiClient` hand out the same client. */
    method GetAiClientTwice() returns (c1: AiClient, c2: AiClient)
      requires Valid()
      modifies this
      ensures Valid() && c1 == c2 && constructions <= 1
    {
      c1 := GetAiClient();
      c2 := GetAiClient();
    }

    /**
     * `translateText`: the client is fetched, and the remote call made, only
     * when the text is not blank and the key is present.
     */
    method TranslateText(p: TranslationParams, remote: (string, string) -> RemoteOutcome)
      returns (r: TranslationResult)
      requires Valid()
      modifies this
      ensures Valid() && r == TranslationOf(p, apiKey, remote)
      ensures old(aiClient).Some? ==> aiClient == old(aiClient)
      ensures aiClient.Some? <==> old(aiClient).Some? || Prepare(p, apiKey).Call?
    {
      var step := Prepare(p, apiKey);
      match step
      case Done(result) =>
        r := result;
      case Call(model, prompt) =>
        var ai := GetAiClient();
        r := Finish(remote(model, prompt));
    }
  }
}
