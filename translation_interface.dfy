/**
 * The state of the `TranslationInterface` component
 * (components/TranslationInterface.tsx) and the events that change it.
 *
 * `SessionState` and one function per event give the meaning of each event;
 * the `Session` class holds the component's state fields and has one method
 * per event, each proved to move its state as the function says and to keep
 * the invariant `Inv`.
 *
 * `performTranslation` awaits the translation client, so it is split at the
 * `await`: `BeginTranslation` is what happens before it (and yields the
 * request, if any), `ApplyResult` is the continuation that runs when a result
 * arrives. Results are applied in the order they arrive, whatever order the
 * requests were issued in.
 */
module TranslationInterface {
  import opened Optional
  import opened Languages
  import opened Text
  import opened TranslationService
  import opened Debounce

  const UnsupportedSpeech := "Speech recognition is not supported in this browser."
  const MicrophoneFailed := "Could not start microphone."

  /** The component's state, with the state of its debounced copy of the input. */
  datatype SessionState = SessionState(
    inputText: string,
    outputText: string,
    error: Option<string>,
    sourceLang: Language,
    targetLang: Language,
    isPolite: bool,
    isListening: bool,
    debounced: DebounceState)

  /**
   * What the state always satisfies: the pending debounce timer carries the
   * current input, or, with no timer pending, the debounced value is the
   * current input; and a displayed error is never the empty string.
   */
  predicate Inv(s: SessionState) {
    && Debounce.Valid(s.debounced)
    && (match s.debounced.pending
        case Some(t) => t.value == s.inputText
        case None => s.debounced.current == s.inputText)
    && (s.error.Some? ==> s.error.value != "")
  }

  /** The state on mount: English to polite Korean, nothing typed, not listening. */
  function Initial(): (s: SessionState)
    ensures Inv(s)
  {
    SessionState("", "", None, English, Korean, true, false, Init(""))
  }

  /**
   * `setInputText(v)`: the input becomes `v`; when that changes the input,
   * the debounce effect re-runs and restarts the timer.
   */
  function SetInput(s: SessionState, v: string): (r: SessionState)
    requires Inv(s)
    ensures Inv(r)
  {
    s.(inputText := v,
       debounced := if v != s.inputText then Change(s.debounced, v) else s.debounced)
  }

  /** `handleSwapLanguages`. */
  function Swap(s: SessionState): (r: SessionState)
    requires Inv(s)
    ensures Inv(r)
  {
    var swapped := s.(sourceLang := s.targetLang, targetLang := s.sourceLang,
                      outputText := s.inputText, error := None,
                      isPolite := if s.sourceLang.SupportsNuance() then true else s.isPolite);
    SetInput(swapped, s.outputText)
  }

  /** The clear button of the input card. */
  function Clear(s: SessionState): (r: SessionState)
    requires Inv(s)
    ensures Inv(r)
  {
    SetInput(s.(outputText := "", error := None), "")
  }

  /** The close button of the error alert. */
  function DismissError(s: SessionState): (r: SessionState)
    requires Inv(s)
    ensures Inv(r)
  {
    s.(error := None)
  }

  /** `onresult`: the transcript is appended after a space, or replaces an empty input. */
  function AppendTranscript(s: SessionState, transcript: string): (r: SessionState)
    requires Inv(s)
    ensures Inv(r)
  {
    SetInput(s, if s.inputText != "" then s.inputText + " " + transcript else transcript)
  }

  /** The recognition locale for the source language. */
  function Locale(l: Language): (r: string)
    ensures |r| == 5 && r[2] == '-'
  {
    match l
    case English => "en-US"
    case Korean => "ko-KR"
    case Khmer => "km-KH"
  }

  /** What a microphone click asks of the speech recogniser. */
  datatype MicAction = NoAction | StopRecognition | StartRecognition(locale: string)

  /**
   * `handleMicClick`: without recognition support it only reports that;
   * while listening it stops the recogniser; otherwise it starts it in the
   * source language's locale, clearing the error or, if starting throws,
   * reporting that.
   */
  function MicClick(s: SessionState, supported: bool, startThrows: bool): (r: (SessionState, MicAction))
    requires Inv(s)
    ensures Inv(r.0)
  {
    if !supported then (s.(error := Some(UnsupportedSpeech)), NoAction)
    else if s.isListening then (s, StopRecognition)
    else if startThrows then (s.(error := Some(MicrophoneFailed)), StartRecognition(Locale(s.sourceLang)))
    else (s.(error := None), StartRecognition(Locale(s.sourceLang)))
  }

  /** The politeness `performTranslation` forwards: only for a target language with a register. */
  function ForwardedPoliteness(s: SessionState): (r: Option<bool>)
    ensures r.Some? <==> s.targetLang.SupportsNuance()
    ensures r.Some? ==> r.value == s.isPolite
  {
    if s.targetLang.SupportsNuance() then Some(s.isPolite) else None
  }

  /**
   * `performTranslation(text)` up to its `await`: blank text clears output
   * and error and asks for nothing; other text clears the error and asks
   * for a translation with the current languages.
   */
  function BeginTranslation(s: SessionState, text: string): (r: (SessionState, Option<TranslationParams>))
    requires Inv(s)
    ensures Inv(r.0)
  {
    if IsBlank(text) then (s.(outputText := "", error := None), None)
    else (s.(error := None), Some(TranslationParams(text, s.sourceLang, s.targetLang, ForwardedPoliteness(s))))
  }

  /** JavaScript truthiness of `result.error`. */
  predicate HasError(result: TranslationResult)
    ensures HasError(result) ==> result.error.Some?
    ensures result.error.Some? && result.error.value in {ConfigurationError, ServiceUnavailable, TranslationFailed} ==>
      HasError(result)
  {
    result.error.Some? && result.error.value != ""
  }

  /** The continuation of `performTranslation`: a result is applied whenever it arrives. */
  function ApplyResult(s: SessionState, result: TranslationResult): (r: SessionState)
    requires Inv(s)
    ensures Inv(r)
  {
    if HasError(result) then s.(error := result.error, outputText := "")
    else s.(outputText := result.text)
  }

  /**
   * `dt` time units pass. If the debounce timer fires and changes the
   * debounced value, the translation effect runs for the new value.
   */
  function Tick(s: SessionState, dt: nat): (r: (SessionState, Option<TranslationParams>))
    requires Inv(s)
    ensures Inv(r.0)
  {
    var d := Elapse(s.debounced, dt);
    var s1 := s.(debounced := d);
    if d.current != s.debounced.current then BeginTranslation(s1, d.current) else (s1, None)
  }

  /** Swapping twice restores both languages and both texts, and leaves no error. */
  lemma SwapTwiceRestores(s: SessionState)
    requires Inv(s)
    ensures var r := Swap(Swap(s));
      && r.sourceLang == s.sourceLang && r.targetLang == s.targetLang
      && r.inputText == s.inputText && r.outputText == s.outputText
      && r.error == None
      && r.isPolite == (s.isPolite || s.sourceLang.SupportsNuance() || s.targetLang.SupportsNuance())
  {
  }

  /** Clearing leaves the languages, the politeness and the listening state alone. */
  lemma ClearKeepsSettings(s: SessionState)
    requires Inv(s)
    ensures var r := Clear(s);
      && r.inputText == "" && r.outputText == "" && r.error == None
      && r.sourceLang == s.sourceLang && r.targetLang == s.targetLang
      && r.isPolite == s.isPolite && r.isListening == s.isListening
      && r.debounced.current == s.debounced.current
  {
  }

  /**
   * Once `Delay` has passed, the debounced value is the input, whatever was
   * pending; a translation of the input starts exactly when that changed the
   * debounced value and the input is not blank.
   */
  lemma TickSettlesOnInput(s: SessionState, dt: nat)
    requires Inv(s)
    requires s.debounced.pending.Some? ==> dt >= s.debounced.pending.value.remaining
    ensures Tick(s, dt).0.debounced == DebounceState(s.inputText, None)
    ensures Tick(s, dt).1.Some? <==> s.debounced.current != s.inputText && !IsBlank(s.inputText)
    ensures Tick(s, dt).1.Some? ==> Tick(s, dt).1.value.text == s.inputText
    ensures Tick(s, dt).0.inputText == s.inputText
  {
  }

  /**
   * Before the pending timer runs out, time passing only counts the timer
   * down: the debounced value stays and no translation starts. With no timer
   * pending, nothing changes at all.
   */
  lemma TickBeforeTimerIsQuiet(s: SessionState, dt: nat)
    requires Inv(s)
    requires s.debounced.pending.Some? ==> dt < s.debounced.pending.value.remaining
    ensures Tick(s, dt).1 == None
    ensures s.debounced.pending.None? ==> Tick(s, dt).0 == s
    ensures s.debounced.pending.Some? ==>
      Tick(s, dt).0 == s.(debounced := s.debounced.(pending :=
        Some(Timer(s.inputText, s.debounced.pending.value.remaining - dt))))
  {
  }

  /**
   * Clearing does not reset the debounced value itself, but once `Delay` has
   * passed the debounced value is empty, and no request is issued.
   */
  lemma ClearSettlesToEmpty(s: SessionState, dt: nat)
    requires Inv(s)
    requires dt >= Delay
    ensures var r := Tick(Clear(s), dt);
      r.0.debounced == DebounceState("", None) && r.1 == None &&
      r.0.inputText == "" && r.0.outputText == "" && r.0.error == None
  {
    var c := Clear(s);
    TickSettlesOnInput(c, dt);
    assert IsBlank("");
    var d := Elapse(c.debounced, dt);
    if d.current != c.debounced.current {
      BlankTextIssuesNoRequest(c.(debounced := d), "");
    }
  }

  /**
   * The user types `vs`, one value after the other, waiting `gaps[i]` after
   * `vs[i]`: where that leaves the session, and the translations it started.
   */
  function Typing(s: SessionState, vs: seq<string>, gaps: seq<nat>): (r: (SessionState, seq<TranslationParams>))
    requires Inv(s) && |vs| == |gaps|
    ensures Inv(r.0)
    decreases |vs|
  {
    if vs == [] then (s, [])
    else
      var (s1, req) := Tick(SetInput(s, vs[0]), gaps[0]);
      var (s2, reqs) := Typing(s1, vs[1..], gaps[1..]);
      (s2, (if req.Some? then [req.value] else []) + reqs)
  }

  /**
   * Typing values that each differ from the one before, with every pause
   * shorter than `Delay`, starts no translation and leaves the debounced
   * value where it was, with a timer pending for the last value.
   */
  lemma {:induction false} TypingKeepsQuiet(s: SessionState, vs: seq<string>, gaps: seq<nat>)
    requires Inv(s) && |vs| == |gaps| && |vs| > 0
    requires vs[0] != s.inputText
    requires forall i :: 0 < i < |vs| ==> vs[i] != vs[i - 1]
    requires forall i :: 0 <= i < |gaps| ==> gaps[i] < Delay
    ensures var (r, reqs) := Typing(s, vs, gaps);
      && reqs == [] && r.inputText == vs[|vs| - 1]
      && r.debounced.current == s.debounced.current
      && r.outputText == s.outputText && r.error == s.error
      && r.debounced.pending.Some? && r.debounced.pending.value.value == vs[|vs| - 1]
    decreases |vs|
  {
    var s1 := SetInput(s, vs[0]);
    assert s1.debounced.pending == Some(Timer(vs[0], Delay));
    TickBeforeTimerIsQuiet(s1, gaps[0]);
    var s2 := Tick(s1, gaps[0]).0;
    if |vs| > 1 {
      assert vs[1..][0] == vs[1];
      TypingKeepsQuiet(s2, vs[1..], gaps[1..]);
    }
  }

  /**
   * A burst of typing followed by a pause of at least `Delay`: exactly one
   * translation starts, for the last value typed, unless that value is blank
   * or is already the debounced value.
   */
  lemma BurstTranslatesOnce(s: SessionState, vs: seq<string>, gaps: seq<nat>, pause: nat)
    requires Inv(s) && |vs| == |gaps| && |vs| > 0
    requires vs[0] != s.inputText
    requires forall i :: 0 < i < |vs| ==> vs[i] != vs[i - 1]
    requires forall i :: 0 <= i < |gaps| ==> gaps[i] < Delay
    requires pause >= Delay
    ensures var (r, reqs) := Typing(s, vs, gaps);
      var last := vs[|vs| - 1];
      && reqs == []
      && Tick(r, pause).0.debounced == DebounceState(last, None)
      && (Tick(r, pause).1.Some? <==> last != s.debounced.current && !IsBlank(last))
      && (Tick(r, pause).1.Some? ==> Tick(r, pause).1.value.text == last)
  {
    TypingKeepsQuiet(s, vs, gaps);
    TickSettlesOnInput(Typing(s, vs, gaps).0, pause);
  }

  /** A transcript keeps what was typed as a prefix and ends the input. */
  lemma TranscriptExtendsInput(s: SessionState, transcript: string)
    requires Inv(s)
    ensures var r := AppendTranscript(s, transcript).inputText;
      && |r| == |s.inputText| + |transcript| + (if s.inputText == "" then 0 else 1)
      && r[..|s.inputText|] == s.inputText
      && r[|r| - |transcript|..] == transcript
      && (s.inputText != "" ==> r[|s.inputText|] == ' ')
  {
    var r := AppendTranscript(s, transcript).inputText;
    if s.inputText != "" {
      assert r == s.inputText + " " + transcript;
      assert r[..|s.inputText|] == s.inputText;
    }
  }

  /** Without recognition support, a microphone click only reports that. */
  lemma UnsupportedMicOnlyReports(s: SessionState, startThrows: bool)
    requires Inv(s)
    ensures MicClick(s, false, startThrows) == (s.(error := Some(UnsupportedSpeech)), NoAction)
  {
  }

  /** Blank text asks for no translation and clears output and error. */
  lemma BlankTextIssuesNoRequest(s: SessionState, text: string)
    requires Inv(s) && IsBlank(text)
    ensures BeginTranslation(s, text) == (s.(outputText := "", error := None), None)
  {
  }

  /**
   * Other text asks for exactly that text with the current languages; the
   * politeness goes along only for Korean and Khmer, and the nuance line of
   * the resulting prompt follows the session's polite/casual setting.
   */
  lemma RequestCarriesSettings(s: SessionState, text: string)
    requires Inv(s) && !IsBlank(text)
    ensures var (r, req) := BeginTranslation(s, text);
      && r == s.(error := None)
      && req.Some? && req.value.text == text
      && req.value.sourceLang == s.sourceLang && req.value.targetLang == s.targetLang
      && (req.value.isPolite.Some? <==> s.targetLang.SupportsNuance())
      && NuanceInstruction(s.targetLang, req.value.isPolite) == NuanceInstruction(s.targetLang, Some(s.isPolite))
  {
  }

  /**
   * There is no guard against stale results: the result that arrives last
   * decides the output, whichever request it answers.
   */
  lemma LastArrivalDecidesOutput(s: SessionState, first: TranslationResult, second: TranslationResult)
    requires Inv(s)
    ensures ApplyResult(ApplyResult(s, first), second).outputText == ApplyResult(s, second).outputText
    ensures HasError(second) ==> ApplyResult(ApplyResult(s, first), second).error == second.error
  {
  }

  /**
   * Two requests, `a` then `b`, both begun: if `b`'s success arrives first
   * and `a`'s failure after it, the older failure replaces the newer output.
   */
  lemma StaleFailureOverwritesNewerOutput(s: SessionState, a: string, b: string,
                                          forA: TranslationResult, forB: TranslationResult)
    requires Inv(s) && !IsBlank(a) && !IsBlank(b)
    requires HasError(forA) && !HasError(forB)
    ensures var s1 := BeginTranslation(s, a).0;
      var s2 := BeginTranslation(s1, b).0;
      var s3 := ApplyResult(ApplyResult(s2, forB), forA);
      s3.outputText == "" && s3.error == forA.error
  {
  }

  /**
   * A success applied after a failure shows the new output but keeps the old
   * error: only starting a translation clears the error, not applying one.
   */
  lemma SuccessKeepsEarlierError(s: SessionState, failure: TranslationResult, success: TranslationResult)
    requires Inv(s) && HasError(failure) && !HasError(success)
    ensures var r := ApplyResult(ApplyResult(s, failure), success);
      r.outputText == success.text && r.error == failure.error
  {
  }

  /** The component's state fields, with the debounced copy of the input. */
  class Session {
    var inputText: string
    var outputText: string
    var error: Option<string>
    var sourceLang: Language
    var targetLang: Language
    var isPolite: bool
    var isListening: bool
    /** Whether the browser offers speech recognition (the recogniser reference is set). */
    const recognitionSupported: bool
    const debouncer: Debouncer

    ghost function State(): SessionState
      reads this, debouncer
    {
      SessionState(inputText, outputText, error, sourceLang, targetLang, isPolite, isListening,
                   debouncer.State())
    }

    ghost predicate Valid()
      reads this, debouncer
    {
      Inv(State())
    }

    constructor (recognitionSupported: bool)
      ensures Valid() && State() == Initial() && fresh(debouncer)
      ensures this.recognitionSupported == recognitionSupported
    {
      inputText, outputText, error := "", "", None;
      sourceLang, targetLang := English, Korean;
      isPolite, isListening := true, false;
      this.recognitionSupported := recognitionSupported;
      debouncer := new Debouncer("");
    }

    /**
     * `setInputText(v)`, as typing in the input card calls it; a changed
     * input re-runs the debounce effect, which restarts the timer.
     */
    method SetInputText(v: string)
      requires Valid()
      modifies this, debouncer
      ensures Valid() && State() == SetInput(old(State()), v)
    {
      if v != inputText {
        debouncer.Restart(v);
      }
      inputText := v;
    }

    /** The source language selector. */
    method SetSourceLang(l: Language)
      requires Valid()
      modifies this
      ensures Valid() && State() == old(State()).(sourceLang := l)
    {
      sourceLang := l;
    }

    /** The target language selector. */
    method SetTargetLang(l: Language)
      requires Valid()
      modifies this
      ensures Valid() && State() == old(State()).(targetLang := l)
    {
      targetLang := l;
    }

    /** The polite/casual toggle of the output card. */
    method SetIsPolite(b: bool)
      requires Valid()
      modifies this
      ensures Valid() && State() == old(State()).(isPolite := b)
    {
      isPolite := b;
    }

    method SwapLanguages()
      requires Valid()
      modifies this, debouncer
      ensures Valid() && State() == Swap(old(State()))
    {
      var newTarget := sourceLang;
      var oldInput := inputText;
      sourceLang, targetLang := targetLang, sourceLang;
      SetInputText(outputText);
      outputText := oldInput;
      error := None;
      if newTarget.SupportsNuance() {
        isPolite := true;
      }
    }

    method ClearInput()
      requires Valid()
      modifies this, debouncer
      ensures Valid() && State() == Clear(old(State()))
    {
      SetInputText("");
      outputText := "";
      error := None;
    }

    method Dismiss()
      requires Valid()
      modifies this
      ensures Valid() && State() == DismissError(old(State()))
    {
      error := None;
    }

    method OnTranscript(transcript: string)
      requires Valid()
      modifies this, debouncer
      ensures Valid() && State() == AppendTranscript(old(State()), transcript)
    {
      SetInputText(if inputText != "" then inputText + " " + transcript else transcript);
    }

    /** The recogniser's `onstart`. */
    method OnRecognitionStart()
      requires Valid()
      modifies this
      ensures Valid() && State() == old(State()).(isListening := true)
    {
      isListening := true;
    }

    /** The recogniser's `onend`. */
    method OnRecognitionEnd()
      requires Valid()
      modifies this
      ensures Valid() && State() == old(State()).(isListening := false)
    {
      isListening := false;
    }

    /** `handleMicClick`; `startThrows` says whether the recogniser's `start()` throws. */
    method HandleMicClick(startThrows: bool) returns (action: MicAction)
      requires Valid()
      modifies this
      ensures Valid()
      ensures (State(), action) == MicClick(old(State()), recognitionSupported, startThrows)
    {
      if !recognitionSupported {
        error := Some(UnsupportedSpeech);
        return NoAction;
      }
      if isListening {
        action := StopRecognition;
      } else {
        action := StartRecognition(Locale(sourceLang));
        if startThrows {
          error := Some(MicrophoneFailed);
        } else {
          error := None;
        }
      }
    }

    /** `performTranslation(text)` up to its `await`; `request` is what is sent to the client. */
    method StartTranslation(text: string) returns (request: Option<TranslationParams>)
      requires Valid()
      modifies this
      ensures Valid()
      ensures (State(), request) == BeginTranslation(old(State()), text)
    {
      ghost var s0 := State();
      if IsBlank(text) {
        outputText := "";
        error := None;
        assert State() == s0.(outputText := "", error := None);
        return None;
      }
      error := None;
      var polite := if targetLang == Korean || targetLang == Khmer then Some(isPolite) else None;
      assert polite == ForwardedPoliteness(s0);
      request := Some(TranslationParams(text, sourceLang, targetLang, polite));
      assert State() == s0.(error := None);
    }

    /** The rest of `performTranslation`, when `result` arrives. */
    method ReceiveResult(result: TranslationResult)
      requires Valid()
      modifies this
      ensures Valid() && State() == ApplyResult(old(State()), result)
    {
      if result.error.Some? && result.error.value != "" {
        error := result.error;
        outputText := "";
      } else {
        outputText := result.text;
      }
    }

    /** Time passes; a translation is begun when the debounced value changes. */
    method AdvanceTime(dt: nat) returns (request: Option<TranslationParams>)
      requires Valid()
      modifies this, debouncer
      ensures Valid()
      ensures (State(), request) == Tick(old(State()), dt)
    {
      var before := debouncer.current;
      var fired := debouncer.Advance(dt);
      request := None;
      if debouncer.current != before {
        request := StartTranslation(debouncer.current);
      }
    }
  }
}
