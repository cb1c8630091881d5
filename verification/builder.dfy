/**
  The fluent request builder. Every setter is a pure update of the request the
  builder holds; the voice-setting setters merge into the current settings
  (starting from all-unset settings) instead of replacing them, and `execute`
  hands the accumulated request to the client.
*/
module Builder {
  import opened Wrappers
  import opened Ints
  import opened Types
  import opened Errors
  import opened Wire
  import opened Client
  import opened Utf8

  /** A request under construction, bound to the client that will send it. */
  datatype SpeechRequestBuilder = SpeechRequestBuilder(client: SpeechClient, request: SpeechRequest)

  /** The fields of a `SpeechRequest`. */
  datatype RequestField =
    | TextField | ModelField | VoiceField | SettingsField | FormatField | LanguageCodeField | SeedField
    | PreviousTextField | NextTextField | PreviousRequestIdsField | NextRequestIdsField
    | TextNormalizationField | LanguageTextNormalizationField

  /** `a` and `b` agree on every field other than `f`. */
  predicate AgreeExcept(a: SpeechRequest, b: SpeechRequest, f: RequestField)
  {
    && (f == TextField || a.text == b.text)
    && (f == ModelField || a.model == b.model)
    && (f == VoiceField || a.voice == b.voice)
    && (f == SettingsField || a.voiceSettings == b.voiceSettings)
    && (f == FormatField || a.outputFormat == b.outputFormat)
    && (f == LanguageCodeField || a.languageCode == b.languageCode)
    && (f == SeedField || a.seed == b.seed)
    && (f == PreviousTextField || a.previousText == b.previousText)
    && (f == NextTextField || a.nextText == b.nextText)
    && (f == PreviousRequestIdsField || a.previousRequestIds == b.previousRequestIds)
    && (f == NextRequestIdsField || a.nextRequestIds == b.nextRequestIds)
    && (f == TextNormalizationField || a.applyTextNormalization == b.applyTextNormalization)
    && (f == LanguageTextNormalizationField || a.applyLanguageTextNormalization == b.applyLanguageTextNormalization)
  }

  /** `r` is `b` with at most field `f` of the request changed. */
  predicate OnlyChanges(b: SpeechRequestBuilder, r: SpeechRequestBuilder, f: RequestField)
  {
    r.client == b.client && AgreeExcept(b.request, r.request, f)
  }

  /** The fields of a `VoiceSettings`. */
  datatype SettingsField = StabilityField | SimilarityBoostField | StyleField | SpeakerBoostField

  /** `a` and `b` agree on every voice setting other than `f`. */
  predicate SettingsAgreeExcept(a: VoiceSettings, b: VoiceSettings, f: SettingsField)
  {
    && (f == StabilityField || a.stability == b.stability)
    && (f == SimilarityBoostField || a.similarityBoost == b.similarityBoost)
    && (f == StyleField || a.style == b.style)
    && (f == SpeakerBoostField || a.useSpeakerBoost == b.useSpeakerBoost)
  }

  /** The settings a merging setter starts from: the current ones, or all unset. */
  function CurrentSettings(req: SpeechRequest): VoiceSettings
  {
    req.voiceSettings.GetOr(DefaultSettings)
  }

  /** `r` sets the one voice setting `f` and keeps the other settings and every other field of `b`. */
  predicate MergesSetting(b: SpeechRequestBuilder, r: SpeechRequestBuilder, f: SettingsField)
  {
    && OnlyChanges(b, r, SettingsField)
    && r.request.voiceSettings.Some?
    && SettingsAgreeExcept(CurrentSettings(b.request), r.request.voiceSettings.value, f)
  }

  /** `SpeechClient::synthesize`: a builder over the default request. */
  function Synthesize(c: SpeechClient): (b: SpeechRequestBuilder)
    ensures b.client == c
    ensures b.request.model == ElevenMultilingualV2 && b.request.voice == Rachel
    ensures ResolvedFormat(b.request.outputFormat) == Mp3_44100_128
    ensures Validate(b.request, c.apiKey) == Fail(MissingInput)
    ensures RequestObject(ToJson(b.request)).Keys == {TextKey, ModelIdKey}
  {
    DefaultRequestBody();
    SpeechRequestBuilder(c, DefaultRequest())
  }

  function SetText(b: SpeechRequestBuilder, text: string): (r: SpeechRequestBuilder)
    ensures OnlyChanges(b, r, TextField) && r.request.text == text
  {
    b.(request := b.request.(text := text))
  }

  /** `input`, an alias of `text`. */
  function SetInput(b: SpeechRequestBuilder, text: string): (r: SpeechRequestBuilder)
    ensures OnlyChanges(b, r, TextField) && r.request.text == text
  {
    SetText(b, text)
  }

  function SetModel(b: SpeechRequestBuilder, model: TtsModel): (r: SpeechRequestBuilder)
    ensures OnlyChanges(b, r, ModelField) && r.request.model == model
  {
    b.(request := b.request.(model := model))
  }

  function SetVoice(b: SpeechRequestBuilder, voice: Voice): (r: SpeechRequestBuilder)
    ensures OnlyChanges(b, r, VoiceField) && r.request.voice == voice
  {
    b.(request := b.request.(voice := voice))
  }

  /** `voice_settings`: replaces the whole settings record. */
  function SetVoiceSettings(b: SpeechRequestBuilder, settings: VoiceSettings): (r: SpeechRequestBuilder)
    ensures OnlyChanges(b, r, SettingsField) && r.request.voiceSettings == Some(settings)
  {
    b.(request := b.request.(voiceSettings := Some(settings)))
  }

  function SetStability(b: SpeechRequestBuilder, stability: real): (r: SpeechRequestBuilder)
    ensures MergesSetting(b, r, StabilityField) && r.request.voiceSettings.value.stability == Some(stability)
  {
    var settings := CurrentSettings(b.request);
    b.(request := b.request.(voiceSettings := Some(settings.(stability := Some(stability)))))
  }

  function SetSimilarityBoost(b: SpeechRequestBuilder, similarityBoost: real): (r: SpeechRequestBuilder)
    ensures MergesSetting(b, r, SimilarityBoostField)
    ensures r.request.voiceSettings.value.similarityBoost == Some(similarityBoost)
  {
    var settings := CurrentSettings(b.request);
    b.(request := b.request.(voiceSettings := Some(settings.(similarityBoost := Some(similarityBoost)))))
  }

  function SetStyle(b: SpeechRequestBuilder, style: real): (r: SpeechRequestBuilder)
    ensures MergesSetting(b, r, StyleField) && r.request.voiceSettings.value.style == Some(style)
  {
    var settings := CurrentSettings(b.request);
    b.(request := b.request.(voiceSettings := Some(settings.(style := Some(style)))))
  }

  function SetUseSpeakerBoost(b: SpeechRequestBuilder, useSpeakerBoost: bool): (r: SpeechRequestBuilder)
    ensures MergesSetting(b, r, SpeakerBoostField)
    ensures r.request.voiceSettings.value.useSpeakerBoost == Some(useSpeakerBoost)
  {
    var settings := CurrentSettings(b.request);
    b.(request := b.request.(voiceSettings := Some(settings.(useSpeakerBoost := Some(useSpeakerBoost)))))
  }

  function SetOutputFormat(b: SpeechRequestBuilder, format: AudioFormat): (r: SpeechRequestBuilder)
    ensures OnlyChanges(b, r, FormatField) && r.request.outputFormat == Some(format)
  {
    b.(request := b.request.(outputFormat := Some(format)))
  }

  /** `response_format`, an alias of `output_format`. */
  function SetResponseFormat(b: SpeechRequestBuilder, format: AudioFormat): (r: SpeechRequestBuilder)
    ensures OnlyChanges(b, r, FormatField) && r.request.outputFormat == Some(format)
  {
    SetOutputFormat(b, format)
  }

  function SetLanguageCode(b: SpeechRequestBuilder, code: string): (r: SpeechRequestBuilder)
    ensures OnlyChanges(b, r, LanguageCodeField) && r.request.languageCode == Some(code)
  {
    b.(request := b.request.(languageCode := Some(code)))
  }

  function SetSeed(b: SpeechRequestBuilder, seed: u32): (r: SpeechRequestBuilder)
    ensures OnlyChanges(b, r, SeedField) && r.request.seed == Some(seed)
  {
    b.(request := b.request.(seed := Some(seed)))
  }

  function SetPreviousText(b: SpeechRequestBuilder, text: string): (r: SpeechRequestBuilder)
    ensures OnlyChanges(b, r, PreviousTextField) && r.request.previousText == Some(text)
  {
    b.(request := b.request.(previousText := Some(text)))
  }

  function SetNextText(b: SpeechRequestBuilder, text: string): (r: SpeechRequestBuilder)
    ensures OnlyChanges(b, r, NextTextField) && r.request.nextText == Some(text)
  {
    b.(request := b.request.(nextText := Some(text)))
  }

  function SetPreviousRequestIds(b: SpeechRequestBuilder, ids: seq<string>): (r: SpeechRequestBuilder)
    ensures OnlyChanges(b, r, PreviousRequestIdsField) && r.request.previousRequestIds == Some(ids)
  {
    b.(request := b.request.(previousRequestIds := Some(ids)))
  }

  function SetNextRequestIds(b: SpeechRequestBuilder, ids: seq<string>): (r: SpeechRequestBuilder)
    ensures OnlyChanges(b, r, NextRequestIdsField) && r.request.nextRequestIds == Some(ids)
  {
    b.(request := b.request.(nextRequestIds := Some(ids)))
  }

  function SetApplyTextNormalization(b: SpeechRequestBuilder, mode: TextNormalization): (r: SpeechRequestBuilder)
    ensures OnlyChanges(b, r, TextNormalizationField) && r.request.applyTextNormalization == Some(mode)
  {
    b.(request := b.request.(applyTextNormalization := Some(mode)))
  }

  function SetApplyLanguageTextNormalization(b: SpeechRequestBuilder, enabled: bool): (r: SpeechRequestBuilder)
    ensures OnlyChanges(b, r, LanguageTextNormalizationField)
    ensures r.request.applyLanguageTextNormalization == Some(enabled)
  {
    b.(request := b.request.(applyLanguageTextNormalization := Some(enabled)))
  }

  /** `execute`: sends the accumulated request with the builder's client. */
  function Execute(b: SpeechRequestBuilder, env: Environment): (r: Result<SpeechResponse, TtsError>)
    ensures b.request.text == [] ==> r == Failure(MissingInput)
    ensures Validate(b.request, b.client.apiKey).Fail? ==> r == Failure(Validate(b.request, b.client.apiKey).error)
    ensures r.Success? ==> InputsValid(b.request) && r.value.format == ResolvedFormat(b.request.outputFormat)
    ensures Validate(b.request, b.client.apiKey).Pass? && env.urlError(RequestTarget(b.client, b.request)).None?
            && env.send(Prepare(b.client, b.request)).Success? ==>
      r == Classify(env.send(Prepare(b.client, b.request)).value, b.request.outputFormat,
                    env.parseApiError, env.lossyText)
  {
    Send(b.client, b.request, env)
  }

  /** `execute` is `send_speech_request` on the builder's client and request, on every path. */
  lemma ExecuteIsSend(b: SpeechRequestBuilder, env: Environment)
    ensures Execute(b, env) == Send(b.client, b.request, env)
  {
  }

  /** Executing an unconfigured builder fails with `MissingInput`, whatever the client and the network. */
  lemma UnconfiguredBuilderFails(c: SpeechClient, env: Environment)
    ensures Execute(Synthesize(c), env) == Failure(MissingInput)
  {
  }

  /** `input` is `text`. */
  lemma InputIsText(b: SpeechRequestBuilder, text: string)
    ensures SetInput(b, text) == SetText(b, text)
  {
  }

  /** `response_format` is `output_format`. */
  lemma ResponseFormatIsOutputFormat(b: SpeechRequestBuilder, format: AudioFormat)
    ensures SetResponseFormat(b, format) == SetOutputFormat(b, format)
  {
  }

  /** Setting the same field twice keeps only the last value. */
  lemma LastWriteWins(b: SpeechRequestBuilder, s: string, t: string, x: real, y: real)
    ensures SetText(SetText(b, s), t) == SetText(b, t)
    ensures SetStability(SetStability(b, x), y) == SetStability(b, y)
  {
  }

  // ---------------------------------------------------------------------------
  // Chains of setter calls
  // ---------------------------------------------------------------------------

  /** One call of the fluent interface. */
  datatype Step =
    | TextStep(text: string)
    | ModelStep(model: TtsModel)
    | VoiceStep(voice: Voice)
    | SettingsStep(settings: VoiceSettings)
    | StabilityStep(stability: real)
    | SimilarityBoostStep(similarityBoost: real)
    | StyleStep(style: real)
    | SpeakerBoostStep(useSpeakerBoost: bool)
    | FormatStep(format: AudioFormat)
    | LanguageCodeStep(code: string)
    | SeedStep(seed: u32)
    | PreviousTextStep(previousText: string)
    | NextTextStep(nextText: string)
    | PreviousRequestIdsStep(previousIds: seq<string>)
    | NextRequestIdsStep(nextIds: seq<string>)
    | TextNormalizationStep(mode: TextNormalization)
    | LanguageTextNormalizationStep(enabled: bool)

  function ApplyStep(b: SpeechRequestBuilder, s: Step): SpeechRequestBuilder
  {
    match s
    case TextStep(text) => SetText(b, text)
    case ModelStep(model) => SetModel(b, model)
    case VoiceStep(voice) => SetVoice(b, voice)
    case SettingsStep(settings) => SetVoiceSettings(b, settings)
    case StabilityStep(x) => SetStability(b, x)
    case SimilarityBoostStep(x) => SetSimilarityBoost(b, x)
    case StyleStep(x) => SetStyle(b, x)
    case SpeakerBoostStep(on) => SetUseSpeakerBoost(b, on)
    case FormatStep(format) => SetOutputFormat(b, format)
    case LanguageCodeStep(code) => SetLanguageCode(b, code)
    case SeedStep(seed) => SetSeed(b, seed)
    case PreviousTextStep(text) => SetPreviousText(b, text)
    case NextTextStep(text) => SetNextText(b, text)
    case PreviousRequestIdsStep(ids) => SetPreviousRequestIds(b, ids)
    case NextRequestIdsStep(ids) => SetNextRequestIds(b, ids)
    case TextNormalizationStep(mode) => SetApplyTextNormalization(b, mode)
    case LanguageTextNormalizationStep(enabled) => SetApplyLanguageTextNormalization(b, enabled)
  }

  /** A method chain: the steps applied left to right. */
  function Apply(b: SpeechRequestBuilder, steps: seq<Step>): SpeechRequestBuilder
    decreases |steps|
  {
    if steps == [] then b else Apply(ApplyStep(b, steps[0]), steps[1..])
  }

  // ---------------------------------------------------------------------------
  // The merging setters
  // ---------------------------------------------------------------------------

  /** The four setters that merge one value into the current settings instead of replacing them. */
  predicate MergingStep(s: Step)
  {
    s.StabilityStep? || s.SimilarityBoostStep? || s.StyleStep? || s.SpeakerBoostStep?
  }

  /** The setting a merging step writes. */
  function MergedField(s: Step): SettingsField
    requires MergingStep(s)
  {
    match s
    case StabilityStep(_) => StabilityField
    case SimilarityBoostStep(_) => SimilarityBoostField
    case StyleStep(_) => StyleField
    case SpeakerBoostStep(_) => SpeakerBoostField
  }

  /** The `voice_settings` member a merging step writes. */
  function MergedKey(s: Step): Key
    requires MergingStep(s)
  {
    match s
    case StabilityStep(_) => StabilityKey
    case SimilarityBoostStep(_) => SimilarityBoostKey
    case StyleStep(_) => StyleKey
    case SpeakerBoostStep(_) => UseSpeakerBoostKey
  }

  /** The JSON value a merging step gives its member. */
  function MergedJson(s: Step): Json
    requires MergingStep(s)
  {
    match s
    case StabilityStep(x) => JNum(x)
    case SimilarityBoostStep(x) => JNum(x)
    case StyleStep(x) => JNum(x)
    case SpeakerBoostStep(on) => JBool(on)
  }

  /** Merging setters of different settings commute. */
  lemma SettingSettersCommute(b: SpeechRequestBuilder, s: Step, t: Step)
    requires MergingStep(s) && MergingStep(t) && MergedField(s) != MergedField(t)
    ensures ApplyStep(ApplyStep(b, s), t) == ApplyStep(ApplyStep(b, t), s)
  {
  }

  /** `voice_settings` replaces everything any merging setter did before it. */
  lemma VoiceSettingsReplaces(b: SpeechRequestBuilder, s: Step, settings: VoiceSettings)
    requires MergingStep(s)
    ensures SetVoiceSettings(ApplyStep(b, s), settings) == SetVoiceSettings(b, settings)
  {
  }

  /**
    A merging setter after `voice_settings` keeps every other setting of the
    given record and serializes its own value under its own member.
  */
  lemma MergeIntoExplicitSettings(b: SpeechRequestBuilder, settings: VoiceSettings, s: Step)
    requires MergingStep(s)
    ensures ApplyStep(SetVoiceSettings(b, settings), s).request.voiceSettings.Some?
    ensures SettingsAgreeExcept(settings, ApplyStep(SetVoiceSettings(b, settings), s).request.voiceSettings.value,
                                MergedField(s))
    ensures MergedKey(s) in SettingsObject(ApplyStep(SetVoiceSettings(b, settings), s).request.voiceSettings.value)
    ensures SettingsObject(ApplyStep(SetVoiceSettings(b, settings), s).request.voiceSettings.value)[MergedKey(s)]
         == MergedJson(s)
  {
  }

  /** On a builder without settings, the first merging setter yields settings with only its own member serialized. */
  lemma FirstSettingStartsFromUnset(b: SpeechRequestBuilder, s: Step)
    requires b.request.voiceSettings.None? && MergingStep(s)
    ensures ApplyStep(b, s).request.voiceSettings.Some?
    ensures SettingsObject(ApplyStep(b, s).request.voiceSettings.value) == map[MergedKey(s) := MergedJson(s)]
  {
    var vs := ApplyStep(b, s).request.voiceSettings.value;
    match s
    case StabilityStep(x) =>
      assert vs == VoiceSettings(Some(x), None, None, None);
      SingleSettingObject(vs, StabilityKey);
    case SimilarityBoostStep(x) =>
      assert vs == VoiceSettings(None, Some(x), None, None);
      SingleSettingObject(vs, SimilarityBoostKey);
    case StyleStep(x) =>
      assert vs == VoiceSettings(None, None, Some(x), None);
      SingleSettingObject(vs, StyleKey);
    case SpeakerBoostStep(on) =>
      assert vs == VoiceSettings(None, None, None, Some(on));
      SingleSettingObject(vs, UseSpeakerBoostKey);
  }

  /** A step keeps the voice settings in range when the value it sets is in range. */
  predicate StepInRange(s: Step)
  {
    match s
    case SettingsStep(settings) => SettingsInRange(Some(settings))
    case StabilityStep(x) => InRange(x)
    case SimilarityBoostStep(x) => InRange(x)
    case StyleStep(x) => InRange(x)
    case _ => true
  }

  /** No setter other than `text`/`input` touches the text. */
  lemma {:induction false} ChainKeepsText(b: SpeechRequestBuilder, steps: seq<Step>)
    requires forall i :: 0 <= i < |steps| ==> !steps[i].TextStep?
    ensures Apply(b, steps).request.text == b.request.text
    ensures Apply(b, steps).client == b.client
    decreases |steps|
  {
    if steps != [] {
      ChainKeepsText(ApplyStep(b, steps[0]), steps[1..]);
    }
  }

  /** A chain from `synthesize` that never sets the text fails with `MissingInput`, whatever else it sets. */
  lemma {:induction false} ChainWithoutTextFails(c: SpeechClient, steps: seq<Step>, env: Environment)
    requires forall i :: 0 <= i < |steps| ==> !steps[i].TextStep?
    ensures Execute(Apply(Synthesize(c), steps), env) == Failure(MissingInput)
  {
    ChainKeepsText(Synthesize(c), steps);
  }

  /** Merging in-range values into in-range settings never produces an out-of-range setting. */
  lemma {:induction false} ChainKeepsSettingsInRange(b: SpeechRequestBuilder, steps: seq<Step>)
    requires SettingsInRange(b.request.voiceSettings)
    requires forall i :: 0 <= i < |steps| ==> StepInRange(steps[i])
    ensures SettingsInRange(Apply(b, steps).request.voiceSettings)
    decreases |steps|
  {
    if steps != [] {
      ChainKeepsSettingsInRange(ApplyStep(b, steps[0]), steps[1..]);
    }
  }

  /**
    A chain of in-range steps that sets a non-empty text within the byte limit
    passes validation whenever the client has a key.
  */
  lemma {:induction false} InRangeChainValidates(c: SpeechClient, steps: seq<Step>)
    requires forall i :: 0 <= i < |steps| ==> StepInRange(steps[i])
    ensures c.apiKey != [] && Apply(Synthesize(c), steps).request.text != []
            && Length(Apply(Synthesize(c), steps).request.text) <= MaxInputLength
        ==> Validate(Apply(Synthesize(c), steps).request, c.apiKey) == Pass
  {
    ChainKeepsSettingsInRange(Synthesize(c), steps);
  }
}
