/**
  The request and response records of the text-to-speech client and the closed
  enumerations it sends on the wire (model, voice, audio format, text
  normalization), with the defaults the builder starts from.
*/
module Types {
  import opened Wrappers
  import opened Ints

  /** The synthesis models the provider offers. */
  datatype TtsModel = ElevenV3 | ElevenMultilingualV2 | ElevenFlashV25 | ElevenTurboV25

  /** The model's wire name: `as_str`, which agrees with the serde rename and reads back as `m`. */
  function ModelName(m: TtsModel): (name: string)
    ensures ModelFromName(name) == Some(m)
  {
    match m
    case ElevenV3 => "eleven_v3"
    case ElevenMultilingualV2 => "eleven_multilingual_v2"
    case ElevenFlashV25 => "eleven_flash_v2_5"
    case ElevenTurboV25 => "eleven_turbo_v2_5"
  }

  /** The serde deserializer of a model: accepts exactly the four wire names. */
  function ModelFromName(s: string): Option<TtsModel>
  {
    if s == "eleven_v3" then Some(ElevenV3)
    else if s == "eleven_multilingual_v2" then Some(ElevenMultilingualV2)
    else if s == "eleven_flash_v2_5" then Some(ElevenFlashV25)
    else if s == "eleven_turbo_v2_5" then Some(ElevenTurboV25)
    else None
  }

  /** `ModelFromName` reads back exactly the names `ModelName` produces, and rejects every other string. */
  lemma ModelFromNameInverse(s: string)
    ensures ModelFromName(s).Some? ==> ModelName(ModelFromName(s).value) == s
    ensures ModelFromName(s).None? ==> forall m :: ModelName(m) != s
  {
  }

  /** Distinct models have distinct wire names. */
  lemma ModelNameInjective(a: TtsModel, b: TtsModel)
    ensures ModelName(a) == ModelName(b) <==> a == b
  {
  }

  const DefaultModel: TtsModel := ElevenMultilingualV2

  /** The ten premade voices. */
  datatype Voice = Rachel | Drew | Clyde | Paul | Aria | Domi | Dave | Roger | Fin | Sarah

  /** The provider's voice ID of each voice: `as_voice_id`. */
  function VoiceId(v: Voice): (id: string)
    ensures |id| == VoiceIdLength
  {
    match v
    case Rachel => "21m00Tcm4TlvDq8ikWAM"
    case Drew => "29vD33N1CtxCmqQRPOHJ"
    case Clyde => "2EiwWnXFnvU5JabPnv8n"
    case Paul => "5Q0t7uMcjvnagumLfvZi"
    case Aria => "9BWtsMINqrJLrRacOk9x"
    case Domi => "AZnzlk1XvdvUeBnXmlld"
    case Dave => "CYw3kZ02Hs0563khs1Fj"
    case Roger => "CwhRBWXzGAHq8TQ4Fs17"
    case Fin => "D38z5RcWu1voky8WS1ja"
    case Sarah => "EXAVITQu4vr4xnSDxMaL"
  }

  /** Every voice ID has this many characters. */
  const VoiceIdLength: nat := 20

  /** The one voice whose ID starts with `c0` `c1`, if any: the first two characters tell all IDs apart. */
  function Candidate(c0: char, c1: char): Option<Voice>
  {
    match c0
    case '2' => if c1 == '1' then Some(Rachel) else if c1 == '9' then Some(Drew) else Some(Clyde)
    case '5' => Some(Paul)
    case '9' => Some(Aria)
    case 'A' => Some(Domi)
    case 'C' => if c1 == 'Y' then Some(Dave) else Some(Roger)
    case 'D' => Some(Fin)
    case 'E' => Some(Sarah)
    case _ => None
  }

  /** Each voice is the candidate of its own ID's first two characters. */
  lemma CandidateOfOwnId(v: Voice)
    ensures Candidate(VoiceId(v)[0], VoiceId(v)[1]) == Some(v)
  {
    match v
    case Rachel =>
    case Drew =>
    case Clyde =>
    case Paul =>
    case Aria =>
    case Domi =>
    case Dave =>
    case Roger =>
    case Fin =>
    case Sarah =>
  }

  /** Looks a voice up by its ID; the inverse of `VoiceId`. */
  function VoiceOfId(id: string): (r: Option<Voice>)
    ensures r.Some? ==> VoiceId(r.value) == id
    ensures r.None? ==> forall v :: VoiceId(v) != id
  {
    var candidate := if |id| < 2 then None else Candidate(id[0], id[1]);
    if candidate.Some? && VoiceId(candidate.value) == id then candidate
    else
      assert forall v :: VoiceId(v) != id by {
        forall v
          ensures VoiceId(v) != id
        {
          CandidateOfOwnId(v);
        }
      }
      None
  }

  lemma VoiceIdRoundTrip(v: Voice)
    ensures VoiceOfId(VoiceId(v)) == Some(v)
  {
    CandidateOfOwnId(v);
  }

  /** The ten voices have ten pairwise-distinct IDs. */
  lemma VoiceIdInjective(a: Voice, b: Voice)
    ensures VoiceId(a) == VoiceId(b) <==> a == b
  {
    VoiceIdRoundTrip(a);
    VoiceIdRoundTrip(b);
  }

  const DefaultVoice: Voice := Rachel

  /** The output encodings the provider can return. */
  datatype AudioFormat =
    | Mp3_22050_32 | Mp3_44100_32 | Mp3_44100_64 | Mp3_44100_96 | Mp3_44100_128 | Mp3_44100_192
    | Pcm16000 | Pcm22050 | Pcm24000 | Pcm44100
    | Ulaw8000

  /** The format's wire name: `as_str`, which agrees with the serde rename and reads back as `f`. */
  function FormatName(f: AudioFormat): (name: string)
    ensures FormatFromName(name) == Some(f)
  {
    match f
    case Mp3_22050_32 => "mp3_22050_32"
    case Mp3_44100_32 => "mp3_44100_32"
    case Mp3_44100_64 => "mp3_44100_64"
    case Mp3_44100_96 => "mp3_44100_96"
    case Mp3_44100_128 => "mp3_44100_128"
    case Mp3_44100_192 => "mp3_44100_192"
    case Pcm16000 => "pcm_16000"
    case Pcm22050 => "pcm_22050"
    case Pcm24000 => "pcm_24000"
    case Pcm44100 => "pcm_44100"
    case Ulaw8000 => "ulaw_8000"
  }

  /** The serde deserializer of a format: accepts exactly the eleven wire names. */
  function FormatFromName(s: string): Option<AudioFormat>
  {
    if s == "mp3_22050_32" then Some(Mp3_22050_32)
    else if s == "mp3_44100_32" then Some(Mp3_44100_32)
    else if s == "mp3_44100_64" then Some(Mp3_44100_64)
    else if s == "mp3_44100_96" then Some(Mp3_44100_96)
    else if s == "mp3_44100_128" then Some(Mp3_44100_128)
    else if s == "mp3_44100_192" then Some(Mp3_44100_192)
    else if s == "pcm_16000" then Some(Pcm16000)
    else if s == "pcm_22050" then Some(Pcm22050)
    else if s == "pcm_24000" then Some(Pcm24000)
    else if s == "pcm_44100" then Some(Pcm44100)
    else if s == "ulaw_8000" then Some(Ulaw8000)
    else None
  }

  /** `FormatFromName` reads back exactly the names `FormatName` produces, and rejects every other string. */
  lemma FormatFromNameInverse(s: string)
    ensures FormatFromName(s).Some? ==> FormatName(FormatFromName(s).value) == s
    ensures FormatFromName(s).None? ==> forall f :: FormatName(f) != s
  {
  }

  /** Distinct formats have distinct wire names. */
  lemma FormatNameInjective(a: AudioFormat, b: AudioFormat)
    ensures FormatName(a) == FormatName(b) <==> a == b
  {
  }

  const DefaultFormat: AudioFormat := Mp3_44100_128

  /** The format a request resolves to: the requested one, or the default. */
  function ResolvedFormat(requested: Option<AudioFormat>): (f: AudioFormat)
    ensures requested.None? ==> FormatName(f) == "mp3_44100_128"
    ensures requested.Some? ==> f == requested.value
  {
    requested.GetOr(DefaultFormat)
  }

  /** Whether the provider normalizes numbers and abbreviations in the text. */
  datatype TextNormalization = Auto | On | Off

  /** Serde's lower-case rename of each mode, which reads back as `n`. */
  function NormalizationName(n: TextNormalization): (name: string)
    ensures NormalizationFromName(name) == Some(n)
  {
    match n
    case Auto => "auto"
    case On => "on"
    case Off => "off"
  }

  /** The serde deserializer of a normalization mode. */
  function NormalizationFromName(s: string): Option<TextNormalization>
  {
    if s == "auto" then Some(Auto)
    else if s == "on" then Some(On)
    else if s == "off" then Some(Off)
    else None
  }

  /** `NormalizationFromName` reads back exactly the names `NormalizationName` produces, and rejects every other string. */
  lemma NormalizationFromNameInverse(s: string)
    ensures NormalizationFromName(s).Some? ==> NormalizationName(NormalizationFromName(s).value) == s
    ensures NormalizationFromName(s).None? ==> forall n :: NormalizationName(n) != s
  {
  }

  const DefaultNormalization: TextNormalization := Auto

  /**
    The optional tuning knobs of a voice. The Rust fields are `f32`; they are
    modelled as `real`, so NaN is not represented.
  */
  datatype VoiceSettings = VoiceSettings(
    stability: Option<real>,
    similarityBoost: Option<real>,
    style: Option<real>,
    useSpeakerBoost: Option<bool>)

  const DefaultSettings: VoiceSettings := VoiceSettings(None, None, None, None)

  /** Everything a caller can say about one synthesis. */
  datatype SpeechRequest = SpeechRequest(
    text: string,
    model: TtsModel,
    voice: Voice,
    voiceSettings: Option<VoiceSettings>,
    outputFormat: Option<AudioFormat>,
    languageCode: Option<string>,
    seed: Option<u32>,
    previousText: Option<string>,
    nextText: Option<string>,
    previousRequestIds: Option<seq<string>>,
    nextRequestIds: Option<seq<string>>,
    applyTextNormalization: Option<TextNormalization>,
    applyLanguageTextNormalization: Option<bool>)

  /** No optional field of `req` is set: every one of them is left to the provider. */
  predicate NothingOptionalSet(req: SpeechRequest)
  {
    && req.voiceSettings.None? && req.outputFormat.None? && req.languageCode.None? && req.seed.None?
    && req.previousText.None? && req.nextText.None?
    && req.previousRequestIds.None? && req.nextRequestIds.None?
    && req.applyTextNormalization.None? && req.applyLanguageTextNormalization.None?
  }

  /** `SpeechRequest::default`: empty text, default model and voice, nothing optional set. */
  function DefaultRequest(): (r: SpeechRequest)
    ensures r.text == [] && r.model == DefaultModel && r.voice == DefaultVoice
    ensures NothingOptionalSet(r)
    ensures ResolvedFormat(r.outputFormat) == DefaultFormat
  {
    SpeechRequest("", DefaultModel, DefaultVoice, None, None, None, None, None, None, None, None, None, None)
  }

  /** The JSON body of a synthesis call: the request without voice and format, which go in the URL. */
  datatype SpeechRequestJson = SpeechRequestJson(
    text: string,
    modelId: string,
    languageCode: Option<string>,
    voiceSettings: Option<VoiceSettings>,
    seed: Option<u32>,
    previousText: Option<string>,
    nextText: Option<string>,
    previousRequestIds: Option<seq<string>>,
    nextRequestIds: Option<seq<string>>,
    applyTextNormalization: Option<TextNormalization>,
    applyLanguageTextNormalization: Option<bool>)

  /**
    Rebuilds a request from its JSON projection and the two fields that travel in
    the URL; `None` when the model id names no model. This is the inverse of
    `ToJson` that shows the projection loses nothing but voice and format.
  */
  function FromJson(j: SpeechRequestJson, voice: Voice, format: Option<AudioFormat>): Option<SpeechRequest>
  {
    var model :- ModelFromName(j.modelId);
    Some(SpeechRequest(j.text, model, voice, j.voiceSettings, format, j.languageCode, j.seed,
                       j.previousText, j.nextText, j.previousRequestIds, j.nextRequestIds,
                       j.applyTextNormalization, j.applyLanguageTextNormalization))
  }

  /** `From<SpeechRequest> for SpeechRequestJson`. */
  function ToJson(req: SpeechRequest): (j: SpeechRequestJson)
    ensures ModelFromName(j.modelId) == Some(req.model)
    ensures FromJson(j, req.voice, req.outputFormat) == Some(req)
  {
    SpeechRequestJson(req.text, ModelName(req.model), req.languageCode, req.voiceSettings, req.seed,
                      req.previousText, req.nextText, req.previousRequestIds, req.nextRequestIds,
                      req.applyTextNormalization, req.applyLanguageTextNormalization)
  }

  /** The projection does not depend on voice or format: changing them leaves the body alone. */
  lemma ProjectionIgnoresUrlFields(req: SpeechRequest, voice: Voice, format: Option<AudioFormat>)
    ensures ToJson(req.(voice := voice, outputFormat := format)) == ToJson(req)
  {
  }

  /** Two requests with the same projection differ at most in voice and format. */
  lemma ProjectionDeterminesBody(a: SpeechRequest, b: SpeechRequest)
    requires ToJson(a) == ToJson(b)
    ensures a == b.(voice := a.voice, outputFormat := a.outputFormat)
  {
    var fa := FromJson(ToJson(a), a.voice, a.outputFormat);
    var fb := FromJson(ToJson(b), a.voice, a.outputFormat);
    ProjectionIgnoresUrlFields(b, a.voice, a.outputFormat);
    assert fb == FromJson(ToJson(b.(voice := a.voice, outputFormat := a.outputFormat)), a.voice, a.outputFormat);
  }

  /** What the provider returns on success: the audio bytes and their format. */
  datatype SpeechResponse = SpeechResponse(audioData: seq<u8>, format: AudioFormat)

  /** The detail of a structured provider error. */
  datatype ApiErrorDetail = ApiErrorDetail(message: string, errorType: Option<string>, code: Option<string>)

  /** A structured provider error body. */
  datatype ApiErrorResponse = ApiErrorResponse(error: ApiErrorDetail)
}
