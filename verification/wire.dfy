/**
  The JSON body of a synthesis call as an abstract key/value object. Each
  optional field is omitted when it is `None` (serde's `skip_serializing_if =
  "Option::is_none"`), both in the request and inside `voice_settings`. The byte
  encoding of JSON is not modelled; the decoders are the inverse that shows the
  object determines the request body.
*/
module Wire {
  import opened Wrappers
  import opened Ints
  import opened Types

  /** A JSON value. */
  datatype Json =
    | JBool(boolean: bool)
    | JInt(integer: int)
    | JNum(number: real)
    | JStr(str: string)
    | JArr(items: seq<Json>)
    | JObj(members: map<Key, Json>)

  /** The member names that occur in a request body, each with its wire spelling in `KeyName`. */
  datatype Key =
    | TextKey | ModelIdKey | LanguageCodeKey | VoiceSettingsKey | SeedKey | PreviousTextKey | NextTextKey
    | PreviousRequestIdsKey | NextRequestIdsKey | ApplyTextNormalizationKey | ApplyLanguageTextNormalizationKey
    | StabilityKey | SimilarityBoostKey | StyleKey | UseSpeakerBoostKey

  /** The serde field name of each member. */
  function KeyName(k: Key): string
  {
    match k
    case TextKey => "text"
    case ModelIdKey => "model_id"
    case LanguageCodeKey => "language_code"
    case VoiceSettingsKey => "voice_settings"
    case SeedKey => "seed"
    case PreviousTextKey => "previous_text"
    case NextTextKey => "next_text"
    case PreviousRequestIdsKey => "previous_request_ids"
    case NextRequestIdsKey => "next_request_ids"
    case ApplyTextNormalizationKey => "apply_text_normalization"
    case ApplyLanguageTextNormalizationKey => "apply_language_text_normalization"
    case StabilityKey => "stability"
    case SimilarityBoostKey => "similarity_boost"
    case StyleKey => "style"
    case UseSpeakerBoostKey => "use_speaker_boost"
  }

  /** The one member whose field name has length `n` and starts with `c`, if any: these two tell all names apart. */
  function KeyCandidate(n: nat, c: char): Option<Key>
  {
    match n
    case 4 => if c == 't' then Some(TextKey) else Some(SeedKey)
    case 5 => Some(StyleKey)
    case 8 => Some(ModelIdKey)
    case 9 => if c == 'n' then Some(NextTextKey) else Some(StabilityKey)
    case 13 => if c == 'l' then Some(LanguageCodeKey) else Some(PreviousTextKey)
    case 14 => Some(VoiceSettingsKey)
    case 16 => if c == 'n' then Some(NextRequestIdsKey) else Some(SimilarityBoostKey)
    case 17 => Some(UseSpeakerBoostKey)
    case 20 => Some(PreviousRequestIdsKey)
    case 24 => Some(ApplyTextNormalizationKey)
    case 33 => Some(ApplyLanguageTextNormalizationKey)
    case _ => None
  }

  /** Each member is the candidate of its own field name's length and first character. */
  lemma KeyCandidateOfOwnName(k: Key)
    ensures |KeyName(k)| > 0 && KeyCandidate(|KeyName(k)|, KeyName(k)[0]) == Some(k)
  {
    match k
    case TextKey =>
    case ModelIdKey =>
    case LanguageCodeKey =>
    case VoiceSettingsKey =>
    case SeedKey =>
    case PreviousTextKey =>
    case NextTextKey =>
    case PreviousRequestIdsKey =>
    case NextRequestIdsKey =>
    case ApplyTextNormalizationKey =>
    case ApplyLanguageTextNormalizationKey =>
    case StabilityKey =>
    case SimilarityBoostKey =>
    case StyleKey =>
    case UseSpeakerBoostKey =>
  }

  /** Recognizes a member by its serde field name; the inverse of `KeyName`. */
  function KeyFromName(s: string): (r: Option<Key>)
    ensures r.Some? ==> KeyName(r.value) == s
    ensures r.None? ==> forall k :: KeyName(k) != s
  {
    var candidate := if |s| == 0 then None else KeyCandidate(|s|, s[0]);
    if candidate.Some? && KeyName(candidate.value) == s then candidate
    else
      assert forall k :: KeyName(k) != s by {
        forall k
          ensures KeyName(k) != s
        {
          KeyCandidateOfOwnName(k);
        }
      }
      None
  }

  lemma KeyNameRoundTrip(k: Key)
    ensures KeyFromName(KeyName(k)) == Some(k)
  {
    KeyCandidateOfOwnName(k);
  }

  /** Distinct members have distinct field names, so keying objects by `Key` loses nothing. */
  lemma KeyNameInjective(a: Key, b: Key)
    ensures KeyName(a) == KeyName(b) <==> a == b
  {
    KeyNameRoundTrip(a);
    KeyNameRoundTrip(b);
  }

  /** A JSON object, keyed by member. */
  type Object = map<Key, Json>

  const SettingsKeys: set<Key> := {StabilityKey, SimilarityBoostKey, StyleKey, UseSpeakerBoostKey}

  const RequestKeys: set<Key> := {
    TextKey, ModelIdKey, LanguageCodeKey, VoiceSettingsKey, SeedKey, PreviousTextKey, NextTextKey,
    PreviousRequestIdsKey, NextRequestIdsKey, ApplyTextNormalizationKey, ApplyLanguageTextNormalizationKey
  }

  function StringItems(ids: seq<string>): seq<Json>
  {
    seq(|ids|, i requires 0 <= i < |ids| => JStr(ids[i]))
  }

  function EncodeStrings(ids: seq<string>): Json
  {
    JArr(StringItems(ids))
  }

  /** Whether `vs` has a value for member `k`: serde skips the fields that are `None`. */
  predicate SettingPresent(vs: VoiceSettings, k: Key)
  {
    match k
    case StabilityKey => vs.stability.Some?
    case SimilarityBoostKey => vs.similarityBoost.Some?
    case StyleKey => vs.style.Some?
    case UseSpeakerBoostKey => vs.useSpeakerBoost.Some?
    case _ => false
  }

  function SettingValue(vs: VoiceSettings, k: Key): Json
    requires SettingPresent(vs, k)
  {
    match k
    case StabilityKey => JNum(vs.stability.value)
    case SimilarityBoostKey => JNum(vs.similarityBoost.value)
    case StyleKey => JNum(vs.style.value)
    case UseSpeakerBoostKey => JBool(vs.useSpeakerBoost.value)
  }

  /** The serialized `VoiceSettings`: one member per field that is set. */
  function SettingsObject(vs: VoiceSettings): (m: Object)
    ensures m.Keys <= SettingsKeys
    ensures StabilityKey in m <==> vs.stability.Some?
    ensures SimilarityBoostKey in m <==> vs.similarityBoost.Some?
    ensures StyleKey in m <==> vs.style.Some?
    ensures UseSpeakerBoostKey in m <==> vs.useSpeakerBoost.Some?
    ensures vs.stability.Some? ==> m[StabilityKey] == JNum(vs.stability.value)
    ensures vs.similarityBoost.Some? ==> m[SimilarityBoostKey] == JNum(vs.similarityBoost.value)
    ensures vs.style.Some? ==> m[StyleKey] == JNum(vs.style.value)
    ensures vs.useSpeakerBoost.Some? ==> m[UseSpeakerBoostKey] == JBool(vs.useSpeakerBoost.value)
  {
    map k | k in SettingsKeys && SettingPresent(vs, k) :: SettingValue(vs, k)
  }

  /** Whether member `k` appears in the body of `j`: `text` and `model_id` always, the rest when set. */
  predicate RequestPresent(j: SpeechRequestJson, k: Key)
  {
    match k
    case TextKey => true
    case ModelIdKey => true
    case LanguageCodeKey => j.languageCode.Some?
    case VoiceSettingsKey => j.voiceSettings.Some?
    case SeedKey => j.seed.Some?
    case PreviousTextKey => j.previousText.Some?
    case NextTextKey => j.nextText.Some?
    case PreviousRequestIdsKey => j.previousRequestIds.Some?
    case NextRequestIdsKey => j.nextRequestIds.Some?
    case ApplyTextNormalizationKey => j.applyTextNormalization.Some?
    case ApplyLanguageTextNormalizationKey => j.applyLanguageTextNormalization.Some?
    case _ => false
  }

  function RequestValue(j: SpeechRequestJson, k: Key): Json
    requires RequestPresent(j, k)
  {
    match k
    case TextKey => JStr(j.text)
    case ModelIdKey => JStr(j.modelId)
    case LanguageCodeKey => JStr(j.languageCode.value)
    case VoiceSettingsKey => JObj(SettingsObject(j.voiceSettings.value))
    case SeedKey => JInt(j.seed.value)
    case PreviousTextKey => JStr(j.previousText.value)
    case NextTextKey => JStr(j.nextText.value)
    case PreviousRequestIdsKey => EncodeStrings(j.previousRequestIds.value)
    case NextRequestIdsKey => EncodeStrings(j.nextRequestIds.value)
    case ApplyTextNormalizationKey => JStr(NormalizationName(j.applyTextNormalization.value))
    case ApplyLanguageTextNormalizationKey => JBool(j.applyLanguageTextNormalization.value)
  }

  /** The serialized `SpeechRequestJson`: `text` and `model_id` always, each optional field only when set. */
  function RequestObject(j: SpeechRequestJson): (m: Object)
    ensures m.Keys <= RequestKeys
    ensures TextKey in m && m[TextKey] == JStr(j.text)
    ensures ModelIdKey in m && m[ModelIdKey] == JStr(j.modelId)
    ensures LanguageCodeKey in m <==> j.languageCode.Some?
    ensures VoiceSettingsKey in m <==> j.voiceSettings.Some?
    ensures SeedKey in m <==> j.seed.Some?
    ensures PreviousTextKey in m <==> j.previousText.Some?
    ensures NextTextKey in m <==> j.nextText.Some?
    ensures PreviousRequestIdsKey in m <==> j.previousRequestIds.Some?
    ensures NextRequestIdsKey in m <==> j.nextRequestIds.Some?
    ensures ApplyTextNormalizationKey in m <==> j.applyTextNormalization.Some?
    ensures ApplyLanguageTextNormalizationKey in m <==> j.applyLanguageTextNormalization.Some?
    ensures j.voiceSettings.Some? ==> m[VoiceSettingsKey] == JObj(SettingsObject(j.voiceSettings.value))
  {
    map k | k in RequestKeys && RequestPresent(j, k) :: RequestValue(j, k)
  }

  function AsBool(v: Json): Option<bool> {
    if v.JBool? then Some(v.boolean) else None
  }

  function AsNum(v: Json): Option<real> {
    if v.JNum? then Some(v.number) else None
  }

  function AsStr(v: Json): Option<string> {
    if v.JStr? then Some(v.str) else None
  }

  function AsU32(v: Json): Option<u32> {
    if v.JInt? && 0 <= v.integer < 0x1_0000_0000 then Some(v.integer) else None
  }

  function AsNormalization(v: Json): Option<TextNormalization> {
    if v.JStr? then NormalizationFromName(v.str) else None
  }

  /** Reads an array of strings; `None` when any item is not a string. */
  function DecodeStrings(items: seq<Json>): Option<seq<string>>
  {
    if items == [] then Some([])
    else
      var head :- AsStr(items[0]);
      var tail :- DecodeStrings(items[1..]);
      Some([head] + tail)
  }

  function AsStrings(v: Json): Option<seq<string>> {
    if v.JArr? then DecodeStrings(v.items) else None
  }

  /** An optional member: absent reads as `None`, present but ill-typed fails. */
  function Optional<T>(m: Object, key: Key, decode: Json -> Option<T>): Option<Option<T>>
  {
    if key !in m then Some(None)
    else
      var v :- decode(m[key]);
      Some(Some(v))
  }

  /** A mandatory member. */
  function Required<T>(m: Object, key: Key, decode: Json -> Option<T>): Option<T>
  {
    if key !in m then None else decode(m[key])
  }

  /** Reads a `VoiceSettings` object back. */
  function DecodeSettings(m: Object): Option<VoiceSettings>
  {
    var stability :- Optional(m, StabilityKey, AsNum);
    var similarityBoost :- Optional(m, SimilarityBoostKey, AsNum);
    var style :- Optional(m, StyleKey, AsNum);
    var useSpeakerBoost :- Optional(m, UseSpeakerBoostKey, AsBool);
    Some(VoiceSettings(stability, similarityBoost, style, useSpeakerBoost))
  }

  function AsSettings(v: Json): Option<VoiceSettings> {
    if v.JObj? then DecodeSettings(v.members) else None
  }

  /** Reads a request body back. */
  function DecodeRequest(m: Object): Option<SpeechRequestJson>
  {
    var text :- Required(m, TextKey, AsStr);
    var modelId :- Required(m, ModelIdKey, AsStr);
    var languageCode :- Optional(m, LanguageCodeKey, AsStr);
    var voiceSettings :- Optional(m, VoiceSettingsKey, AsSettings);
    var seed :- Optional(m, SeedKey, AsU32);
    var previousText :- Optional(m, PreviousTextKey, AsStr);
    var nextText :- Optional(m, NextTextKey, AsStr);
    var previousRequestIds :- Optional(m, PreviousRequestIdsKey, AsStrings);
    var nextRequestIds :- Optional(m, NextRequestIdsKey, AsStrings);
    var applyTextNormalization :- Optional(m, ApplyTextNormalizationKey, AsNormalization);
    var applyLanguageTextNormalization :- Optional(m, ApplyLanguageTextNormalizationKey, AsBool);
    Some(SpeechRequestJson(text, modelId, languageCode, voiceSettings, seed, previousText, nextText,
                           previousRequestIds, nextRequestIds, applyTextNormalization,
                           applyLanguageTextNormalization))
  }

  lemma {:induction false} StringsRoundTrip(ids: seq<string>)
    ensures DecodeStrings(StringItems(ids)) == Some(ids)
  {
    if ids != [] {
      assert StringItems(ids)[0] == JStr(ids[0]);
      assert StringItems(ids)[1..] == StringItems(ids[1..]);
      StringsRoundTrip(ids[1..]);
      assert [ids[0]] + ids[1..] == ids;
    }
  }

  /** Serializing voice settings loses nothing. */
  lemma SettingsRoundTrip(vs: VoiceSettings)
    ensures DecodeSettings(SettingsObject(vs)) == Some(vs)
  {
  }

  /** The members that carry scalars and settings decode back to the fields they came from. */
  lemma LeadingMembersDecode(j: SpeechRequestJson)
    ensures Required(RequestObject(j), TextKey, AsStr) == Some(j.text)
    ensures Required(RequestObject(j), ModelIdKey, AsStr) == Some(j.modelId)
    ensures Optional(RequestObject(j), LanguageCodeKey, AsStr) == Some(j.languageCode)
    ensures Optional(RequestObject(j), VoiceSettingsKey, AsSettings) == Some(j.voiceSettings)
    ensures Optional(RequestObject(j), SeedKey, AsU32) == Some(j.seed)
  {
    if j.voiceSettings.Some? {
      SettingsRoundTrip(j.voiceSettings.value);
    }
  }

  /** A member of the body is present exactly when its field is, and holds that field's encoding. */
  lemma RequestMember(j: SpeechRequestJson, k: Key)
    requires k in RequestKeys
    ensures k in RequestObject(j) <==> RequestPresent(j, k)
    ensures k in RequestObject(j) ==> RequestObject(j)[k] == RequestValue(j, k)
  {
  }

  /** The context members decode back to the fields they came from. */
  lemma ContextMembersDecode(j: SpeechRequestJson)
    ensures Optional(RequestObject(j), PreviousTextKey, AsStr) == Some(j.previousText)
    ensures Optional(RequestObject(j), NextTextKey, AsStr) == Some(j.nextText)
    ensures Optional(RequestObject(j), PreviousRequestIdsKey, AsStrings) == Some(j.previousRequestIds)
    ensures Optional(RequestObject(j), NextRequestIdsKey, AsStrings) == Some(j.nextRequestIds)
  {
    RequestMember(j, PreviousTextKey);
    RequestMember(j, NextTextKey);
    RequestMember(j, PreviousRequestIdsKey);
    RequestMember(j, NextRequestIdsKey);
    if j.previousRequestIds.Some? {
      StringsRoundTrip(j.previousRequestIds.value);
    }
    if j.nextRequestIds.Some? {
      StringsRoundTrip(j.nextRequestIds.value);
    }
  }

  /** The two normalization members decode back to the fields they came from. */
  lemma NormalizationMembersDecode(j: SpeechRequestJson)
    ensures Optional(RequestObject(j), ApplyTextNormalizationKey, AsNormalization) == Some(j.applyTextNormalization)
    ensures Optional(RequestObject(j), ApplyLanguageTextNormalizationKey, AsBool)
         == Some(j.applyLanguageTextNormalization)
  {
    RequestMember(j, ApplyTextNormalizationKey);
    RequestMember(j, ApplyLanguageTextNormalizationKey);
  }

  /** Serializing the request body loses nothing. */
  lemma RequestRoundTrip(j: SpeechRequestJson)
    ensures DecodeRequest(RequestObject(j)) == Some(j)
  {
    LeadingMembersDecode(j);
    ContextMembersDecode(j);
    NormalizationMembersDecode(j);
  }

  /** Settings with exactly one field set serialize to an object with exactly that member. */
  lemma SingleSettingObject(vs: VoiceSettings, k: Key)
    requires SettingPresent(vs, k)
    requires forall other :: SettingPresent(vs, other) ==> other == k
    ensures SettingsObject(vs) == map[k := SettingValue(vs, k)]
  {
    assert SettingsObject(vs).Keys == {k};
  }

  /** Default voice settings serialize to the empty object. */
  lemma DefaultSettingsAreEmpty()
    ensures SettingsObject(DefaultSettings) == map[]
  {
  }

  /**
    Unset optional fields are omitted from the body: it holds only `text` and
    `model_id` exactly when no optional field other than the output format,
    which travels in the URL, is set.
  */
  lemma BodyIsMinimalIffNothingSet(req: SpeechRequest)
    ensures RequestObject(ToJson(req)).Keys == {TextKey, ModelIdKey}
        <==> NothingOptionalSet(req.(outputFormat := None))
  {
    var m := RequestObject(ToJson(req));
    if NothingOptionalSet(req.(outputFormat := None)) {
      assert forall k :: k in m ==> k == TextKey || k == ModelIdKey;
    }
  }

  /** The body of an unconfigured request has exactly `text` (empty) and the default `model_id`. */
  lemma DefaultRequestBody()
    ensures RequestObject(ToJson(DefaultRequest())).Keys == {TextKey, ModelIdKey}
    ensures RequestObject(ToJson(DefaultRequest()))[TextKey] == JStr("")
    ensures RequestObject(ToJson(DefaultRequest()))[ModelIdKey] == JStr("eleven_multilingual_v2")
  {
    BodyIsMinimalIffNothingSet(DefaultRequest());
  }
}
