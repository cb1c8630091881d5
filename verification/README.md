# ElevenLabs text-to-speech client, modelled in Dafny

This project models the core of a small Rust client library for a cloud
text-to-speech API. A caller obtains a `SpeechRequestBuilder` from a
`SpeechClient`, fills in the text, voice, model, format and tuning knobs with
fluent setters, and executes it. The client then does four things:

1. It validates the request before any network access.
2. It projects the request to its JSON body.
3. It posts the body to `<base>/v1/text-to-speech/<voice id>?output_format=<fmt>`.
4. It turns the answer into audio bytes or a typed error.

Everything except the network call is deterministic, so the model is a set of
pure functions over immutable datatypes:

| file | module | models |
|---|---|---|
| wrappers.dfy | `Wrappers`, `Ints` | `Option`, `Result`, an `Outcome` of a check; `u8`/`u16`/`u32`/`u64` as bounded `int` subsets |
| utf8.dfy | `Utf8` | the UTF-8 form of a `String` and its byte length (`String::len`) |
| types.dfy | `Types` | the enumerations with their wire names and defaults; `SpeechRequest`, `SpeechRequestJson` and the projection between them |
| errors.dfy | `Errors` | `TtsError` (the variants modelled) and the transport's error |
| wire.dfy | `Wire` | the serialized JSON body as a key/value object, with omit-if-`None`, and a decoder |
| client.dfy | `Client` | client configuration, validation, URL and request assembly, response classification, the whole `send_speech_request` |
| builder.dfy | `Builder` | `synthesize`, every setter, `execute`, and chains of setter calls |

The things the client cannot compute itself are fields of
`Client.Environment`:

- `urlError`: `url::Url::parse`; it yields an error message when the URL is rejected.
- `send`: the HTTP transport.
- `parseApiError`: `serde_json::from_slice::<ApiErrorResponse>`.
- `lossyText`: `String::from_utf8_lossy`.

Some definitions exist only to state properties; the source has no counterpart for them:

- `Types.VoiceOfId`, `Types.FromJson`, `Wire.KeyFromName`, `Wire.DecodeRequest` and `Client.ParseTarget` are inverses.
- `Client.Violations` lists every check a request fails.
- `Builder.Step` and `Builder.Apply` describe a method chain as data.

Each of these is connected to the operation it describes by a lemma.

Text length: the error message of `InputTooLong` speaks of characters, but the
code compares `String::len`, the UTF-8 byte count, with 5000. The model follows
the code. `Client.MultiByteTextCountsBytes` shows a text of 1700 characters
rejected as 5100 bytes long.

## Model

| member | source | states |
|---|---|---|
| Utf8.Length | src/client.rs:54-55 | the length checked is the byte length of the UTF-8 encoding; it lies between the character count and four times it and is zero exactly for the empty text |
| Utf8.LengthAppend | src/client.rs:54 | byte length is additive over concatenation |
| Utf8.LengthIsCharCountIffAscii | src/client.rs:54 | byte length equals character count exactly when the text is ASCII |
| Utf8.UniformLength | src/client.rs:54 | a text of one repeated character has length count times that character's UTF-8 width |
| Types.ModelName | src/types.rs:3-23 | `as_str` agrees with the serde rename: the name of each model is read back by the deserializer as that model |
| Types.ModelFromNameInverse | src/types.rs:3-13 | the model deserializer accepts a string exactly when it is some model's wire name, and returns that model |
| Types.ModelNameInjective | src/types.rs:15-23 | distinct models have distinct wire names |
| Types.VoiceId | src/types.rs:48-61 | every voice ID is 20 characters long |
| Types.VoiceOfId | src/types.rs:48-61 | a string is recognized as a voice exactly when it is that voice's ID |
| Types.VoiceIdRoundTrip | src/types.rs:48-61 | each voice's ID looks up to that voice |
| Types.VoiceIdInjective | src/types.rs:48-61 | the ten voices have ten pairwise-distinct IDs |
| Types.FormatName | src/types.rs:70-111 | `as_str` agrees with the serde rename: the name of each format is read back by the deserializer as that format |
| Types.FormatFromNameInverse | src/types.rs:70-94 | the format deserializer accepts a string exactly when it is some format's wire name, and returns that format |
| Types.FormatNameInjective | src/types.rs:96-111 | the eleven formats have distinct wire names |
| Types.ResolvedFormat | src/types.rs:114-118 | an unset format resolves to `mp3_44100_128`, a set one to itself |
| Types.DefaultRequest | src/types.rs:174-192 | the default request has empty text, the default model and voice, no optional field set, and resolves to the default format |
| Types.NormalizationName | src/types.rs:143-149 | the lower-case serde name of each normalization mode is read back as that mode |
| Types.NormalizationFromNameInverse | src/types.rs:143-149 | the normalization deserializer accepts exactly the lower-case names `auto`, `on`, `off` |
| Types.ToJson | src/types.rs:218-233 | `model_id` reads back as the request's model, and the projection with the URL's voice and format rebuilds the request exactly |
| Types.ProjectionIgnoresUrlFields | src/types.rs:218-233 | voice and output format do not influence the JSON projection |
| Types.ProjectionDeterminesBody | src/types.rs:218-233 | two requests with the same projection differ at most in voice and format |
| Wire.KeyFromName | src/types.rs:194-216 | a string names a body member exactly when it is that member's serde field name |
| Wire.KeyNameRoundTrip | src/types.rs:194-216 | each member's field name reads back as that member |
| Wire.KeyNameInjective | src/types.rs:194-216 | distinct body members have distinct field names |
| Wire.SettingsObject | src/types.rs:120-130 | the settings object has a member exactly for each setting that is `Some`, holding its value, and no other member |
| Wire.RequestObject | src/types.rs:194-216 | the body always has `text` and `model_id`, has each optional member exactly when the field is `Some`, and nothing else |
| Wire.StringsRoundTrip | src/types.rs:208-211 | a list of request IDs decodes back to itself |
| Wire.SettingsRoundTrip | src/types.rs:120-130 | decoding the serialized settings gives the settings back |
| Wire.RequestRoundTrip | src/types.rs:194-216 | decoding the serialized body gives the projection back |
| Wire.BodyIsMinimalIffNothingSet | src/types.rs:194-216 | the body holds only `text` and `model_id` exactly when no optional field other than the URL-borne format is set |
| Wire.DefaultSettingsAreEmpty | src/types.rs:132-141 | default voice settings serialize to the empty object |
| Wire.DefaultRequestBody | src/types.rs:174-192 | the default request's body is exactly `text` = "" and `model_id` = `eleven_multilingual_v2` |
| Client.New | src/client.rs:21-27 | a new client keeps the key, uses the production base URL and a 60000 ms timeout |
| Client.WithBaseUrl | src/client.rs:29-32 | sets the base URL and keeps key and timeout |
| Client.WithTimeout | src/client.rs:34-37 | sets the timeout and keeps key and base URL |
| Client.ConfigurationCommutes | src/client.rs:29-37 | the two options are independent of order and the last base URL wins |
| Client.CheckSetting | src/client.rs:59-66 | one setting passes exactly when unset or within the inclusive range 0.0 to 1.0, and otherwise fails naming that field and value |
| Client.CheckSettings | src/client.rs:58-83 | the settings pass exactly when none of stability, similarity_boost and style is out of range; a failure names a field whose value is that out-of-range value |
| Client.Validate | src/client.rs:50-87 | passes exactly when the text is non-empty and at most 5000 bytes, the settings are in range and the key is non-empty; empty text gives `MissingInput`; `InputTooLong` carries the byte length; `MissingApiKey` only when every input check passed |
| Client.FirstViolationWins | src/client.rs:50-87 | validation reports the first violated check in the order MissingInput, InputTooLong, stability, similarity_boost, style, MissingApiKey |
| Client.MultiByteTextCountsBytes | src/client.rs:54-56 | 1700 three-byte characters are rejected as 5100 bytes long |
| Client.AsciiLengthBoundary | src/client.rs:54-56 | the bound is inclusive: 5000 ASCII characters pass the length check, 5001 fail carrying 5001 |
| Client.RequestTarget | src/client.rs:98-111 | the URL extends the base URL, and the voice and the resolved format (the default when unset) read back from it |
| Client.Prepare | src/client.rs:89-111 | the request is a POST with the client's timeout, exactly the API-key and JSON content-type headers, a URL carrying voice and resolved format, and a body that is the serialized projection, which decodes back to it |
| Client.PreparedRequestDeterminesRequest | src/client.rs:89-111 | two requests producing the same HTTP request agree on every field and on the resolved format |
| Client.DefaultFormatIndistinguishable | src/client.rs:99-104 | an unset format and the explicit default produce the same HTTP request |
| Client.IsSuccess | src/client.rs:131 | a status counts as success exactly when it is in the 2xx class |
| Client.Classify | src/client.rs:128-150 | a 2xx status yields the body unchanged with the resolved format; any other status yields `ApiError` with that status and the parsed message, or the body text when it does not parse |
| Client.Send | src/client.rs:46-151 | a validation failure is returned as is; URL and transport errors are passed through; once validation, URL and transport succeed the result is the classification of the transport's response; success implies validation passed, the transport answered 2xx, and the audio is its body |
| Client.ValidationPrecedesNetwork | src/client.rs:50-126 | a request that fails validation gets the same result whatever the URL parser, transport or parsers do |
| Client.ResponseFormatMatchesUrl | src/client.rs:98-136 | a successful response carries exactly the format the URL requested |
| Builder.Synthesize | src/client.rs:39-44 | a fresh builder keeps the client, uses the default model, voice and format, fails validation with `MissingInput`, and has a body of exactly `text` and `model_id` |
| Builder.SetText | src/client.rs:160-163 | sets the text and changes no other field |
| Builder.SetInput | src/client.rs:165-167 | sets the text and changes no other field |
| Builder.InputIsText | src/client.rs:165-167 | `input` is the same as `text` |
| Builder.SetModel | src/client.rs:169-172 | sets the model and changes no other field |
| Builder.SetVoice | src/client.rs:174-177 | sets the voice and changes no other field |
| Builder.SetVoiceSettings | src/client.rs:179-182 | replaces the whole settings record and changes no other field |
| Builder.SetStability | src/client.rs:184-189 | sets stability in the current (or all-unset) settings, keeps the other settings and every other field |
| Builder.SetSimilarityBoost | src/client.rs:191-196 | sets similarity_boost in the current (or all-unset) settings, keeps the other settings and every other field |
| Builder.SetStyle | src/client.rs:198-203 | sets style in the current (or all-unset) settings, keeps the other settings and every other field |
| Builder.SetUseSpeakerBoost | src/client.rs:205-210 | sets use_speaker_boost in the current (or all-unset) settings, keeps the other settings and every other field |
| Builder.SetOutputFormat | src/client.rs:212-215 | sets the format and changes no other field |
| Builder.SetResponseFormat | src/client.rs:217-219 | sets the format and changes no other field |
| Builder.ResponseFormatIsOutputFormat | src/client.rs:217-219 | `response_format` is the same as `output_format` |
| Builder.SetLanguageCode | src/client.rs:221-224 | sets the language code and changes no other field |
| Builder.SetSeed | src/client.rs:226-229 | sets the seed and changes no other field |
| Builder.SetPreviousText | src/client.rs:231-234 | sets the previous text and changes no other field |
| Builder.SetNextText | src/client.rs:236-239 | sets the next text and changes no other field |
| Builder.SetPreviousRequestIds | src/client.rs:241-244 | sets the previous request IDs and changes no other field |
| Builder.SetNextRequestIds | src/client.rs:246-249 | sets the next request IDs and changes no other field |
| Builder.SetApplyTextNormalization | src/client.rs:251-254 | sets the normalization mode and changes no other field |
| Builder.SetApplyLanguageTextNormalization | src/client.rs:256-259 | sets the language normalization flag and changes no other field |
| Builder.Execute | src/client.rs:261-263 | an empty text fails with `MissingInput`, any validation failure is returned as is, once validation, URL and transport succeed the result is the classification of the response, and success implies valid inputs and the resolved format |
| Builder.ExecuteIsSend | src/client.rs:261-263 | `execute` behaves exactly as `send_speech_request` with the builder's client and request, including URL and transport error pass-through |
| Builder.UnconfiguredBuilderFails | src/client.rs:39-52 | executing an unconfigured builder fails with `MissingInput` whatever the client and the network |
| Builder.LastWriteWins | src/client.rs:160-189 | setting text or stability twice keeps only the last value |
| Builder.SettingSettersCommute | src/client.rs:184-210 | any two of the four merging setters (stability, similarity_boost, style, use_speaker_boost) that write different settings commute |
| Builder.VoiceSettingsReplaces | src/client.rs:179-210 | `voice_settings` discards what any of the four merging setters did before it |
| Builder.MergeIntoExplicitSettings | src/client.rs:179-210 | any merging setter after `voice_settings` keeps the other settings of that record and serializes its own value under its own member |
| Builder.FirstSettingStartsFromUnset | src/client.rs:184-210 | on a builder without settings, any merging setter yields settings that serialize to exactly its own member and value |
| Builder.ChainKeepsText | src/client.rs:160-259 | no setter other than `text`/`input` touches the text or the client |
| Builder.ChainWithoutTextFails | src/client.rs:39-52 | any chain from `synthesize` that never sets the text fails with `MissingInput` |
| Builder.ChainKeepsSettingsInRange | src/client.rs:179-210 | merging in-range values into in-range settings never produces an out-of-range setting |
| Builder.InRangeChainValidates | src/client.rs:58-87 | a chain of in-range setters with a non-empty text within the byte limit passes validation when the key is non-empty |

## Left out

- The network call, `async`/`await` and the transport's timeout behaviour (src/client.rs:118-126) are external I/O. The transport is the `send` field of `Client.Environment`, and its errors pass through unchanged.
- `url::Url::parse` (src/client.rs:106-116) is a foreign library. The model only records whether it rejects the URL, and with which message, through `Environment.urlError`. The transport receives the parsed `url::Url`, which may normalize a custom base URL (host case, default port, percent-encoding). `HttpRequest.url` is the formatted string before parsing, and `ParseTarget` and `Client.ResponseFormatMatchesUrl` speak of that string.
- The JSON byte encoding of serde_json (src/client.rs:91-92) is a foreign library. The body is modelled as a key/value object. Members are keyed by an enumeration whose serde field names are proved distinct. Integers and floats are separate JSON values.
- `SerializationError` (src/client.rs:92) is not modelled. Serializing the abstract object cannot fail.
- `serde_json::from_slice::<ApiErrorResponse>` (src/client.rs:138) is a foreign library. It is the `parseApiError` oracle.
- `String::from_utf8_lossy` (src/client.rs:144) is a foreign library. It is the `lossyText` oracle.
- Client.CheckSetting: voice settings are `real`, not `f32`. A NaN setting cannot be represented. In Rust a NaN fails both comparisons and therefore passes the range check.
- `DeserializationError` and `InvalidSeed` (src/error.rs:27-31) are never constructed by the client.
- The `Display` messages of `TtsError` (src/error.rs:6-30) are presentation only.
- `Voice` also derives serde with its variant names. The client never serializes a voice; only its ID travels, in the URL.
- The builder borrows its client (`&'a SpeechClient`). The model holds a copy of the client value, which the builder never changes.
- src/lib.rs only re-exports, so it is not part of this model.
