/**
  The speech client: its configuration, the pre-flight validation of a request,
  the HTTP request it builds, and the classification of the provider's answer.
  The network call, URL parsing and error-body parsing are parameters
  (`Environment`), so the whole round trip is a pure function.
*/
module Client {
  import opened Wrappers
  import opened Ints
  import opened Utf8
  import opened Types
  import opened Errors
  import opened Wire

  /** Longest accepted text, in UTF-8 bytes. */
  const MaxInputLength: nat := 5000
  const MinVoiceSetting: real := 0.0
  const MaxVoiceSetting: real := 1.0

  const DefaultBaseUrl: string := "https://api.elevenlabs.io"
  /** Milliseconds. */
  const DefaultTimeout: u64 := 60000

  /** Credentials and endpoint, fixed for the client's lifetime. */
  datatype SpeechClient = SpeechClient(apiKey: string, baseUrl: string, timeout: u64)

  function New(apiKey: string): (c: SpeechClient)
    ensures c.apiKey == apiKey
    ensures c.baseUrl == "https://api.elevenlabs.io"
    ensures c.timeout == 60000
  {
    SpeechClient(apiKey, DefaultBaseUrl, DefaultTimeout)
  }

  function WithBaseUrl(c: SpeechClient, baseUrl: string): (r: SpeechClient)
    ensures r.baseUrl == baseUrl
    ensures r.apiKey == c.apiKey && r.timeout == c.timeout
  {
    c.(baseUrl := baseUrl)
  }

  function WithTimeout(c: SpeechClient, timeout: u64): (r: SpeechClient)
    ensures r.timeout == timeout
    ensures r.apiKey == c.apiKey && r.baseUrl == c.baseUrl
  {
    c.(timeout := timeout)
  }

  /** The two configuration options are independent: their order does not matter, and the last value set wins. */
  lemma ConfigurationCommutes(c: SpeechClient, u: string, v: string, t: u64)
    ensures WithTimeout(WithBaseUrl(c, u), t) == WithBaseUrl(WithTimeout(c, t), u)
    ensures WithBaseUrl(WithBaseUrl(c, u), v) == WithBaseUrl(c, v)
  {
  }

  // ---------------------------------------------------------------------------
  // Pre-flight validation
  // ---------------------------------------------------------------------------

  /** The inclusive range every voice setting must lie in. */
  predicate InRange(x: real) {
    MinVoiceSetting <= x <= MaxVoiceSetting
  }

  predicate OptionalInRange(o: Option<real>) {
    o.None? || InRange(o.value)
  }

  /** No voice setting is out of range; `use_speaker_boost` is not range-checked. */
  predicate SettingsInRange(settings: Option<VoiceSettings>) {
    settings.None? ||
    (OptionalInRange(settings.value.stability)
     && OptionalInRange(settings.value.similarityBoost)
     && OptionalInRange(settings.value.style))
  }

  /** Every check on the request itself passes. */
  predicate InputsValid(req: SpeechRequest) {
    req.text != [] && Length(req.text) <= MaxInputLength && SettingsInRange(req.voiceSettings)
  }

  /** The voice setting an error names, looked up by its field name. */
  function SettingNamed(vs: VoiceSettings, field: string): Option<real>
  {
    if field == "stability" then vs.stability
    else if field == "similarity_boost" then vs.similarityBoost
    else if field == "style" then vs.style
    else None
  }

  /** The range check of one optional setting. */
  function CheckSetting(field: string, value: Option<real>): (r: Outcome<TtsError>)
    ensures r.Pass? <==> OptionalInRange(value)
    ensures r.Fail? ==> r.error == InvalidVoiceSettings(field, value.value)
  {
    if value.Some? && (value.value < MinVoiceSetting || value.value > MaxVoiceSetting) then
      Fail(InvalidVoiceSettings(field, value.value))
    else
      Pass
  }

  /** The range checks of stability, similarity boost and style, in that order. */
  function CheckSettings(settings: Option<VoiceSettings>): (r: Outcome<TtsError>)
    ensures r.Pass? <==> SettingsInRange(settings)
    ensures r.Fail? ==>
      && r.error.InvalidVoiceSettings?
      && settings.Some?
      && SettingNamed(settings.value, r.error.field) == Some(r.error.value)
      && !InRange(r.error.value)
  {
    match settings
    case None => Pass
    case Some(vs) =>
      var stability := CheckSetting("stability", vs.stability);
      if stability.Fail? then stability
      else
        var similarityBoost := CheckSetting("similarity_boost", vs.similarityBoost);
        if similarityBoost.Fail? then similarityBoost
        else CheckSetting("style", vs.style)
  }

  /** The checks `send_speech_request` runs before touching the network; the first failure wins. */
  function Validate(req: SpeechRequest, apiKey: string): (r: Outcome<TtsError>)
    ensures r.Pass? <==> InputsValid(req) && apiKey != []
    ensures r.Fail? ==> IsValidationError(r.error)
    ensures r == Fail(MissingInput) <==> req.text == []
    ensures r == Fail(InputTooLong(Length(req.text))) <==> req.text != [] && Length(req.text) > MaxInputLength
    ensures r.Fail? && r.error.InputTooLong? ==> r.error.length == Length(req.text)
    ensures r.Fail? && r.error.InvalidVoiceSettings? ==>
      && req.text != []
      && Length(req.text) <= MaxInputLength
      && req.voiceSettings.Some?
      && SettingNamed(req.voiceSettings.value, r.error.field) == Some(r.error.value)
      && !InRange(r.error.value)
    ensures r == Fail(MissingApiKey) <==> InputsValid(req) && apiKey == []
  {
    if req.text == [] then Fail(MissingInput)
    else if Length(req.text) > MaxInputLength then Fail(InputTooLong(Length(req.text)))
    else
      var settings := CheckSettings(req.voiceSettings);
      if settings.Fail? then settings
      else if apiKey == [] then Fail(MissingApiKey)
      else Pass
  }

  /** The violation a single setting contributes, if any. */
  function SettingViolation(field: string, value: Option<real>): seq<TtsError>
  {
    if value.Some? && !InRange(value.value) then [InvalidVoiceSettings(field, value.value)] else []
  }

  /** Every check the request and key fail, listed in the precedence order of the client. */
  function Violations(req: SpeechRequest, apiKey: string): seq<TtsError>
  {
    (if req.text == [] then [MissingInput] else [])
    + (if Length(req.text) > MaxInputLength then [InputTooLong(Length(req.text))] else [])
    + (if req.voiceSettings.None? then []
       else SettingViolation("stability", req.voiceSettings.value.stability)
            + SettingViolation("similarity_boost", req.voiceSettings.value.similarityBoost)
            + SettingViolation("style", req.voiceSettings.value.style))
    + (if apiKey == [] then [MissingApiKey] else [])
  }

  /**
    Error precedence: validation reports the first violated check in the order
    MissingInput, InputTooLong, stability, similarity_boost, style, MissingApiKey.
  */
  lemma FirstViolationWins(req: SpeechRequest, apiKey: string)
    ensures Validate(req, apiKey) == if Violations(req, apiKey) == [] then Pass else Fail(Violations(req, apiKey)[0])
  {
  }

  /** `len()` counts bytes: 1700 copies of the three-byte euro sign are too long, though only 1700 characters. */
  lemma MultiByteTextCountsBytes(req: SpeechRequest, apiKey: string)
    ensures Validate(req.(text := seq(1700, _ => '€')), apiKey) == Fail(InputTooLong(5100))
  {
    var s := seq(1700, _ => '€');
    UniformLength(s, '€');
  }

  /** The length bound is inclusive: 5000 ASCII characters pass, 5001 fail with their length. */
  lemma AsciiLengthBoundary(req: SpeechRequest, apiKey: string)
    requires IsAscii(req.text)
    ensures |req.text| == MaxInputLength ==>
      (Validate(req, apiKey).Pass? <==> SettingsInRange(req.voiceSettings) && apiKey != [])
    ensures |req.text| == MaxInputLength + 1 ==> Validate(req, apiKey) == Fail(InputTooLong(5001))
  {
    LengthIsCharCountIffAscii(req.text);
  }

  // ---------------------------------------------------------------------------
  // The HTTP request
  // ---------------------------------------------------------------------------

  const TextToSpeechPath: string := "/v1/text-to-speech/"
  const FormatQuery: string := "?output_format="
  const ApiKeyHeader: string := "xi-api-key"
  const ContentTypeHeader: string := "Content-Type"
  const JsonContentType: string := "application/json"

  /** `s` without its prefix `p`, or `None` when `s` does not start with `p`. */
  function StripPrefix(p: string, s: string): (r: Option<string>)
    ensures r.Some? <==> |p| <= |s| && s[..|p|] == p
    ensures r.Some? ==> s == p + r.value
  {
    if |p| <= |s| && s[..|p|] == p then Some(s[|p|..]) else None
  }

  /** Reads voice and format back out of a request URL built on `baseUrl`. */
  function ParseTarget(baseUrl: string, url: string): Option<(Voice, AudioFormat)>
  {
    var endpoint :- StripPrefix(baseUrl, url);
    var afterPath :- StripPrefix(TextToSpeechPath, endpoint);
    if |afterPath| < VoiceIdLength then None
    else
      var voice :- VoiceOfId(afterPath[..VoiceIdLength]);
      var name :- StripPrefix(FormatQuery, afterPath[VoiceIdLength..]);
      var format :- FormatFromName(name);
      Some((voice, format))
  }

  /**
    The request URL: base URL, endpoint path with the voice ID, and the format
    query parameter. It extends the base URL, and the voice and the resolved
    format can be read back from it.
  */
  function RequestTarget(c: SpeechClient, req: SpeechRequest): (url: string)
    ensures |c.baseUrl| <= |url| && url[..|c.baseUrl|] == c.baseUrl
    ensures ParseTarget(c.baseUrl, url) == Some((req.voice, ResolvedFormat(req.outputFormat)))
  {
    var fmt := ResolvedFormat(req.outputFormat);
    var query := FormatQuery + FormatName(fmt);
    var afterPath := VoiceId(req.voice) + query;
    var endpoint := TextToSpeechPath + afterPath;
    var url := c.baseUrl + endpoint;
    assert StripPrefix(c.baseUrl, url) == Some(endpoint);
    assert StripPrefix(TextToSpeechPath, endpoint) == Some(afterPath);
    assert afterPath[..VoiceIdLength] == VoiceId(req.voice);
    assert afterPath[VoiceIdLength..] == query;
    assert StripPrefix(FormatQuery, query) == Some(FormatName(fmt));
    VoiceIdRoundTrip(req.voice);
    url
  }

  datatype HttpMethod = Post

  /** What the client hands to the transport. */
  datatype HttpRequest = HttpRequest(
    verb: HttpMethod,
    url: string,
    headers: map<string, string>,
    timeout: u64,
    body: Object)

  /** What the transport hands back. */
  datatype HttpResponse = HttpResponse(status: u16, body: seq<u8>)

  /** The POST request of a validated synthesis call. */
  function Prepare(c: SpeechClient, req: SpeechRequest): (r: HttpRequest)
    ensures r.verb == Post && r.timeout == c.timeout
    ensures r.headers.Keys == {ApiKeyHeader, ContentTypeHeader}
    ensures r.headers[ApiKeyHeader] == c.apiKey && r.headers[ContentTypeHeader] == JsonContentType
    ensures ParseTarget(c.baseUrl, r.url) == Some((req.voice, ResolvedFormat(req.outputFormat)))
    ensures r.body == RequestObject(ToJson(req))
    ensures DecodeRequest(r.body) == Some(ToJson(req))
  {
    RequestRoundTrip(ToJson(req));
    HttpRequest(
      Post,
      RequestTarget(c, req),
      map[ApiKeyHeader := c.apiKey, ContentTypeHeader := JsonContentType],
      c.timeout,
      RequestObject(ToJson(req)))
  }

  /**
    Nothing of the request is lost on the wire except the difference between an
    unset format and the default format: two requests that produce the same HTTP
    request agree on every field and on the resolved format.
  */
  lemma PreparedRequestDeterminesRequest(c: SpeechClient, a: SpeechRequest, b: SpeechRequest)
    ensures Prepare(c, a) == Prepare(c, b) ==>
      a == b.(outputFormat := a.outputFormat) && ResolvedFormat(a.outputFormat) == ResolvedFormat(b.outputFormat)
  {
    if Prepare(c, a) == Prepare(c, b) {
      assert ToJson(a) == ToJson(b);
      ProjectionDeterminesBody(a, b);
    }
  }

  /** An unset format and an explicit default format produce the same HTTP request. */
  lemma DefaultFormatIndistinguishable(c: SpeechClient, req: SpeechRequest)
    ensures Prepare(c, req.(outputFormat := None)) == Prepare(c, req.(outputFormat := Some(DefaultFormat)))
  {
  }

  // ---------------------------------------------------------------------------
  // The response
  // ---------------------------------------------------------------------------

  /** A 2xx status (section 15.3 of RFC 9110). */
  function IsSuccess(status: u16): (ok: bool)
    ensures ok <==> status / 100 == 2
  {
    200 <= status <= 299
  }

  /**
    The outcome of an answered call: the body as audio on a 2xx status, an
    `ApiError` with the status otherwise, whose message is the structured error's
    message when the body parses as one and the body as text when it does not.
  */
  function Classify(resp: HttpResponse, requested: Option<AudioFormat>,
                    parseApiError: seq<u8> -> Option<ApiErrorResponse>,
                    lossyText: seq<u8> -> string): (r: Result<SpeechResponse, TtsError>)
    ensures r.Success? <==> IsSuccess(resp.status)
    ensures r.Success? ==> r.value.audioData == resp.body && r.value.format == ResolvedFormat(requested)
    ensures r.Failure? ==> r.error.ApiError? && r.error.status == resp.status
    ensures r.Failure? && parseApiError(resp.body).Some? ==>
      r.error.message == parseApiError(resp.body).value.error.message
    ensures r.Failure? && parseApiError(resp.body).None? ==> r.error.message == lossyText(resp.body)
  {
    if IsSuccess(resp.status) then
      Success(SpeechResponse(resp.body, ResolvedFormat(requested)))
    else
      match parseApiError(resp.body)
      case Some(errorResponse) => Failure(ApiError(resp.status, errorResponse.error.message))
      case None => Failure(ApiError(resp.status, lossyText(resp.body)))
  }

  /**
    What the client cannot compute itself: URL parsing (an error message when the
    URL is rejected), the HTTP transport, the JSON parser of error bodies, and the
    lossy UTF-8 reading of a body.
  */
  datatype Environment = Environment(
    urlError: string -> Option<string>,
    send: HttpRequest -> Result<HttpResponse, HttpClientError>,
    parseApiError: seq<u8> -> Option<ApiErrorResponse>,
    lossyText: seq<u8> -> string)

  /** `send_speech_request`: validate, build the request, send it, classify the answer. */
  function Send(c: SpeechClient, req: SpeechRequest, env: Environment): (r: Result<SpeechResponse, TtsError>)
    ensures Validate(req, c.apiKey).Fail? ==> r == Failure(Validate(req, c.apiKey).error)
    ensures r.Failure? ==> (IsValidationError(r.error) <==> Validate(req, c.apiKey).Fail?)
    ensures Validate(req, c.apiKey).Pass? && env.urlError(RequestTarget(c, req)).Some? ==>
      r == Failure(HttpClient(BadUrl(env.urlError(RequestTarget(c, req)).value)))
    ensures Validate(req, c.apiKey).Pass? && env.urlError(RequestTarget(c, req)).None?
            && env.send(Prepare(c, req)).Failure? ==>
      r == Failure(HttpClient(env.send(Prepare(c, req)).error))
    ensures r.Success? ==>
      && Validate(req, c.apiKey).Pass?
      && env.send(Prepare(c, req)).Success?
      && IsSuccess(env.send(Prepare(c, req)).value.status)
      && r.value.audioData == env.send(Prepare(c, req)).value.body
      && r.value.format == ResolvedFormat(req.outputFormat)
    ensures Validate(req, c.apiKey).Pass? && env.urlError(RequestTarget(c, req)).None?
            && env.send(Prepare(c, req)).Success? ==>
      r == Classify(env.send(Prepare(c, req)).value, req.outputFormat, env.parseApiError, env.lossyText)
  {
    match Validate(req, c.apiKey)
    case Fail(e) => Failure(e)
    case Pass =>
      var url := RequestTarget(c, req);
      if env.urlError(url).Some? then Failure(HttpClient(BadUrl(env.urlError(url).value)))
      else
        match env.send(Prepare(c, req))
        case Failure(e) => Failure(HttpClient(e))
        case Success(resp) => Classify(resp, req.outputFormat, env.parseApiError, env.lossyText)
  }

  /** A request that fails validation never reaches the network: the environment cannot change the result. */
  lemma ValidationPrecedesNetwork(c: SpeechClient, req: SpeechRequest, e1: Environment, e2: Environment)
    requires Validate(req, c.apiKey).Fail?
    ensures Send(c, req, e1) == Send(c, req, e2)
  {
  }

  /** A successful response is labelled with exactly the format the URL asked for. */
  lemma ResponseFormatMatchesUrl(c: SpeechClient, req: SpeechRequest, env: Environment)
    ensures Send(c, req, env).Success? ==>
      ParseTarget(c.baseUrl, Prepare(c, req).url) == Some((req.voice, Send(c, req, env).value.format))
  {
  }
}
