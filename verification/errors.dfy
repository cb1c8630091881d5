/** The error taxonomy of the client: the variants this model covers. */
module Errors {
  import opened Ints

  /** What the HTTP transport reports; its internals are not part of this model. */
  datatype HttpClientError =
    | BadUrl(url: string)
    | Transport(detail: string)

  datatype TtsError =
    | MissingInput
    | InputTooLong(length: nat)
    | InvalidVoiceSettings(field: string, value: real)
    | MissingApiKey
    | ApiError(status: u16, message: string)
    | HttpClient(cause: HttpClientError)

  /** Errors raised by the pre-flight checks, before any network access. */
  predicate IsValidationError(e: TtsError) {
    e.MissingInput? || e.InputTooLong? || e.InvalidVoiceSettings? || e.MissingApiKey?
  }
}
