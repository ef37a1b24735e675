/**
 * The HTTP client's two interceptors: the request interceptor that adds the
 * API key to the query parameters, and the response-error interceptor that
 * turns every transport failure into an `ApiError { message, code }`.
 */
module Api {
  import opened Wrappers
  import opened Text
  import opened Amount

  /** A query parameter value: the client sends strings and numbers. */
  datatype ParamValue = Str(text: string) | Num(number: Number)

  /** The part of a request configuration the request interceptor looks at; `params` may be undefined. */
  datatype RequestConfig = RequestConfig(url: string, params: Option<map<string, ParamValue>>)

  const ApiKeyParam: string := "api_key"

  /**
   * The request interceptor. With a key that is defined and non-empty (the
   * JavaScript truthiness test), `params` becomes the old parameters, or none,
   * with `api_key` set to the key; otherwise the configuration is returned as it is.
   */
  function InjectApiKey(config: RequestConfig, apiKey: Option<string>): (r: RequestConfig)
    ensures r.url == config.url
    ensures (apiKey.None? || apiKey.value == "") ==> r == config
    ensures apiKey.Some? && apiKey.value != "" ==>
      r.params.Some? &&
      ApiKeyParam in r.params.value && r.params.value[ApiKeyParam] == Str(apiKey.value) &&
      r.params.value.Keys == (if config.params.Some? then config.params.value.Keys else {}) + {ApiKeyParam} &&
      (config.params.Some? ==> forall p :: p in config.params.value && p != ApiKeyParam ==> r.params.value[p] == config.params.value[p])
  {
    if apiKey.Some? && apiKey.value != "" then
      var current := if config.params.Some? then config.params.value else map[];
      config.(params := Some(current[ApiKeyParam := Str(apiKey.value)]))
    else
      config
  }

  /** Injecting the key a second time changes nothing: the interceptor is idempotent. */
  lemma InjectApiKeyIdempotent(config: RequestConfig, apiKey: Option<string>)
    ensures InjectApiKey(InjectApiKey(config, apiKey), apiKey) == InjectApiKey(config, apiKey)
  {
    if apiKey.Some? && apiKey.value != "" {
      var p := InjectApiKey(config, apiKey).params.value;
      assert p[ApiKeyParam := Str(apiKey.value)] == p;
    }
  }

  /** The response part of an HTTP error: its status and the `message` field of its body, if any. */
  datatype ErrorResponse = ErrorResponse(status: int, dataMessage: Option<string>)

  /**
   * An HTTP client failure: a response with a non-success status, or a request
   * that got no response (`requestSent`), or a failure before sending; `message`
   * is the failure's own message.
   */
  datatype TransportFailure = TransportFailure(response: Option<ErrorResponse>, requestSent: bool, message: string)

  /** The error the interceptor rejects with: a message and the HTTP status when there was a response. */
  datatype ApiError = ApiError(message: string, code: Option<int>)

  const UnexpectedMessage: string := "An unexpected error occurred"
  const UnauthorizedMessage: string := "Invalid API key. Please check your credentials."
  const ForbiddenMessage: string := "Access forbidden. Please check your API permissions."
  const NotFoundMessage: string := "API endpoint not found."
  const RateLimitMessage: string := "Rate limit exceeded. Please try again later."
  const ServerErrorMessage: string := "Server error. Please try again later."
  const NetworkMessage: string := "Network error. Please check your internet connection."
  const StatusPrefix: string := "Request failed with status "

  /** JavaScript's `a || b` on strings: the first operand unless it is empty. */
  function OrElse(a: string, b: string): (r: string)
    ensures a != "" ==> r == a
    ensures a == "" ==> r == b
  {
    if a != "" then a else b
  }

  /** The fixed message of a status the interceptor knows, if it is one. */
  function KnownStatusMessage(status: int): Option<string>
  {
    if status == 401 then Some(UnauthorizedMessage)
    else if status == 403 then Some(ForbiddenMessage)
    else if status == 404 then Some(NotFoundMessage)
    else if status == 429 then Some(RateLimitMessage)
    else if status == 500 then Some(ServerErrorMessage)
    else None
  }

  /** The message for a status outside the known five: the body's message, or one naming the status. */
  function OtherStatusMessage(status: int, dataMessage: Option<string>): string
  {
    OrElse(if dataMessage.Some? then dataMessage.value else "", StatusPrefix + IntToString(status))
  }

  /** The response-error interceptor, as the total function from a transport failure to the error it rejects with. */
  function MapError(f: TransportFailure): (r: ApiError)
    ensures r.code.Some? <==> f.response.Some?
    ensures f.response.Some? ==> r.code.value == f.response.value.status
  {
    var code := if f.response.Some? then Some(f.response.value.status) else None;
    if f.response.Some? then
      var status := f.response.value.status;
      var known := KnownStatusMessage(status);
      ApiError(if known.Some? then known.value else OtherStatusMessage(status, f.response.value.dataMessage), code)
    else if f.requestSent then
      ApiError(NetworkMessage, code)
    else
      ApiError(OrElse(f.message, UnexpectedMessage), code)
  }

  /** Each of the five known statuses has its fixed message, whatever the body says. */
  lemma MapErrorKnownStatus(f: TransportFailure)
    requires f.response.Some?
    ensures f.response.value.status == 401 ==> MapError(f).message == UnauthorizedMessage
    ensures f.response.value.status == 403 ==> MapError(f).message == ForbiddenMessage
    ensures f.response.value.status == 404 ==> MapError(f).message == NotFoundMessage
    ensures f.response.value.status == 429 ==> MapError(f).message == RateLimitMessage
    ensures f.response.value.status == 500 ==> MapError(f).message == ServerErrorMessage
  {
  }

  /**
   * Any other status gives the body's message when it is non-empty; otherwise
   * the message names the status, and the status can be read back from it.
   */
  lemma MapErrorOtherStatus(f: TransportFailure)
    requires f.response.Some? && KnownStatusMessage(f.response.value.status).None?
    ensures var r := f.response.value;
      (r.dataMessage.Some? && r.dataMessage.value != "" ==> MapError(f).message == r.dataMessage.value) &&
      (r.dataMessage.None? || r.dataMessage.value == "" ==>
        var m := MapError(f).message;
        |m| > |StatusPrefix| && m[..|StatusPrefix|] == StatusPrefix &&
        (r.status >= 0 ==> AllDigits(m[|StatusPrefix|..]) && DigitsValue(m[|StatusPrefix|..]) == r.status))
  {
    var r := f.response.value;
    if r.dataMessage.None? || r.dataMessage.value == "" {
      var m := MapError(f).message;
      assert m == StatusPrefix + IntToString(r.status);
      assert m[|StatusPrefix|..] == IntToString(r.status);
    }
  }

  /** Without a response: the network message when the request was sent, else the failure's own message or the generic one. */
  lemma MapErrorNoResponse(f: TransportFailure)
    requires f.response.None?
    ensures f.requestSent ==> MapError(f).message == NetworkMessage
    ensures !f.requestSent && f.message != "" ==> MapError(f).message == f.message
    ensures !f.requestSent && f.message == "" ==> MapError(f).message == UnexpectedMessage
  {
  }

  /** Every rejection carries a non-empty message, so callers' `message || fallback` tests never fall through on it. */
  lemma MapErrorMessageNonEmpty(f: TransportFailure)
    ensures MapError(f).message != ""
  {
    if f.response.Some? && KnownStatusMessage(f.response.value.status).None? {
      assert |IntToString(f.response.value.status)| > 0;
    }
  }
}
