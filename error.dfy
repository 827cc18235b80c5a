/** The error taxonomy of the client and the mapping from the server's error body (src/error.rs). */
module Errors {
  import opened Wrappers
  import Json
  import opened Models

  /** Every way a call can fail. The payloads of `RequestFailed` and `UrlError` stand for the
      transport's and the URL parser's error values, kept as their text. */
  datatype DocarooError =
    | RequestFailed(detail: string)
    | ApiError(code: string, message: string, requestId: Option<string>)
    | InvalidRequest(message: string)
    | RateLimitExceeded(retryAfter: Json.U64)
    | AuthenticationFailed(message: string)
    | ParseError(message: string)
    | UrlError(detail: string)

  /** The wait the server did not specify. */
  const DEFAULT_RETRY_AFTER: Json.U64 := 60

  /** `details.retryAfter` when `details` is an object whose `retryAfter` member is a
      non-negative integer; 60 in every other case. */
  function RetryAfter(details: Option<Json.Value>): (seconds: Json.U64)
    ensures details.Some? && details.value.Object? && "retryAfter" in details.value.fields
            && details.value.fields["retryAfter"].Num? && details.value.fields["retryAfter"].n.PosInt?
            ==> seconds == details.value.fields["retryAfter"].n.u
    ensures details.None? ==> seconds == DEFAULT_RETRY_AFTER
    ensures details.Some? && !details.value.Object? ==> seconds == DEFAULT_RETRY_AFTER
    ensures details.Some? && details.value.Object? && "retryAfter" !in details.value.fields
            ==> seconds == DEFAULT_RETRY_AFTER
    ensures details.Some? && details.value.Object? && "retryAfter" in details.value.fields
            && !(details.value.fields["retryAfter"].Num? && details.value.fields["retryAfter"].n.PosInt?)
            ==> seconds == DEFAULT_RETRY_AFTER
  {
    var member := match details
      case Some(d) => Json.Get(d, "retryAfter")
      case None => None;
    var value := match member
      case Some(v) => Json.AsU64(v)
      case None => None;
    value.GetOr(DEFAULT_RETRY_AFTER)
  }

  /** The kinds `FromErrorResponse` can produce: those the server reports. */
  predicate IsServerReported(e: DocarooError) {
    e.ApiError? || e.RateLimitExceeded? || e.AuthenticationFailed?
  }

  /** `DocarooError::from_error_response`: classify a server error body by its `error` code. */
  function FromErrorResponse(response: ErrorResponse): (e: DocarooError)
    ensures IsServerReported(e)
    ensures e.RateLimitExceeded? <==> response.error == "rate_limit_exceeded"
    ensures e.RateLimitExceeded? ==> e.retryAfter == RetryAfter(response.details)
    ensures e.AuthenticationFailed? <==> response.error == "unauthorized"
    ensures e.AuthenticationFailed? ==> e.message == response.message
    ensures e.ApiError? ==> e.code == response.error && e.message == response.message
                            && e.requestId == response.requestId
  {
    if response.error == "rate_limit_exceeded" then
      RateLimitExceeded(RetryAfter(response.details))
    else if response.error == "unauthorized" then
      AuthenticationFailed(response.message)
    else
      ApiError(response.error, response.message, response.requestId)
  }

  /** `is_retryable`: a failed send and a rate limit may succeed if the same request is sent again. */
  predicate IsRetryable(e: DocarooError) {
    e.RequestFailed? || e.RateLimitExceeded?
  }

  /** `request_id`: only an `ApiError` exposes the server's request id. */
  function RequestId(e: DocarooError): (id: Option<string>)
    ensures id.Some? ==> e.ApiError? && id == e.requestId
    ensures e.ApiError? ==> id == e.requestId
  {
    match e
    case ApiError(_, _, requestId) => requestId
    case _ => None
  }

  /** A classified server error is retryable exactly when its code asked for a rate limit. */
  lemma FromErrorResponseRetryable(response: ErrorResponse)
    ensures IsRetryable(FromErrorResponse(response)) <==> response.error == "rate_limit_exceeded"
  {
  }

  /** The request id of a classified server error: the body's own id for an `ApiError`, none otherwise. */
  lemma FromErrorResponseRequestId(response: ErrorResponse)
    ensures RequestId(FromErrorResponse(response)) ==
            if response.error == "rate_limit_exceeded" || response.error == "unauthorized"
            then None else response.requestId
  {
  }

  /** Retry eligibility, variant by variant. */
  lemma RetryableKinds(detail: string, code: string, message: string, id: Option<string>, seconds: Json.U64)
    ensures IsRetryable(RequestFailed(detail)) && IsRetryable(RateLimitExceeded(seconds))
    ensures !IsRetryable(ApiError(code, message, id)) && !IsRetryable(InvalidRequest(message))
    ensures !IsRetryable(AuthenticationFailed(message)) && !IsRetryable(ParseError(message))
    ensures !IsRetryable(UrlError(detail))
  {
  }

  /** The unit tests' cases: a plain error code is copied, and `retryAfter: 120` is honoured. */
  lemma FromErrorResponseExamples()
    ensures FromErrorResponse(ErrorResponse("bad_request", "Invalid NPI format", None, Some("req_123"), None))
            == ApiError("bad_request", "Invalid NPI format", Some("req_123"))
    ensures FromErrorResponse(ErrorResponse("rate_limit_exceeded", "Too many requests",
                                            Some(Json.Object(map["retryAfter" := Json.Num(Json.PosInt(120))])),
                                            None, None))
            == RateLimitExceeded(120)
    ensures RequestId(ApiError("bad_request", "Invalid NPI", Some("req_123"))) == Some("req_123")
  {
  }
}
