/**
 * The client core (src/client.rs): configuration, the response classifier, and the
 * collaborators an exchange goes through (the URL library and the HTTP transport).
 */
module Client {
  import opened Wrappers
  import Json
  import opened Strings
  import opened Models
  import opened Errors

  /** The production endpoint every client uses unless configured otherwise (src/lib.rs). */
  const API_BASE_URL: string := "https://care-navigation-gateway-ccg16t89.wl.gateway.dev"

  /** An HTTP status code as the `http` crate admits it. */
  type StatusCode = s: int | 100 <= s <= 999 witness 200

  /** `StatusCode::is_success`. */
  predicate IsSuccess(s: StatusCode) {
    200 <= s <= 299
  }

  function DigitChar(d: int): (c: char)
    requires 0 <= d <= 9
    ensures IsAsciiDigit(c) && c as int - '0' as int == d
  {
    ('0' as int + d) as char
  }

  /** The decimal number a string of ASCII digits spells. */
  function DecimalValue(t: string): nat
    requires AllAsciiDigits(t)
  {
    if t == [] then 0
    else DecimalValue(t[..|t| - 1]) * 10 + (t[|t| - 1] as int - '0' as int)
  }

  /** `StatusCode::as_str` (equally `as_u16` formatted with `{}`): the three decimal digits of the code. */
  function StatusText(s: StatusCode): (t: string)
    ensures |t| == 3 && AllAsciiDigits(t)
    ensures DecimalValue(t) == s
  {
    var h, rest := s / 100, s % 100;
    var d, u := rest / 10, rest % 10;
    assert s == h * 100 + rest && rest == d * 10 + u;
    ThreeDigitValue(DigitChar(h), DigitChar(d), DigitChar(u));
    [DigitChar(h), DigitChar(d), DigitChar(u)]
  }

  /** The value of a three-digit string, digit by digit. */
  lemma ThreeDigitValue(a: char, b: char, c: char)
    requires IsAsciiDigit(a) && IsAsciiDigit(b) && IsAsciiDigit(c)
    ensures DecimalValue([a, b, c]) ==
            ((a as int - '0' as int) * 10 + (b as int - '0' as int)) * 10 + (c as int - '0' as int)
  {
    assert [a, b, c][..2] == [a, b] && [a, b][..1] == [a] && [a][..0] == [];
    assert DecimalValue([a]) == a as int - '0' as int;
    assert DecimalValue([a, b]) == DecimalValue([a]) * 10 + (b as int - '0' as int);
    assert DecimalValue([a, b, c]) == DecimalValue([a, b]) * 10 + (c as int - '0' as int);
  }

  /** Distinct status codes have distinct texts. */
  lemma StatusTextInjective(s: StatusCode, u: StatusCode)
    requires StatusText(s) == StatusText(u)
    ensures s == u
  {
  }

  /** A response as the classifier sees it: its status and its raw body. */
  datatype RawResponse = RawResponse(status: StatusCode, body: string)

  /** The JSON codec, reduced to what it does with a body: decode it as the expected success
      type `T` (or return the decoder's error text), and decode it as an `ErrorResponse` (or not). */
  datatype Decoder<T> = Decoder(asSuccess: string -> Result<T, string>,
                                asErrorResponse: string -> Option<ErrorResponse>)

  /** The error body made up when the server's body does not decode: the status as the code,
      "HTTP <n> error" as the message, and nothing else. */
  function FallbackErrorResponse(s: StatusCode): (r: ErrorResponse)
    ensures r.error == StatusText(s) && r.message == "HTTP " + StatusText(s) + " error"
    ensures r.details.None? && r.requestId.None? && r.timestamp.None?
  {
    ErrorResponse(StatusText(s), "HTTP " + StatusText(s) + " error", None, None, None)
  }

  /** The error body a non-success response is classified by: the decoded body when it decodes,
      the made-up one when it does not. */
  function ErrorBody<T>(decode: Decoder<T>, response: RawResponse): (e: ErrorResponse)
    ensures decode.asErrorResponse(response.body).Some? ==> e == decode.asErrorResponse(response.body).value
    ensures decode.asErrorResponse(response.body).None? ==> e == FallbackErrorResponse(response.status)
  {
    decode.asErrorResponse(response.body).GetOr(FallbackErrorResponse(response.status))
  }

  /** `DocarooClient::handle_response`. A success status yields the decoded body, or a `ParseError`.
      Otherwise 401 and 400 are decided by the status alone, and every other status by the
      (possibly made-up) error body's code, exactly as `FromErrorResponse` classifies it. */
  function HandleResponse<T>(decode: Decoder<T>, response: RawResponse): (r: Result<T, DocarooError>)
    ensures IsSuccess(response.status) ==>
              match decode.asSuccess(response.body)
              case Ok(v) => r == Ok(v)
              case Err(detail) => r == Err(ParseError(detail))
    ensures !IsSuccess(response.status) ==> r.Err?
    ensures response.status == 401 ==> r == Err(AuthenticationFailed(ErrorBody(decode, response).message))
    ensures response.status == 400 ==> r == Err(InvalidRequest(ErrorBody(decode, response).message))
    ensures !IsSuccess(response.status) && response.status != 401 && response.status != 400 ==>
              r == Err(FromErrorResponse(ErrorBody(decode, response)))
  {
    var status := response.status;
    if IsSuccess(status) then
      match decode.asSuccess(response.body)
      case Ok(v) => Ok(v)
      case Err(detail) => Err(ParseError(detail))
    else
      var errorResponse := ErrorBody(decode, response);
      if status == 401 then Err(AuthenticationFailed(errorResponse.message))
      else if status == 400 then Err(InvalidRequest(errorResponse.message))
      else if status == 429 then Err(FromErrorResponse(errorResponse))
      else Err(FromErrorResponse(errorResponse))
  }

  /** The classifier never reports a transport or URL failure, and a success status can only fail to parse. */
  lemma HandleResponseKinds<T>(decode: Decoder<T>, response: RawResponse)
    ensures var r := HandleResponse(decode, response);
            r.Err? ==> !r.error.RequestFailed? && !r.error.UrlError?
    ensures var r := HandleResponse(decode, response);
            IsSuccess(response.status) && r.Err? ==> r.error.ParseError?
    ensures var r := HandleResponse(decode, response);
            !IsSuccess(response.status) ==> !r.error.ParseError?
  {
  }

  /** So the only retryable outcome of the classifier is a rate limit, which needs a status other than 2xx, 400 and 401. */
  lemma HandleResponseRetryable<T>(decode: Decoder<T>, response: RawResponse)
    ensures var r := HandleResponse(decode, response);
            r.Err? && IsRetryable(r.error) ==>
              r.error.RateLimitExceeded? && !IsSuccess(response.status)
              && response.status != 400 && response.status != 401
  {
  }

  /** A 401 is an authentication failure and a 400 an invalid request, whatever the body's code says. */
  lemma StatusShortCircuits<T>(decode: Decoder<T>, body: string, e: ErrorResponse)
    requires decode.asErrorResponse(body) == Some(e)
    ensures HandleResponse(decode, RawResponse(401, body)) == Err(AuthenticationFailed(e.message))
    ensures HandleResponse(decode, RawResponse(400, body)) == Err(InvalidRequest(e.message))
  {
  }

  /** A 429 is classified by its body like any other status: the 429 arm is the default arm. */
  lemma TooManyRequestsIsDefault<T>(decode: Decoder<T>, body: string, other: StatusCode)
    requires !IsSuccess(other) && other != 400 && other != 401
    requires decode.asErrorResponse(body).Some?
    ensures HandleResponse(decode, RawResponse(429, body)) == HandleResponse(decode, RawResponse(other, body))
  {
  }

  /** An undecodable error body on any status but 2xx, 400 and 401 becomes an `ApiError` whose
      code is the status digits (those digits can never be "rate_limit_exceeded" or "unauthorized"). */
  lemma UndecodableErrorBody<T>(decode: Decoder<T>, response: RawResponse)
    requires !IsSuccess(response.status) && response.status != 400 && response.status != 401
    requires decode.asErrorResponse(response.body).None?
    ensures HandleResponse(decode, response) ==
            Err(ApiError(StatusText(response.status), "HTTP " + StatusText(response.status) + " error", None))
  {
    assert |StatusText(response.status)| == 3;
  }

  /** The concrete cases: an undecodable 500 and an undecodable 429 are both `ApiError`s. */
  lemma UndecodableExamples<T>(decode: Decoder<T>, body: string)
    requires decode.asErrorResponse(body).None?
    ensures HandleResponse(decode, RawResponse(500, body)) == Err(ApiError("500", "HTTP 500 error", None))
    ensures HandleResponse(decode, RawResponse(429, body)) == Err(ApiError("429", "HTTP 429 error", None))
  {
    assert StatusText(500) == "500" && StatusText(429) == "429";
    assert "HTTP " + "500" + " error" == "HTTP 500 error";
    assert "HTTP " + "429" + " error" == "HTTP 429 error";
    UndecodableErrorBody(decode, RawResponse(500, body));
    UndecodableErrorBody(decode, RawResponse(429, body));
  }

  /** `DocarooConfig`: the API key and the base URL. */
  datatype DocarooConfig = DocarooConfig(apiKey: string, baseUrl: string)

  /** `DocarooConfig::builder()`: the key is required; the base URL defaults to `API_BASE_URL`. */
  function BuildConfig(apiKey: string, baseUrl: Option<string>): (c: DocarooConfig)
    ensures c.apiKey == apiKey
    ensures baseUrl.Some? ==> c.baseUrl == baseUrl.value
    ensures baseUrl.None? ==> c.baseUrl == API_BASE_URL
  {
    DocarooConfig(apiKey, baseUrl.GetOr(API_BASE_URL))
  }

  /** How an HTTP exchange ended at the transport: a response, or a failure to get one. */
  datatype Delivery = Delivered(response: RawResponse) | SendFailed(detail: string)

  /** A POST of a JSON body to a URL. */
  datatype Post = Post(url: string, body: Json.Value)

  /**
   * The URL library (`url::Url::parse`, `join` and the `api_key` query pair): from a base URL,
   * an endpoint path and an API key it gives the request URL or the parser's error text.
   */
  type UrlJoin = (string, string, string) -> Result<string, string>

  /**
   * The network and the server: `respond` gives the outcome of a POST. `sent` records every
   * POST made.
   */
  class Transport {
    const respond: Post -> Delivery
    var sent: seq<Post>

    constructor (respond: Post -> Delivery)
      ensures this.respond == respond && sent == []
    {
      this.respond := respond;
      sent := [];
    }

    /** Send one POST; it is recorded, and the outcome is the network's. */
    method Send(post: Post) returns (d: Delivery)
      modifies this
      ensures sent == old(sent) + [post]
      ensures d == respond(post)
    {
      sent := sent + [post];
      d := respond(post);
    }
  }

  /** `DocarooClient`: an immutable configuration read back by its accessors. */
  class DocarooClient {
    const config: DocarooConfig

    /** `DocarooClient::new`: the given key and the production base URL. */
    constructor New(apiKey: string)
      ensures ApiKey() == apiKey && BaseUrl() == API_BASE_URL
    {
      config := BuildConfig(apiKey, None);
    }

    /** `DocarooClient::with_config`: the configuration is kept as given. */
    constructor WithConfig(config: DocarooConfig)
      ensures ApiKey() == config.apiKey && BaseUrl() == config.baseUrl
    {
      this.config := config;
    }

    function ApiKey(): string {
      config.apiKey
    }

    function BaseUrl(): string {
      config.baseUrl
    }

    /** `build_url`: the URL library's answer for this client's base URL and key; its failure is a `UrlError`. */
    function BuildUrl(join: UrlJoin, endpoint: string): (r: Result<string, DocarooError>)
      ensures r.Ok? <==> join(BaseUrl(), endpoint, ApiKey()).Ok?
      ensures r.Ok? ==> r.value == join(BaseUrl(), endpoint, ApiKey()).value
      ensures r.Err? ==> r == Err(UrlError(join(BaseUrl(), endpoint, ApiKey()).error))
    {
      match join(BaseUrl(), endpoint, ApiKey())
      case Ok(url) => Ok(url)
      case Err(detail) => Err(UrlError(detail))
    }
  }

  /** What one validated exchange returns, and the POST it put on the wire, if any. */
  datatype Exchange<T> = Exchange(result: Result<T, DocarooError>, posted: seq<Post>)

  /** Build the URL, send the body, classify the response; the tail every operation shares. */
  function ExchangeOf<T>(client: DocarooClient, join: UrlJoin, t: Transport, decode: Decoder<T>,
                         endpoint: string, body: Json.Value): (x: Exchange<T>)
    ensures |x.posted| <= 1
    ensures x.posted == [] <==> client.BuildUrl(join, endpoint).Err?
    ensures x.posted == [] ==> x.result == Err(client.BuildUrl(join, endpoint).error)
    ensures x.posted != [] ==> x.posted[0] == Post(client.BuildUrl(join, endpoint).value, body)
    ensures x.posted != [] && t.respond(x.posted[0]).SendFailed? ==>
              x.result == Err(RequestFailed(t.respond(x.posted[0]).detail))
    ensures x.posted != [] && t.respond(x.posted[0]).Delivered? ==>
              x.result == HandleResponse(decode, t.respond(x.posted[0]).response)
    ensures x.result.Ok? ==> x.posted != [] && t.respond(x.posted[0]).Delivered?
                             && IsSuccess(t.respond(x.posted[0]).response.status)
  {
    match client.BuildUrl(join, endpoint)
    case Err(e) => Exchange(Err(e), [])
    case Ok(url) =>
      var post := Post(url, body);
      match t.respond(post)
      case SendFailed(detail) => Exchange(Err(RequestFailed(detail)), [post])
      case Delivered(response) => Exchange(HandleResponse(decode, response), [post])
  }
}
