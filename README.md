# docaroo-rs decision core, modelled in Dafny

This project models the part of the Docaroo API client (care-navigation pricing and procedure
likelihood) that makes decisions:

- the two request validators, with their fail-fast check order and fixed messages;
- the `DocarooError` taxonomy, `from_error_response` (including the `retryAfter` default of 60),
  `is_retryable` and `request_id`;
- the response classifier `handle_response`, with its 2xx/401/400/other status precedence and the
  error body it makes up when the server's body does not decode;
- the `CodeType` wire table, the request records and which of their fields reach the JSON body;
- the client configuration defaults, and the validate, build URL, send, classify shape of
  `get_in_network_rates`, `get_likelihood` and `check_providers`.

The network, the `url` crate and serde are collaborators:

- The server body is abstract. `Client.Decoder<T>` says what the JSON codec makes of a body: the
  expected success value or the decoder's error text, and an `ErrorResponse` or nothing.
- `Client.UrlJoin` stands for the URL library: `build_url`'s parse, join and query append,
  from the client's base URL and key (the only state `build_url` reads) and the endpoint.
- `Client.Transport` stands for the reqwest client:
  - `respond` is the server's answer to a POST;
  - `sent` records every POST, so that "nothing was sent" can be stated.
- `details` is a JSON value (`Json.Value`) that keeps serde_json's three number kinds, because
  `as_u64` is defined by them.
- `str::trim` uses the Unicode White_Space set that Rust's `char::is_whitespace` uses.

Modules follow the source files. `Errors` is src/error.rs. `Client` is src/client.rs plus the
`API_BASE_URL` constant of src/lib.rs. `Models` is src/models.rs. `Pricing` and `Procedures` are
src/pricing.rs and src/procedures.rs. `Npis` holds the per-NPI check and messages that both
validator files spell out identically. `Json`, `Strings` and `Wrappers` are the vocabulary.

On two points a looser reading of the API is possible; the model follows the code:

- `retryAfter` is honoured only when it is a non-negative integer (`as_u64`). A negative, fractional
  or string value falls back to 60.
- The made-up error body uses the status's decimal digits (`StatusCode::as_str`) as the error code.

## Model

| member | source | states |
|---|---|---|
| `Errors.FromErrorResponse` | src/error.rs:53-71 | the result is always a server-reported kind (`ApiError`, `RateLimitExceeded`, `AuthenticationFailed`), so never `RequestFailed`, `InvalidRequest`, `ParseError` or `UrlError`; `RateLimitExceeded` exactly for code "rate_limit_exceeded", carrying `RetryAfter(details)`; `AuthenticationFailed` exactly for "unauthorized", carrying the message unchanged; otherwise `ApiError` with code, message and request id copied unchanged |
| `Errors.RetryAfter` | src/error.rs:55-61 | the wait is `details.retryAfter` when `details` is an object whose `retryAfter` is a non-negative integer; 60 when `details` is absent, is not an object, lacks `retryAfter`, or holds a value that is not a non-negative integer |
| `Errors.IsRetryable` | src/error.rs:74-79 | a definition without a contract: `RequestFailed` or `RateLimitExceeded`; `RetryableKinds` gives its value on each variant |
| `Errors.RequestId` | src/error.rs:82-87 | an `ApiError` gives its own request id, and no other kind gives one |
| `Errors.RetryableKinds` | src/error.rs:74-79 | `RequestFailed` and `RateLimitExceeded` are retryable; `ApiError`, `InvalidRequest`, `AuthenticationFailed`, `ParseError` and `UrlError` are not |
| `Errors.FromErrorResponseRetryable` | src/error.rs:53-79 | a classified server error is retryable if and only if its code is "rate_limit_exceeded" |
| `Errors.FromErrorResponseRequestId` | src/error.rs:53-87 | the request id of a classified error is the body's id for a plain code, and none for the rate-limit and unauthorized codes |
| `Errors.FromErrorResponseExamples` | src/error.rs:96-137 | the unit tests: "bad_request" is copied into an `ApiError` with its request id; `retryAfter: 120` gives a 120-second rate limit |
| `Json.Get` | src/error.rs:59 | `Value::get`: present exactly for an object that has the key, and then it is that member |
| `Json.AsU64` | src/error.rs:60 | `Value::as_u64`: succeeds exactly on a number stored as a non-negative integer, giving that integer |
| `Client.IsSuccess` | src/client.rs:95 | a definition without a contract: `StatusCode::is_success`, a status from 200 to 299 |
| `Client.ErrorBody` | src/client.rs:102-111 | the error body is the server's body when it decodes as an `ErrorResponse`, and `FallbackErrorResponse(status)` when it does not |
| `Client.HandleResponse` | src/client.rs:89-127 | on 2xx the result is the decoded body, or `ParseError` with the decoder's text; any other status is an error; 401 gives `AuthenticationFailed` and 400 gives `InvalidRequest`, both with the error body's message; every other status gives `FromErrorResponse` of the error body, which is the server's body if it decodes and otherwise the made-up one |
| `Client.FallbackErrorResponse` | src/client.rs:102-111 | the made-up body has the status digits as code, "HTTP <n> error" as message, and no details, request id or timestamp |
| `Client.StatusText` | src/client.rs:106-107 | the status renders as three ASCII digits whose decimal value is the status |
| `Client.StatusTextInjective` | src/client.rs:106 | distinct statuses have distinct texts |
| `Client.HandleResponseKinds` | src/client.rs:89-127 | the classifier never yields `RequestFailed` or `UrlError`; on 2xx its only error is `ParseError`; otherwise it never yields `ParseError` |
| `Client.HandleResponseRetryable` | src/client.rs:89-127 | the classifier's only retryable outcome is `RateLimitExceeded`, on a status other than 2xx, 400 and 401 |
| `Client.StatusShortCircuits` | src/client.rs:115-120 | a 401 is `AuthenticationFailed(message)` and a 400 is `InvalidRequest(message)`, whatever the body's error code says |
| `Client.TooManyRequestsIsDefault` | src/client.rs:121-124 | when the body decodes, a 429 is classified exactly as any other non-2xx status other than 400 and 401 |
| `Client.UndecodableErrorBody` | src/client.rs:102-124 | an undecodable body on a status other than 2xx, 400 and 401 is an `ApiError` whose code is the status digits, with message "HTTP <n> error" and no request id; it is never a rate limit |
| `Client.UndecodableExamples` | src/client.rs:102-124 | an undecodable 500 is `ApiError("500", "HTTP 500 error", None)`; an undecodable 429 is `ApiError("429", …)`, not `RateLimitExceeded` |
| `Client.BuildConfig` | src/client.rs:15-27 | the config builder keeps the key and a given base URL, and defaults the base URL to `API_BASE_URL` (src/lib.rs:51) |
| `Client.DocarooClient.New` | src/client.rs:38-44 | `ApiKey()` is the given key and `BaseUrl()` is `API_BASE_URL` |
| `Client.DocarooClient.WithConfig` | src/client.rs:47-69 | `ApiKey()` and `BaseUrl()` read back the configured key and base URL |
| `Client.DocarooClient.ApiKey` | src/client.rs:61-64 | a definition without a contract: the configured key; the constructors' contracts say what it returns |
| `Client.DocarooClient.BaseUrl` | src/client.rs:66-69 | a definition without a contract: the configured base URL; the constructors' contracts say what it returns |
| `Client.DocarooClient.BuildUrl` | src/client.rs:77-86 | succeeds exactly when the URL library accepts this client's base URL, the endpoint and the key, giving its URL; a library failure becomes `UrlError` carrying the library's text |
| `Client.Transport.Send` | src/pricing.rs:77-83 | one POST is appended to the record of sent requests, and the outcome is the network's |
| `Client.ExchangeOf` | src/pricing.rs:73-86 | at most one POST is made. When the URL does not build, nothing is sent and the result is that `UrlError`. Otherwise the request body is posted to the built URL; a failed send gives `RequestFailed` with the transport's text, and a delivered response gives `HandleResponse` of it. Success needs a delivered 2xx response |
| `Npis.IsValidNpi` | src/pricing.rs:108 | a definition without a contract: exactly ten characters, all ASCII digits (src/procedures.rs:99 is the same test) |
| `Npis.FirstInvalidNpi` | src/pricing.rs:107-114 | no result exactly when every NPI is ten ASCII digits; otherwise the position of a malformed NPI before which all are well formed |
| `Npis.FirstInvalidNpiIsFirst` | src/pricing.rs:107-114 | a malformed NPI preceded only by well-formed ones is the one found |
| `Npis.InvalidNpiMessage` | src/pricing.rs:109-112 | the message is "Invalid NPI format: '<npi>'. NPIs must be 10-digit numbers" |
| `Npis.InvalidNpiMessageInjective` | src/pricing.rs:109-112 | the message determines the NPI it names |
| `Pricing.PricingVerdict` | src/pricing.rs:90-124 | every rejection is an `InvalidRequest` |
| `Pricing.ValidatePricingRequest` | src/pricing.rs:90-124 | the guards and the NPI scan answer exactly `PricingVerdict` |
| `Pricing.PricingVerdictOkIff` | src/pricing.rs:90-124 | a pricing request passes if and only if it has 1 to 10 NPIs, all ten ASCII digits, and a condition code that does not trim to empty |
| `Pricing.PricingNoNpis` | src/pricing.rs:94-98 | an empty NPI list gives "At least one NPI must be provided", whatever else the request holds |
| `Pricing.PricingTooManyNpis` | src/pricing.rs:100-104 | more than 10 NPIs give "Maximum 10 NPIs allowed per request", whatever the NPIs and the condition code are |
| `Pricing.PricingFirstOffender` | src/pricing.rs:107-114 | within the limit, the first malformed NPI in list order is named in the message |
| `Pricing.PricingBlankConditionCode` | src/pricing.rs:117-121 | "Condition code cannot be empty" is the answer if and only if all NPI checks pass and the code is blank |
| `Pricing.PricingVerdictIgnoresOptionalFields` | src/pricing.rs:90-124 | `plan_id` and `code_type` never change the answer |
| `Pricing.PricingCall` | src/pricing.rs:69-87 | a definition without a contract: the validation verdict first, then `ExchangeOf` at the pricing endpoint with the request's JSON body; the two lemmas below state its outcomes |
| `Pricing.PricingCallShortCircuits` | src/pricing.rs:69-74 | a request that fails validation returns that error and sends nothing |
| `Pricing.PricingCallOk` | src/pricing.rs:69-87 | a successful lookup means the request was valid, its JSON body was posted once to the pricing endpoint, and the reply had a 2xx status |
| `Pricing.PricingClient.constructor` | src/pricing.rs:16-19 | the pricing client holds the given client |
| `Pricing.PricingClient.GetInNetworkRates` | src/pricing.rs:69-87 | the result and the POSTs sent are those of `PricingCall` |
| `Procedures.LikelihoodVerdict` | src/procedures.rs:87-122 | every rejection is an `InvalidRequest` |
| `Procedures.ValidateLikelihoodRequest` | src/procedures.rs:87-122 | the guards and the NPI scan answer exactly `LikelihoodVerdict` |
| `Procedures.LikelihoodVerdictOkIff` | src/procedures.rs:87-122 | a likelihood request passes if and only if it has at least one NPI, all ten ASCII digits, and neither the condition code nor the code type trims to empty |
| `Procedures.LikelihoodNoUpperBound` | src/procedures.rs:91-105 | more than 10 well-formed NPIs still pass |
| `Procedures.LikelihoodCheckOrder` | src/procedures.rs:91-119 | the first failing check wins, in the order: empty list, first malformed NPI, blank condition code, blank code type |
| `Procedures.LikelihoodExamples` | src/procedures.rs:169-235 | the unit tests: "ABC1234567" is an invalid NPI; an empty code type gives "Code type cannot be empty"; a well-formed request passes |
| `Procedures.SameNpiRuleAsPricing` | src/procedures.rs:91-112 | on at most 10 NPIs with a non-blank code type, the likelihood validator gives the same answer as the pricing one (src/pricing.rs:94-121) |
| `Procedures.LikelihoodCall` | src/procedures.rs:66-84 | a definition without a contract: the validation verdict first, then `ExchangeOf` at the likelihood endpoint with the request's JSON body; the two lemmas below state its outcomes |
| `Procedures.LikelihoodCallShortCircuits` | src/procedures.rs:66-71 | a request that fails validation returns that error and sends nothing |
| `Procedures.LikelihoodCallOk` | src/procedures.rs:66-84 | a successful lookup means the request was valid, its JSON body was posted once to the likelihood endpoint, and the reply had a 2xx status |
| `Procedures.ProceduresClient.constructor` | src/procedures.rs:16-19 | the procedures client holds the given client |
| `Procedures.ProceduresClient.GetLikelihood` | src/procedures.rs:66-84 | the result and the POSTs sent are those of `LikelihoodCall` |
| `Procedures.ProceduresClient.CheckProviders` | src/procedures.rs:149-162 | the request holds the given NPIs in order, the condition code and the code type; the result and POSTs are those of `get_likelihood` on it |
| `Models.Token` | src/models.rs:11-63 | a definition without a contract: the serde rename of each code type; `ParseTokenRoundTrip` and `TokenInjective` prove it reads back and is unique |
| `Models.ParseTokenRoundTrip` | src/models.rs:11-63 | every one of the 17 code types reads back from its token (CPT, NDC, HCPCS, RC, ICD, MS-DRG, R-DRG, S-DRG, APS-DRG, AP-DRG, APR-DRG, APC, LOCAL, EAPG, HIPPS, CDT, CSTM-ALL) |
| `Models.ParseToken` | src/models.rs:9-63 | only a code type's own token reads back as that code type |
| `Models.ParseTokenClosed` | src/models.rs:9-63 | a string outside the 17 tokens is refused |
| `Models.TokenInjective` | src/models.rs:11-63 | no two code types share a token |
| `Models.DefaultCodeType` | src/models.rs:65-69 | the default code type is the one whose token is "CPT" |
| `Models.BuildPricingRequest` | src/models.rs:72-92 | the builder stores every given field unchanged; an unset optional field is `None` |
| `Models.UnsetCodeTypeIsNotDefault` | src/models.rs:85-91 | leaving `code_type` unset gives `None`, not `Some(CodeType::default())` |
| `Models.BuildLikelihoodRequest` | src/models.rs:95-109 | the builder stores the NPIs, condition code and free-string code type unchanged |
| `Models.PricingRequestJson` | src/models.rs:72-92 | the body always has `npis` and `conditionCode`; it has `planId` and `codeType` exactly when they are `Some`; the values are the request's, with the code type as its token |
| `Models.PricingRequestJsonInjective` | src/models.rs:72-92 | two pricing requests with the same body are the same request |
| `Models.LikelihoodRequestJson` | src/models.rs:95-109 | the body has exactly `npis`, `conditionCode` and `codeType`, holding the request's values |
| `Models.LikelihoodRequestJsonInjective` | src/models.rs:95-109 | two likelihood requests with the same body are the same request |
| `Json.StringArray` | src/models.rs:78 | a string list becomes an array of the same length holding the strings in order |
| `Json.StringArrayInjective` | src/models.rs:78 | two string lists with equal arrays are equal |
| `Strings.TrimStart` | src/pricing.rs:117 | the result is a suffix of the input; only whitespace was dropped; it does not start with whitespace |
| `Strings.TrimEnd` | src/pricing.rs:117 | the result is a prefix of the input; only whitespace was dropped; it does not end with whitespace |
| `Strings.Trim` | src/pricing.rs:117 | the result is a slice of the input, and everything before and after that slice is whitespace; the result neither starts nor ends with whitespace |
| `Strings.IsBlank` | src/pricing.rs:117 | a definition without a contract: `trim().is_empty()`; `BlankIffAllWhitespace` says when it holds |
| `Strings.TrimStartAllWhitespace` | src/pricing.rs:117 | an all-whitespace string trims to nothing |
| `Strings.BlankIffAllWhitespace` | src/pricing.rs:117 | `trim().is_empty()` holds exactly when every character is whitespace |

## Left out

- The HTTP send itself (src/pricing.rs:77-83, src/procedures.rs:74-80) is I/O. `Transport.respond` gives the network's answer as a function of the POST.
- The reqwest client built with a 30-second timeout and its `expect` (src/client.rs:48-53), and `DocarooConfig.http_client`: transport setup, which `Transport` stands for.
- `build_url`'s URL semantics (src/client.rs:77-86): `url` crate parsing, joining and query encoding are not modelled. `UrlJoin` gives the result, and `UrlError` carries the parser's text.
- Serde decoding of success bodies and of `ErrorResponse`, and `chrono` timestamps: `Decoder` gives the result of decoding, and timestamps are kept as text.
- The float fields and the response records: `PricingResponse`, `LikelihoodResponse`, `RateData`, `LikelihoodData` and the two metadata records (src/models.rs:111-191). The success type is the type parameter `T`.
- The thiserror display prefixes (src/error.rs:13-48). The model keeps only the payload messages.
- The `Arc` sharing of the configuration (src/client.rs:31-34), and `pricing()`/`procedures()` (src/client.rs:130-137). The latter only wrap a clone of the client, which is what the `PricingClient` and `ProceduresClient` constructors take.
- JSON object key order: the body's fields are a map. serde emits them in declaration order, which carries no meaning.
- `RequestFailed` keeps only the text of the reqwest error.
- The examples directory (caller-side demos and a retry loop), which is not library behaviour.
