/** In-network rate lookups (src/pricing.rs): request validation and the validate-then-send operation. */
module Pricing {
  import opened Wrappers
  import opened Strings
  import opened Models
  import opened Errors
  import opened Npis
  import opened Client

  const MAX_NPIS_PER_REQUEST: nat := 10
  const TOO_MANY_NPIS_MESSAGE: string := "Maximum 10 NPIs allowed per request"
  const PRICING_ENDPOINT: string := "/pricing/in-network"

  /** What `validate_pricing_request` answers, check by check in the source's order:
      no NPIs, more than ten, the first malformed NPI, a blank condition code. */
  function PricingVerdict(request: PricingRequest): (r: Result<(), DocarooError>)
    ensures r.Err? ==> r.error.InvalidRequest?
  {
    if |request.npis| == 0 then Err(InvalidRequest(NO_NPIS_MESSAGE))
    else if |request.npis| > MAX_NPIS_PER_REQUEST then Err(InvalidRequest(TOO_MANY_NPIS_MESSAGE))
    else match FirstInvalidNpi(request.npis)
      case Some(k) => Err(InvalidRequest(InvalidNpiMessage(request.npis[k])))
      case None =>
        if IsBlank(request.conditionCode) then Err(InvalidRequest(EMPTY_CONDITION_CODE_MESSAGE))
        else Ok(())
  }

  /** `PricingClient::validate_pricing_request`: fail-fast guards and a scan for the first bad NPI. */
  method ValidatePricingRequest(request: PricingRequest) returns (r: Result<(), DocarooError>)
    ensures r == PricingVerdict(request)
  {
    if |request.npis| == 0 {
      return Err(InvalidRequest(NO_NPIS_MESSAGE));
    }
    if |request.npis| > MAX_NPIS_PER_REQUEST {
      return Err(InvalidRequest(TOO_MANY_NPIS_MESSAGE));
    }
    for i := 0 to |request.npis|
      invariant forall j | 0 <= j < i :: IsValidNpi(request.npis[j])
    {
      var npi := request.npis[i];
      if |npi| != 10 || !AllAsciiDigits(npi) {
        return Err(InvalidRequest(InvalidNpiMessage(npi)));
      }
    }
    if IsBlank(request.conditionCode) {
      return Err(InvalidRequest(EMPTY_CONDITION_CODE_MESSAGE));
    }
    return Ok(());
  }

  /** A pricing request passes exactly when it has one to ten NPIs, all well formed, and a condition code that is not blank. */
  lemma PricingVerdictOkIff(request: PricingRequest)
    ensures PricingVerdict(request).Ok? <==>
            && 1 <= |request.npis| <= MAX_NPIS_PER_REQUEST
            && (forall j | 0 <= j < |request.npis| :: IsValidNpi(request.npis[j]))
            && Trim(request.conditionCode) != []
  {
  }

  /** An empty NPI list is reported first, whatever the rest of the request holds. */
  lemma PricingNoNpis(conditionCode: string, planId: Option<string>, codeType: Option<CodeType>)
    ensures PricingVerdict(PricingRequest([], conditionCode, planId, codeType))
            == Err(InvalidRequest(NO_NPIS_MESSAGE))
  {
  }

  /** More than ten NPIs are refused before any NPI is looked at or the condition code is checked. */
  lemma PricingTooManyNpis(request: PricingRequest)
    requires |request.npis| > MAX_NPIS_PER_REQUEST
    ensures PricingVerdict(request) == Err(InvalidRequest(TOO_MANY_NPIS_MESSAGE))
  {
  }

  /** Within the size limit, the first malformed NPI in list order is the one reported. */
  lemma PricingFirstOffender(request: PricingRequest, k: nat)
    requires |request.npis| <= MAX_NPIS_PER_REQUEST
    requires k < |request.npis| && !IsValidNpi(request.npis[k])
    requires forall j | 0 <= j < k :: IsValidNpi(request.npis[j])
    ensures PricingVerdict(request) == Err(InvalidRequest(InvalidNpiMessage(request.npis[k])))
  {
    FirstInvalidNpiIsFirst(request.npis, k);
  }

  /** A blank condition code is reported only when every NPI check passed, and then it is. */
  lemma PricingBlankConditionCode(request: PricingRequest)
    ensures PricingVerdict(request) == Err(InvalidRequest(EMPTY_CONDITION_CODE_MESSAGE)) <==>
            && 1 <= |request.npis| <= MAX_NPIS_PER_REQUEST
            && (forall j | 0 <= j < |request.npis| :: IsValidNpi(request.npis[j]))
            && IsBlank(request.conditionCode)
  {
    if FirstInvalidNpi(request.npis).Some? && 1 <= |request.npis| <= MAX_NPIS_PER_REQUEST {
      var k := FirstInvalidNpi(request.npis).value;
      var m := InvalidNpiMessage(request.npis[k]);
      assert m[0] == 'I' && EMPTY_CONDITION_CODE_MESSAGE[0] == 'C';
    }
  }

  /** The plan id and the code type play no part in validation. */
  lemma PricingVerdictIgnoresOptionalFields(request: PricingRequest, planId: Option<string>, codeType: Option<CodeType>)
    ensures PricingVerdict(request.(planId := planId, codeType := codeType)) == PricingVerdict(request)
  {
  }

  /** What `get_in_network_rates` returns and sends: the validation failure and nothing on the wire,
      or the shared build-send-classify exchange with the request's JSON body. */
  function PricingCall<T>(client: DocarooClient, join: UrlJoin, t: Transport, decode: Decoder<T>, request: PricingRequest): Exchange<T> {
    match PricingVerdict(request)
    case Err(e) => Exchange(Err(e), [])
    case Ok(_) => ExchangeOf(client, join, t, decode, PRICING_ENDPOINT, PricingRequestJson(request))
  }

  /** A request that fails validation gets that error back and nothing is sent. */
  lemma PricingCallShortCircuits<T>(client: DocarooClient, join: UrlJoin, t: Transport, decode: Decoder<T>, request: PricingRequest)
    ensures PricingVerdict(request).Err? ==>
            PricingCall(client, join, t, decode, request) == Exchange(Err(PricingVerdict(request).error), [])
  {
  }

  /** A rate lookup succeeds only for a valid request whose JSON body was posted to the pricing
      endpoint and answered with a success status. */
  lemma PricingCallOk<T>(client: DocarooClient, join: UrlJoin, t: Transport, decode: Decoder<T>, request: PricingRequest)
    ensures var x := PricingCall(client, join, t, decode, request);
            x.result.Ok? ==>
            && PricingVerdict(request).Ok?
            && x.posted == [Post(client.BuildUrl(join, PRICING_ENDPOINT).value, PricingRequestJson(request))]
            && t.respond(x.posted[0]).Delivered?
            && IsSuccess(t.respond(x.posted[0]).response.status)
  {
  }

  /** `PricingClient`: a handle on the configured client for the pricing endpoint. */
  class PricingClient {
    const client: DocarooClient

    constructor (client: DocarooClient)
      ensures this.client == client
    {
      this.client := client;
    }

    /** `get_in_network_rates`: validate, build the URL, post the request, classify the response. */
    method GetInNetworkRates<T>(join: UrlJoin, t: Transport, decode: Decoder<T>, request: PricingRequest)
      returns (r: Result<T, DocarooError>)
      modifies t
      ensures r == PricingCall(client, join, t, decode, request).result
      ensures t.sent == old(t.sent) + PricingCall(client, join, t, decode, request).posted
    {
      var valid := ValidatePricingRequest(request);
      if valid.Err? {
        return Err(valid.error);
      }
      var url := client.BuildUrl(join, PRICING_ENDPOINT);
      if url.Err? {
        return Err(url.error);
      }
      var delivery := t.Send(Post(url.value, PricingRequestJson(request)));
      match delivery
      case SendFailed(detail) => r := Err(RequestFailed(detail));
      case Delivered(response) => r := HandleResponse(decode, response);
    }
  }
}
