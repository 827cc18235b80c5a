/** Procedure likelihood lookups (src/procedures.rs): request validation, the validate-then-send
    operation and the `check_providers` convenience. */
module Procedures {
  import opened Wrappers
  import opened Strings
  import opened Models
  import opened Errors
  import opened Npis
  import opened Client
  import Pricing

  const EMPTY_CODE_TYPE_MESSAGE: string := "Code type cannot be empty"
  const LIKELIHOOD_ENDPOINT: string := "/procedures/likelihood"

  /** What `validate_likelihood_request` answers, check by check in the source's order:
      no NPIs, the first malformed NPI, a blank condition code, a blank code type.
      Unlike pricing there is no upper bound on the number of NPIs. */
  function LikelihoodVerdict(request: LikelihoodRequest): (r: Result<(), DocarooError>)
    ensures r.Err? ==> r.error.InvalidRequest?
  {
    if |request.npis| == 0 then Err(InvalidRequest(NO_NPIS_MESSAGE))
    else match FirstInvalidNpi(request.npis)
      case Some(k) => Err(InvalidRequest(InvalidNpiMessage(request.npis[k])))
      case None =>
        if IsBlank(request.conditionCode) then Err(InvalidRequest(EMPTY_CONDITION_CODE_MESSAGE))
        else if IsBlank(request.codeType) then Err(InvalidRequest(EMPTY_CODE_TYPE_MESSAGE))
        else Ok(())
  }

  /** `ProceduresClient::validate_likelihood_request`: fail-fast guards and a scan for the first bad NPI. */
  method ValidateLikelihoodRequest(request: LikelihoodRequest) returns (r: Result<(), DocarooError>)
    ensures r == LikelihoodVerdict(request)
  {
    if |request.npis| == 0 {
      return Err(InvalidRequest(NO_NPIS_MESSAGE));
    }
    for i := 0 to |request.npis|
      invariant forall j | 0 <= j < i :: IsValidNpi(request.npis[j])
    {
      var npi := request.npis[i];
      if |npi| != 10 || !AllAsciiDigits(npi) {
        return Err(InvalidRequest(InvalidNpiMessage(npi)));
      }
    }
    if IsBlank(request.conditionCode) {
      return Err(InvalidRequest(EMPTY_CONDITION_CODE_MESSAGE));
    }
    if IsBlank(request.codeType) {
      return Err(InvalidRequest(EMPTY_CODE_TYPE_MESSAGE));
    }
    return Ok(());
  }

  /** A likelihood request passes exactly when it has at least one NPI, all well formed, and
      neither its condition code nor its code type is blank. */
  lemma LikelihoodVerdictOkIff(request: LikelihoodRequest)
    ensures LikelihoodVerdict(request).Ok? <==>
            && 1 <= |request.npis|
            && (forall j | 0 <= j < |request.npis| :: IsValidNpi(request.npis[j]))
            && Trim(request.conditionCode) != []
            && Trim(request.codeType) != []
  {
  }

  /** No cap: any number of well-formed NPIs passes, eleven or more included. */
  lemma LikelihoodNoUpperBound(request: LikelihoodRequest)
    ensures && |request.npis| > Pricing.MAX_NPIS_PER_REQUEST
            && (forall j | 0 <= j < |request.npis| :: IsValidNpi(request.npis[j]))
            && !IsBlank(request.conditionCode) && !IsBlank(request.codeType)
            ==> LikelihoodVerdict(request) == Ok(())
  {
  }

  /** The checks run in order and the first failure wins: the NPI list, then each NPI, then the
      condition code, then the code type. */
  lemma LikelihoodCheckOrder(request: LikelihoodRequest)
    ensures |request.npis| == 0 ==> LikelihoodVerdict(request) == Err(InvalidRequest(NO_NPIS_MESSAGE))
    ensures FirstInvalidNpi(request.npis).Some? ==>
              LikelihoodVerdict(request) ==
              Err(InvalidRequest(InvalidNpiMessage(request.npis[FirstInvalidNpi(request.npis).value])))
    ensures |request.npis| > 0 && FirstInvalidNpi(request.npis).None? && IsBlank(request.conditionCode) ==>
              LikelihoodVerdict(request) == Err(InvalidRequest(EMPTY_CONDITION_CODE_MESSAGE))
    ensures |request.npis| > 0 && FirstInvalidNpi(request.npis).None? && !IsBlank(request.conditionCode)
            && IsBlank(request.codeType) ==>
              LikelihoodVerdict(request) == Err(InvalidRequest(EMPTY_CODE_TYPE_MESSAGE))
  {
  }

  /** The unit tests' cases: letters in an NPI and an empty code type. */
  lemma LikelihoodExamples()
    ensures LikelihoodVerdict(LikelihoodRequest(["ABC1234567"], "99214", "CPT"))
            == Err(InvalidRequest(InvalidNpiMessage("ABC1234567")))
    ensures LikelihoodVerdict(LikelihoodRequest(["1234567890"], "99214", ""))
            == Err(InvalidRequest(EMPTY_CODE_TYPE_MESSAGE))
    ensures LikelihoodVerdict(LikelihoodRequest(["1234567890"], "99214", "CPT")) == Ok(())
  {
    assert !IsAsciiDigit("ABC1234567"[0]);
    assert FirstInvalidNpi(["ABC1234567"]) == Some(0);
    assert IsValidNpi("1234567890");
    assert !IsWhitespace("99214"[0]) && !IsWhitespace("CPT"[0]);
  }

  /** The two validators apply the same NPI rule: on a list of at most ten NPIs, with a code type
      that is not blank, a likelihood request gets the same answer as the pricing request with the
      same NPIs and condition code. */
  lemma SameNpiRuleAsPricing(npis: seq<string>, conditionCode: string, codeType: string,
                             planId: Option<string>, pricingCodeType: Option<CodeType>)
    requires |npis| <= Pricing.MAX_NPIS_PER_REQUEST
    requires !IsBlank(codeType)
    ensures LikelihoodVerdict(LikelihoodRequest(npis, conditionCode, codeType))
            == Pricing.PricingVerdict(PricingRequest(npis, conditionCode, planId, pricingCodeType))
  {
  }

  /** What `get_likelihood` returns and sends: the validation failure and nothing on the wire,
      or the shared build-send-classify exchange with the request's JSON body. */
  function LikelihoodCall<T>(client: DocarooClient, join: UrlJoin, t: Transport, decode: Decoder<T>, request: LikelihoodRequest): Exchange<T> {
    match LikelihoodVerdict(request)
    case Err(e) => Exchange(Err(e), [])
    case Ok(_) => ExchangeOf(client, join, t, decode, LIKELIHOOD_ENDPOINT, LikelihoodRequestJson(request))
  }

  /** A request that fails validation gets that error back and nothing is sent. */
  lemma LikelihoodCallShortCircuits<T>(client: DocarooClient, join: UrlJoin, t: Transport, decode: Decoder<T>, request: LikelihoodRequest)
    ensures LikelihoodVerdict(request).Err? ==>
            LikelihoodCall(client, join, t, decode, request) == Exchange(Err(LikelihoodVerdict(request).error), [])
  {
  }

  /** A likelihood lookup succeeds only for a valid request whose JSON body was posted to the
      likelihood endpoint and answered with a success status. */
  lemma LikelihoodCallOk<T>(client: DocarooClient, join: UrlJoin, t: Transport, decode: Decoder<T>, request: LikelihoodRequest)
    ensures var x := LikelihoodCall(client, join, t, decode, request);
            x.result.Ok? ==>
            && LikelihoodVerdict(request).Ok?
            && x.posted == [Post(client.BuildUrl(join, LIKELIHOOD_ENDPOINT).value, LikelihoodRequestJson(request))]
            && t.respond(x.posted[0]).Delivered?
            && IsSuccess(t.respond(x.posted[0]).response.status)
  {
  }

  /** `ProceduresClient`: a handle on the configured client for the likelihood endpoint. */
  class ProceduresClient {
    const client: DocarooClient

    constructor (client: DocarooClient)
      ensures this.client == client
    {
      this.client := client;
    }

    /** `get_likelihood`: validate, build the URL, post the request, classify the response. */
    method GetLikelihood<T>(join: UrlJoin, t: Transport, decode: Decoder<T>, request: LikelihoodRequest)
      returns (r: Result<T, DocarooError>)
      modifies t
      ensures r == LikelihoodCall(client, join, t, decode, request).result
      ensures t.sent == old(t.sent) + LikelihoodCall(client, join, t, decode, request).posted
    {
      var valid := ValidateLikelihoodRequest(request);
      if valid.Err? {
        return Err(valid.error);
      }
      var url := client.BuildUrl(join, LIKELIHOOD_ENDPOINT);
      if url.Err? {
        return Err(url.error);
      }
      var delivery := t.Send(Post(url.value, LikelihoodRequestJson(request)));
      match delivery
      case SendFailed(detail) => r := Err(RequestFailed(detail));
      case Delivered(response) => r := HandleResponse(decode, response);
    }

    /** `check_providers`: the request holding these NPIs in this order, this condition code and
        this code type, sent exactly as `get_likelihood` sends it. */
    method CheckProviders<T>(join: UrlJoin, t: Transport, decode: Decoder<T>, npis: seq<string>, conditionCode: string, codeType: string)
      returns (r: Result<T, DocarooError>)
      modifies t
      ensures r == LikelihoodCall(client, join, t, decode, LikelihoodRequest(npis, conditionCode, codeType)).result
      ensures t.sent == old(t.sent) + LikelihoodCall(client, join, t, decode, LikelihoodRequest(npis, conditionCode, codeType)).posted
    {
      var request := BuildLikelihoodRequest(npis, conditionCode, codeType);
      r := GetLikelihood(join, t, decode, request);
    }
  }
}
