/** The request and response records of the API and the `CodeType` wire table (src/models.rs). */
module Models {
  import opened Wrappers
  import Json

  /** The medical billing code standards the API accepts; a closed set. */
  datatype CodeType =
    | Cpt | Ndc | Hcpcs | Rc | Icd
    | MsDrg | RDrg | SDrg | ApsDrg | ApDrg | AprDrg
    | Apc | Local | Eapg | Hipps | Cdt | CstmAll

  /** The fixed wire token of each code type. */
  function Token(c: CodeType): string {
    match c
    case Cpt => "CPT"
    case Ndc => "NDC"
    case Hcpcs => "HCPCS"
    case Rc => "RC"
    case Icd => "ICD"
    case MsDrg => "MS-DRG"
    case RDrg => "R-DRG"
    case SDrg => "S-DRG"
    case ApsDrg => "APS-DRG"
    case ApDrg => "AP-DRG"
    case AprDrg => "APR-DRG"
    case Apc => "APC"
    case Local => "LOCAL"
    case Eapg => "EAPG"
    case Hipps => "HIPPS"
    case Cdt => "CDT"
    case CstmAll => "CSTM-ALL"
  }

  /** Reading a wire token back: only the seventeen tokens are accepted. */
  function ParseToken(s: string): (r: Option<CodeType>)
    ensures r.Some? ==> Token(r.value) == s
  {
    if s == "CPT" then Some(Cpt)
    else if s == "NDC" then Some(Ndc)
    else if s == "HCPCS" then Some(Hcpcs)
    else if s == "RC" then Some(Rc)
    else if s == "ICD" then Some(Icd)
    else if s == "MS-DRG" then Some(MsDrg)
    else if s == "R-DRG" then Some(RDrg)
    else if s == "S-DRG" then Some(SDrg)
    else if s == "APS-DRG" then Some(ApsDrg)
    else if s == "AP-DRG" then Some(ApDrg)
    else if s == "APR-DRG" then Some(AprDrg)
    else if s == "APC" then Some(Apc)
    else if s == "LOCAL" then Some(Local)
    else if s == "EAPG" then Some(Eapg)
    else if s == "HIPPS" then Some(Hipps)
    else if s == "CDT" then Some(Cdt)
    else if s == "CSTM-ALL" then Some(CstmAll)
    else None
  }

  /** Every code type reads back from its own token. */
  lemma ParseTokenRoundTrip(c: CodeType)
    ensures ParseToken(Token(c)) == Some(c)
  {
  }

  /** A string is accepted exactly when it is one of the tokens. */
  lemma ParseTokenClosed(s: string)
    ensures ParseToken(s).None? <==> forall c: CodeType :: Token(c) != s
  {
    if ParseToken(s).None? {
      forall c: CodeType ensures Token(c) != s {
        ParseTokenRoundTrip(c);
      }
    }
  }

  /** No two code types share a token. */
  lemma TokenInjective(c: CodeType, d: CodeType)
    requires Token(c) == Token(d)
    ensures c == d
  {
    ParseTokenRoundTrip(c);
    ParseTokenRoundTrip(d);
  }

  /** `impl Default for CodeType`. */
  function DefaultCodeType(): (c: CodeType)
    ensures Token(c) == "CPT"
  {
    Cpt
  }

  /** A pricing lookup: up to ten NPIs, one billing code, an optional plan and code standard. */
  datatype PricingRequest = PricingRequest(
    npis: seq<string>,
    conditionCode: string,
    planId: Option<string>,
    codeType: Option<CodeType>)

  /** A likelihood lookup; its code standard is a free string, not a `CodeType`. */
  datatype LikelihoodRequest = LikelihoodRequest(
    npis: seq<string>,
    conditionCode: string,
    codeType: string)

  /** The server's error body. `timestamp` is kept as its ISO 8601 text. */
  datatype ErrorResponse = ErrorResponse(
    error: string,
    message: string,
    details: Option<Json.Value>,
    requestId: Option<string>,
    timestamp: Option<string>)

  /** `PricingRequest::builder()`: the two required fields and whatever optional setters were called;
      an optional field that was not set stays `None`. */
  function BuildPricingRequest(npis: seq<string>, conditionCode: string,
                               planId: Option<string>, codeType: Option<CodeType>): (r: PricingRequest)
    ensures r.npis == npis && r.conditionCode == conditionCode
    ensures r.planId == planId && r.codeType == codeType
  {
    PricingRequest(npis, conditionCode, planId, codeType)
  }

  /** Leaving `code_type` unset on the builder gives `None`, which is not the enum's default `Cpt`. */
  lemma UnsetCodeTypeIsNotDefault(npis: seq<string>, conditionCode: string, planId: Option<string>)
    ensures BuildPricingRequest(npis, conditionCode, planId, None).codeType != Some(DefaultCodeType())
  {
  }

  /** `LikelihoodRequest::builder()`: all three fields are required and stored as given. */
  function BuildLikelihoodRequest(npis: seq<string>, conditionCode: string, codeType: string): (r: LikelihoodRequest)
    ensures r.npis == npis && r.conditionCode == conditionCode && r.codeType == codeType
  {
    LikelihoodRequest(npis, conditionCode, codeType)
  }

  /** The JSON body of a pricing request: camelCase names, `planId` and `codeType` omitted when `None`. */
  function PricingRequestJson(r: PricingRequest): (j: Json.Value)
    ensures j.Object?
    ensures j.fields.Keys == {"npis", "conditionCode"}
                             + (if r.planId.Some? then {"planId"} else {})
                             + (if r.codeType.Some? then {"codeType"} else {})
    ensures j.fields["npis"] == Json.StringArray(r.npis)
    ensures j.fields["conditionCode"] == Json.Str(r.conditionCode)
    ensures r.planId.Some? ==> j.fields["planId"] == Json.Str(r.planId.value)
    ensures r.codeType.Some? ==> j.fields["codeType"] == Json.Str(Token(r.codeType.value))
  {
    var required := map["npis" := Json.StringArray(r.npis), "conditionCode" := Json.Str(r.conditionCode)];
    var withPlan := if r.planId.Some? then required["planId" := Json.Str(r.planId.value)] else required;
    var withType := if r.codeType.Some? then withPlan["codeType" := Json.Str(Token(r.codeType.value))] else withPlan;
    Json.Object(withType)
  }

  /** The pricing body loses nothing: two requests with the same body are the same request. */
  lemma PricingRequestJsonInjective(a: PricingRequest, b: PricingRequest)
    requires PricingRequestJson(a) == PricingRequestJson(b)
    ensures a == b
  {
    var ja, jb := PricingRequestJson(a), PricingRequestJson(b);
    Json.StringArrayInjective(a.npis, b.npis);
    assert a.planId.Some? <==> "planId" in ja.fields;
    assert a.codeType.Some? <==> "codeType" in ja.fields;
    if a.codeType.Some? {
      assert Json.Str(Token(a.codeType.value)) == ja.fields["codeType"] == jb.fields["codeType"];
      TokenInjective(a.codeType.value, b.codeType.value);
    }
  }

  /** The JSON body of a likelihood request: always exactly its three fields. */
  function LikelihoodRequestJson(r: LikelihoodRequest): (j: Json.Value)
    ensures j.Object?
    ensures j.fields.Keys == {"npis", "conditionCode", "codeType"}
    ensures j.fields["npis"] == Json.StringArray(r.npis)
    ensures j.fields["conditionCode"] == Json.Str(r.conditionCode)
    ensures j.fields["codeType"] == Json.Str(r.codeType)
  {
    Json.Object(map[
      "npis" := Json.StringArray(r.npis),
      "conditionCode" := Json.Str(r.conditionCode),
      "codeType" := Json.Str(r.codeType)])
  }

  /** The likelihood body loses nothing either. */
  lemma LikelihoodRequestJsonInjective(a: LikelihoodRequest, b: LikelihoodRequest)
    requires LikelihoodRequestJson(a) == LikelihoodRequestJson(b)
    ensures a == b
  {
    Json.StringArrayInjective(a.npis, b.npis);
  }
}
