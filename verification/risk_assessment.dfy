/**
 * The risk assessment record (src/models/RiskAssessment.ts): level and factor
 * type enumerations, the score bounds and the `isValidRiskFactors` validator.
 * Factors arrive as request JSON, so they are modelled as JSON values and the
 * validator's JavaScript truthiness tests are spelled out.
 */
module RiskAssessmentModel {
  import opened Wrappers
  import opened KycVerificationModel

  /** A JSON value of a request body (`undefined` stands for an absent member). */
  datatype Json =
    | JUndefined
    | JNull
    | JBool(b: bool)
    | JNumber(n: real)
    | JString(s: string)
    | JArray(items: seq<Json>)
    | JObject(fields: map<string, Json>)

  /** JavaScript truthiness: undefined, null, false, 0 and "" are falsy. */
  predicate Truthy(j: Json)
  {
    match j
    case JUndefined => false
    case JNull => false
    case JBool(b) => b
    case JNumber(n) => n != 0.0
    case JString(s) => s != ""
    case JArray(_) => true
    case JObject(_) => true
  }

  /** Reading a property of null or undefined throws a TypeError. */
  predicate Nullish(j: Json)
  {
    j.JUndefined? || j.JNull?
  }

  /** `j[key]` on a value that is not nullish; only objects carry the factor fields. */
  function Property(j: Json, key: string): Json
    requires !Nullish(j)
  {
    if j.JObject? && key in j.fields then j.fields[key] else JUndefined
  }

  /** The TypeError thrown by reading `type` of a null or undefined factor. */
  function NullPropertyMessage(j: Json): string
    requires Nullish(j)
  {
    "Cannot read properties of " + (if j.JNull? then "null" else "undefined") + " (reading 'type')"
  }

  /** `factor.type && factor.description && factor.score && factor.details` */
  predicate HasTruthyFields(factor: Json)
    requires !Nullish(factor)
  {
    && Truthy(Property(factor, "type"))
    && Truthy(Property(factor, "description"))
    && Truthy(Property(factor, "score"))
    && Truthy(Property(factor, "details"))
  }

  datatype RiskLevel = Low | Medium | High | Critical {
    function Text(): string
    {
      match this
      case Low => "low"
      case Medium => "medium"
      case High => "high"
      case Critical => "critical"
    }
  }

  /** `Object.values(RiskLevel).includes(j)`, returning the member found. */
  function ParseRiskLevel(j: Json): (l: Option<RiskLevel>)
    ensures l.Some? ==> j == JString(l.value.Text())
  {
    if j == JString("low") then Some(Low)
    else if j == JString("medium") then Some(Medium)
    else if j == JString("high") then Some(High)
    else if j == JString("critical") then Some(Critical)
    else None
  }

  datatype RiskFactorType = Identity | DocumentFactor | Behavioral | Transactional | Geographical | Political | OtherFactor {
    function Text(): string
    {
      match this
      case Identity => "identity"
      case DocumentFactor => "document"
      case Behavioral => "behavioral"
      case Transactional => "transactional"
      case Geographical => "geographical"
      case Political => "political"
      case OtherFactor => "other"
    }
  }

  /** `Object.values(RiskFactorType).includes(j)`, returning the member found. */
  function ParseRiskFactorType(j: Json): (t: Option<RiskFactorType>)
    ensures t.Some? ==> j == JString(t.value.Text())
  {
    if j == JString("identity") then Some(Identity)
    else if j == JString("document") then Some(DocumentFactor)
    else if j == JString("behavioral") then Some(Behavioral)
    else if j == JString("transactional") then Some(Transactional)
    else if j == JString("geographical") then Some(Geographical)
    else if j == JString("political") then Some(Political)
    else if j == JString("other") then Some(OtherFactor)
    else None
  }

  /** Exactly the four level strings and the seven factor-type strings are accepted. */
  lemma EnumsAccepted(l: RiskLevel, t: RiskFactorType)
    ensures ParseRiskLevel(JString(l.Text())) == Some(l)
    ensures ParseRiskFactorType(JString(t.Text())) == Some(t)
  {
  }

  /** One row of `risk_assessments`. */
  datatype RiskAssessment = RiskAssessment(
    id: Id,
    userId: string,
    kycVerificationId: Id,
    overallRiskScore: real,
    riskLevel: RiskLevel,
    riskFactors: seq<Json>,
    assessmentDate: int,
    expiryDate: int,
    assessmentNotes: Option<string>,
    assessedBy: Option<string>)

  /** The `overallRiskScore` validator: min 0, max 100. */
  predicate OverallScoreInRange(score: real)
  {
    0.0 <= score <= 100.0
  }

  /**
   * `isValidRiskFactors`: None when the value passes, otherwise the message of
   * the first error it throws (a TypeError for a null or undefined factor).
   */
  function ValidateRiskFactors(value: Json): (err: Option<string>)
    ensures err.None? <==> value.JArray? && forall k :: 0 <= k < |value.items| ==>
      !Nullish(value.items[k]) && HasTruthyFields(value.items[k])
  {
    if !value.JArray? then Some("Risk factors must be an array")
    else FirstStructureError(value.items)
  }

  function FirstStructureError(factors: seq<Json>): (err: Option<string>)
    ensures err.None? <==> forall k :: 0 <= k < |factors| ==> !Nullish(factors[k]) && HasTruthyFields(factors[k])
  {
    if factors == [] then None
    else if Nullish(factors[0]) then Some(NullPropertyMessage(factors[0]))
    else if !HasTruthyFields(factors[0]) then Some("Invalid risk factor structure")
    else
      var rest := FirstStructureError(factors[1..]);
      assert forall k :: 1 <= k < |factors| ==> factors[k] == factors[1..][k - 1];
      rest
  }

  /** A factor whose score is 0 is rejected as a malformed structure, wherever it stands. */
  lemma ZeroScoreFactorRejected(factors: seq<Json>, k: nat)
    requires k < |factors| && factors[k].JObject?
    requires "score" in factors[k].fields && factors[k].fields["score"] == JNumber(0.0)
    ensures ValidateRiskFactors(JArray(factors)).Some?
  {
    assert !HasTruthyFields(factors[k]);
  }

  /** The validator accepts the empty list: non-emptiness is checked only by the controller. */
  lemma EmptyFactorListPassesModel()
    ensures ValidateRiskFactors(JArray([])) == None
  {
  }

  /** What the table enforces on a stored row. */
  predicate RowValid(a: RiskAssessment)
  {
    OverallScoreInRange(a.overallRiskScore) && ValidateRiskFactors(JArray(a.riskFactors)).None?
  }
}
