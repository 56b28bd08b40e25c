/**
 * The risk assessment controller (src/controllers/riskAssessmentController.ts):
 * request validation and creation of an assessment, lookup by id and the two
 * paginated listings.
 */
module RiskAssessmentController {
  import opened Wrappers
  import opened ErrorHandling
  import opened KycVerificationModel
  import opened RiskAssessmentModel
  import opened Database
  import opened Pagination

  /** The body of a create request; absent members are None. */
  datatype AssessmentRequest = AssessmentRequest(
    kycVerificationId: Option<Id>,
    overallRiskScore: Option<real>,
    riskLevel: Json,
    riskFactors: Json,
    assessmentDate: Option<int>,
    expiryDate: Option<int>,
    assessmentNotes: Option<string>)

  /** `strings.join(",")` */
  function JoinWithCommas(strings: seq<string>): string
  {
    if strings == [] then ""
    else if |strings| == 1 then strings[0]
    else strings[0] + "," + JoinWithCommas(strings[1..])
  }

  /** JavaScript's string conversion inside a template literal. */
  function JsText(j: Json): string
  {
    match j
    case JUndefined => "undefined"
    case JNull => "null"
    case JBool(b) => if b then "true" else "false"
    case JNumber(n) => DecimalText(n.Floor)
    case JString(s) => s
    case JArray(items) =>
      JoinWithCommas(seq(|items|, i requires 0 <= i < |items| => if Nullish(items[i]) then "" else JsText(items[i])))
    case JObject(_) => "[object Object]"
  }

  /** A factor the controller's loop lets through. */
  predicate FactorAccepted(f: Json)
  {
    !Nullish(f) && HasTruthyFields(f) && ParseRiskFactorType(Property(f, "type")).Some?
  }

  /** The error the loop body throws for one factor, if any. */
  function FactorError(f: Json): (err: Option<ErrorObject>)
    ensures err.None? <==> FactorAccepted(f)
  {
    if Nullish(f) then Some(PlainError(NullPropertyMessage(f)))
    else if !HasTruthyFields(f) then Some(AppError("Invalid risk factor structure", 400))
    else if ParseRiskFactorType(Property(f, "type")).None? then
      Some(AppError("Invalid risk factor type: " + JsText(Property(f, "type")), 400))
    else None
  }

  /** `riskFactors.forEach(...)`: the first factor's error stops the loop. */
  function FirstFactorError(factors: seq<Json>): (err: Option<ErrorObject>)
    ensures err.None? <==> forall k :: 0 <= k < |factors| ==> FactorAccepted(factors[k])
  {
    if factors == [] then None
    else if FactorError(factors[0]).Some? then FactorError(factors[0])
    else
      var rest := FirstFactorError(factors[1..]);
      assert forall k :: 1 <= k < |factors| ==> factors[k] == factors[1..][k - 1];
      rest
  }

  /** The error reported is the one of the first factor that is not accepted. */
  lemma {:induction false} FirstFailingFactorReported(factors: seq<Json>, k: nat)
    requires k < |factors| && !FactorAccepted(factors[k])
    requires forall m :: 0 <= m < k ==> FactorAccepted(factors[m])
    ensures FirstFactorError(factors) == FactorError(factors[k])
  {
    if k > 0 {
      assert FactorAccepted(factors[0]);
      assert forall m :: 0 <= m < k - 1 ==> factors[1..][m] == factors[m + 1];
      FirstFailingFactorReported(factors[1..], k - 1);
    }
  }

  /**
   * The checks before the insert, in order: the level, a non-empty factor
   * array, then each factor. On success, the level named by the request.
   */
  function ValidateRequest(req: AssessmentRequest): (r: Result<RiskLevel, ErrorObject>)
    ensures r.Success? <==>
      && ParseRiskLevel(req.riskLevel).Some?
      && req.riskFactors.JArray? && |req.riskFactors.items| > 0
      && forall k :: 0 <= k < |req.riskFactors.items| ==> FactorAccepted(req.riskFactors.items[k])
    ensures r.Success? ==> req.riskLevel == JString(r.value.Text())
    ensures ParseRiskLevel(req.riskLevel).None? ==> r == Failure(AppError("Invalid risk level", 400))
    ensures (ParseRiskLevel(req.riskLevel).Some? && (!req.riskFactors.JArray? || req.riskFactors.items == [])) ==>
      r == Failure(AppError("At least one risk factor is required", 400))
  {
    var level := ParseRiskLevel(req.riskLevel);
    if level.None? then Failure(AppError("Invalid risk level", 400))
    else if !req.riskFactors.JArray? || |req.riskFactors.items| == 0 then
      Failure(AppError("At least one risk factor is required", 400))
    else
      var err := FirstFactorError(req.riskFactors.items);
      if err.Some? then Failure(err.value) else Success(level.value)
  }

  /** Whatever the controller accepts, the model's `isValidRiskFactors` accepts too. */
  lemma AcceptedFactorsPassModel(req: AssessmentRequest)
    requires ValidateRequest(req).Success?
    ensures ValidateRiskFactors(req.riskFactors).None?
  {
  }

  /**
   * A factor with a falsy score (0) behind accepted factors is refused with
   * 400 "Invalid risk factor structure", before its type is looked at.
   */
  lemma ZeroScoreRefused(req: AssessmentRequest, k: nat)
    requires ParseRiskLevel(req.riskLevel).Some? && req.riskFactors.JArray?
    requires k < |req.riskFactors.items|
    requires forall m :: 0 <= m < k ==> FactorAccepted(req.riskFactors.items[m])
    requires var f := req.riskFactors.items[k]; f.JObject? && "score" in f.fields && f.fields["score"] == JNumber(0.0)
    ensures ValidateRequest(req) == Failure(AppError("Invalid risk factor structure", 400))
  {
    FirstFailingFactorReported(req.riskFactors.items, k);
  }

  /** The columns handed to `RiskAssessment.create`: `assessmentDate || new Date()`. */
  function AttrsOf(userId: string, level: RiskLevel, req: AssessmentRequest, now: int): (a: AssessmentAttrs)
    ensures a.assessmentDate == (if req.assessmentDate.Some? then req.assessmentDate.value else now)
    ensures a.riskLevel == level && a.userId == userId && a.riskFactors == req.riskFactors
  {
    AssessmentAttrs(userId, req.kycVerificationId, req.overallRiskScore, level, req.riskFactors,
      req.assessmentDate.GetOr(now), req.expiryDate, req.assessmentNotes)
  }

  /** `createAssessment`: the controller's checks, then the table's own. A failure stores nothing. */
  method CreateAssessment(db: Tables, userId: string, req: AssessmentRequest, now: int)
    returns (r: Result<RiskAssessment, ErrorObject>)
    requires db.Valid()
    modifies db
    ensures db.Valid()
    ensures db.users == old(db.users) && db.verifications == old(db.verifications) && db.documents == old(db.documents)
    ensures ValidateRequest(req).Failure? ==> r == Failure(ValidateRequest(req).error)
    ensures r.Failure? ==> db.assessments == old(db.assessments) && db.nextId == old(db.nextId)
    ensures r.Success? <==>
      && ValidateRequest(req).Success?
      && req.kycVerificationId.Some? && req.kycVerificationId.value in Ids(old(db.verifications))
      && req.overallRiskScore.Some? && OverallScoreInRange(req.overallRiskScore.value)
      && req.expiryDate.Some? && userId in old(db.users)
    ensures r.Success? ==>
      && db.assessments == old(db.assessments) + [r.value] && r.value.id == old(db.nextId)
      && r.value.userId == userId && r.value.riskLevel == ValidateRequest(req).value
      && r.value.kycVerificationId == req.kycVerificationId.value
      && JArray(r.value.riskFactors) == req.riskFactors
      && r.value.assessmentDate == (if req.assessmentDate.Some? then req.assessmentDate.value else now)
      && r.value.assessedBy.None?
  {
    var checked := ValidateRequest(req);
    if checked.Failure? {
      return Failure(checked.error);
    }
    AcceptedFactorsPassModel(req);
    r := db.InsertAssessment(AttrsOf(userId, checked.value, req, now));
  }

  /** `findByPk(id)` on the assessments. */
  function FindAssessment(rs: seq<RiskAssessment>, id: Id): (found: Option<RiskAssessment>)
    ensures found.None? ==> forall k :: 0 <= k < |rs| ==> rs[k].id != id
    ensures found.Some? ==> found.value in rs && found.value.id == id
  {
    if rs == [] then None
    else if rs[0].id == id then Some(rs[0])
    else
      var rest := FindAssessment(rs[1..], id);
      assert forall k :: 1 <= k < |rs| ==> rs[k] == rs[1..][k - 1];
      rest
  }

  /** `getAssessment` */
  function GetAssessment(rs: seq<RiskAssessment>, id: Id): (r: Result<RiskAssessment, ErrorObject>)
    ensures r.Success? <==> exists k :: 0 <= k < |rs| && rs[k].id == id
    ensures r.Success? ==> r.value in rs && r.value.id == id
    ensures r.Failure? ==> r.error == AppError("Risk assessment not found", 404)
  {
    var found := FindAssessment(rs, id);
    if found.Some? then Success(found.value) else Failure(AppError("Risk assessment not found", 404))
  }

  /** The filters of `listAllAssessments`, from the query string. */
  datatype AssessmentFilters = AssessmentFilters(riskLevel: Option<string>, startDate: Option<int>, endDate: Option<int>)

  /** The `where` clause: a level filter only when the query value is a non-empty string. */
  predicate AssessmentMatches(a: RiskAssessment, f: AssessmentFilters)
  {
    && (f.riskLevel.Some? && f.riskLevel.value != "" ==> a.riskLevel.Text() == f.riskLevel.value)
    && (f.startDate.Some? ==> a.assessmentDate >= f.startDate.value)
    && (f.endDate.Some? ==> a.assessmentDate <= f.endDate.value)
  }

  function CountUserAssessments(rs: seq<RiskAssessment>, userId: string): (n: nat)
    ensures n <= |rs|
  {
    if rs == [] then 0 else (if rs[0].userId == userId then 1 else 0) + CountUserAssessments(rs[1..], userId)
  }

  function CountMatchingAssessments(rs: seq<RiskAssessment>, f: AssessmentFilters): (n: nat)
    ensures n <= |rs|
  {
    if rs == [] then 0 else (if AssessmentMatches(rs[0], f) then 1 else 0) + CountMatchingAssessments(rs[1..], f)
  }

  /**
   * `listUserAssessments`: `page` and `limit` fall back to 1 and 10 when
   * absent, unparsable or 0; a negative value reaches the query, which MySQL
   * refuses.
   */
  function ListUserAssessments(rs: seq<RiskAssessment>, userId: string, page: Option<int>, limit: Option<int>)
    : (r: Result<Listing, ErrorObject>)
    ensures r.Failure? <==> !RunnableWindow(QueryParamOr(page, 1), QueryParamOr(limit, 10))
    ensures r.Failure? ==> r.error == QueryRejected
    ensures (page.None? || page.value >= 0) && (limit.None? || limit.value >= 0) ==> r.Success?
    ensures r.Success? ==> r.value.total <= |rs| && r.value.pages.Some?
    ensures r.Success? ==>
      var lim := QueryParamOr(limit, 10);
      lim > 0 && (r.value.pages.value - 1) * lim < r.value.total <= r.value.pages.value * lim
  {
    RunnablePages(QueryParamOr(page, 1), QueryParamOr(limit, 10));
    ListingOf(CountUserAssessments(rs, userId), QueryParamOr(page, 1), QueryParamOr(limit, 10))
  }

  /** `listAllAssessments`, with the same page defaults and the same refusal of negative windows. */
  function ListAllAssessments(rs: seq<RiskAssessment>, f: AssessmentFilters, page: Option<int>, limit: Option<int>)
    : (r: Result<Listing, ErrorObject>)
    ensures r.Failure? <==> !RunnableWindow(QueryParamOr(page, 1), QueryParamOr(limit, 10))
    ensures r.Failure? ==> r.error == QueryRejected
    ensures (page.None? || page.value >= 0) && (limit.None? || limit.value >= 0) ==> r.Success?
    ensures r.Success? ==> r.value.total <= |rs| && r.value.pages.Some?
  {
    RunnablePages(QueryParamOr(page, 1), QueryParamOr(limit, 10));
    ListingOf(CountMatchingAssessments(rs, f), QueryParamOr(page, 1), QueryParamOr(limit, 10))
  }

  /** With no filters every assessment is counted. */
  lemma {:induction false} UnfilteredAssessmentsCountAll(rs: seq<RiskAssessment>)
    ensures CountMatchingAssessments(rs, AssessmentFilters(None, None, None)) == |rs|
  {
    if rs != [] {
      UnfilteredAssessmentsCountAll(rs[1..]);
    }
  }
}
