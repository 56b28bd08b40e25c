/**
 * The four tables the engine reads and writes (users, kyc_verifications,
 * documents, risk_assessments) and the constraints the database and the
 * Sequelize models enforce on them: primary keys, the unique document number,
 * foreign keys and column validators. Identifiers are drawn from a counter.
 */
module Database {
  import opened Wrappers
  import opened ErrorHandling
  import opened KycVerificationModel
  import opened DocumentModel
  import opened RiskAssessmentModel

  /** The user fields the engine reads. */
  datatype User = User(firstName: string, lastName: string, email: string)

  /** A Sequelize ValidationError: a validator or a not-null check failed. */
  const ValidationFailed: ErrorObject := PlainError("Validation error")
  /** A Sequelize UniqueConstraintError (its message is also "Validation error"). */
  const UniqueViolated: ErrorObject := PlainError("Validation error")
  /** A Sequelize ForeignKeyConstraintError. */
  const ForeignKeyViolated: ErrorObject := PlainError("Foreign key constraint error")

  /** The `verifiedBy` foreign key: an absent reviewer, or a registered user. */
  predicate ReviewerRegistered(reviewer: Option<string>, users: map<string, User>)
  {
    reviewer.None? || reviewer.value in users
  }

  ghost predicate VerificationsValid(vs: seq<KycVerification>, users: map<string, User>, nextId: Id)
  {
    && IdsUnique(vs)
    && DocumentNumbersUnique(vs)
    && forall i :: 0 <= i < |vs| ==>
      vs[i].id < nextId && vs[i].userId in users && RiskScoreInRange(vs[i].riskScore)
      && ReviewerRegistered(vs[i].verifiedBy, users)
  }

  ghost predicate DocumentsValid(ds: seq<Document>, vs: seq<KycVerification>, users: map<string, User>, nextId: Id)
  {
    forall j :: 0 <= j < |ds| ==>
      && ds[j].id < nextId
      && ds[j].userId in users
      && FileSizeValid(ds[j])
      && ds[j].kycVerificationId in Ids(vs)
      && ReviewerRegistered(ds[j].verifiedBy, users)
  }

  ghost predicate AssessmentsValid(rs: seq<RiskAssessment>, vs: seq<KycVerification>, users: map<string, User>, nextId: Id)
  {
    forall k :: 0 <= k < |rs| ==>
      && rs[k].id < nextId
      && rs[k].userId in users
      && RowValid(rs[k])
      && rs[k].kycVerificationId in Ids(vs)
  }

  /** An UPDATE of verification rows that leaves the key, the unique column and the score alone. */
  predicate SameVerificationKeys(vs: seq<KycVerification>, ws: seq<KycVerification>)
  {
    |ws| == |vs| &&
    forall i :: 0 <= i < |vs| ==>
      ws[i].id == vs[i].id && ws[i].userId == vs[i].userId
      && ws[i].documentNumber == vs[i].documentNumber && ws[i].riskScore == vs[i].riskScore
  }

  /** An UPDATE of document rows that leaves the key, the owner, the parent and the size alone. */
  predicate SameDocumentKeys(ds: seq<Document>, es: seq<Document>)
  {
    |es| == |ds| &&
    forall j :: 0 <= j < |ds| ==>
      es[j].id == ds[j].id && es[j].userId == ds[j].userId
      && es[j].kycVerificationId == ds[j].kycVerificationId && es[j].fileSize == ds[j].fileSize
  }

  lemma IdsAppend(vs: seq<KycVerification>, v: KycVerification)
    ensures Ids(vs + [v]) == Ids(vs) + [v.id]
  {
    assert forall i :: 0 <= i < |vs| + 1 ==> Ids(vs + [v])[i] == (Ids(vs) + [v.id])[i];
  }

  lemma IdsOfSameKeys(vs: seq<KycVerification>, ws: seq<KycVerification>)
    requires SameVerificationKeys(vs, ws)
    ensures Ids(ws) == Ids(vs)
  {
    assert forall i :: 0 <= i < |vs| ==> Ids(ws)[i] == Ids(vs)[i];
  }

  /** The columns `RiskAssessment.create` receives from the controller; absent members are None. */
  datatype AssessmentAttrs = AssessmentAttrs(
    userId: string,
    kycVerificationId: Option<Id>,
    overallRiskScore: Option<real>,
    riskLevel: RiskLevel,
    riskFactors: Json,
    assessmentDate: int,
    expiryDate: Option<int>,
    assessmentNotes: Option<string>)

  /** Not-null checks and validators of the risk_assessments model. */
  predicate AssessmentAttrsValid(a: AssessmentAttrs)
  {
    && a.kycVerificationId.Some?
    && a.overallRiskScore.Some? && OverallScoreInRange(a.overallRiskScore.value)
    && a.expiryDate.Some?
    && ValidateRiskFactors(a.riskFactors).None?
  }

  /** The row stored for valid attributes; `assessedBy` is never set by the controller. */
  function AssessmentRow(id: Id, a: AssessmentAttrs): (row: RiskAssessment)
    requires AssessmentAttrsValid(a)
    ensures RowValid(row) && row.id == id && row.userId == a.userId
    ensures row.kycVerificationId == a.kycVerificationId.value && row.riskLevel == a.riskLevel
    ensures JArray(row.riskFactors) == a.riskFactors && row.assessedBy.None?
  {
    RiskAssessment(id, a.userId, a.kycVerificationId.value, a.overallRiskScore.value, a.riskLevel,
      a.riskFactors.items, a.assessmentDate, a.expiryDate.value, a.assessmentNotes, None)
  }

  class Tables {
    var users: map<string, User>
    var verifications: seq<KycVerification>
    var documents: seq<Document>
    var assessments: seq<RiskAssessment>
    /** The next identifier to hand out; every stored id is below it. */
    var nextId: Id

    ghost predicate Valid()
      reads this
    {
      && VerificationsValid(verifications, users, nextId)
      && DocumentsValid(documents, verifications, users, nextId)
      && AssessmentsValid(assessments, verifications, users, nextId)
    }

    /** Empty KYC tables over a given set of registered users. */
    constructor (registered: map<string, User>)
      ensures Valid()
      ensures users == registered && verifications == [] && documents == [] && assessments == [] && nextId == 0
    {
      users := registered;
      verifications := [];
      documents := [];
      assessments := [];
      nextId := 0;
    }

    /**
     * `KYCVerification.create(row)`: the validators, then the unique index on
     * the document number, then the foreign keys to users (owner and
     * reviewer). A failure stores nothing.
     */
    method InsertVerification(row: KycVerification) returns (r: Result<KycVerification, ErrorObject>)
      requires Valid() && row.id == nextId
      modifies this
      ensures Valid()
      ensures users == old(users) && documents == old(documents) && assessments == old(assessments)
      ensures !RiskScoreInRange(row.riskScore) ==> r == Failure(ValidationFailed)
      ensures RiskScoreInRange(row.riskScore) && DocumentNumberTaken(old(verifications), row.documentNumber) ==>
        r == Failure(UniqueViolated)
      ensures (RiskScoreInRange(row.riskScore) && !DocumentNumberTaken(old(verifications), row.documentNumber)
        && (row.userId !in users || !ReviewerRegistered(row.verifiedBy, users))) ==> r == Failure(ForeignKeyViolated)
      ensures r.Failure? ==> verifications == old(verifications) && nextId == old(nextId)
      ensures r.Success? <==>
        RiskScoreInRange(row.riskScore) && !DocumentNumberTaken(old(verifications), row.documentNumber)
        && row.userId in users && ReviewerRegistered(row.verifiedBy, users)
      ensures r.Success? ==> r.value == row && verifications == old(verifications) + [row] && nextId == old(nextId) + 1
    {
      if !RiskScoreInRange(row.riskScore) {
        return Failure(ValidationFailed);
      }
      if DocumentNumberTaken(verifications, row.documentNumber) {
        return Failure(UniqueViolated);
      }
      if row.userId !in users || !ReviewerRegistered(row.verifiedBy, users) {
        return Failure(ForeignKeyViolated);
      }
      AppendKeepsDocumentNumbersUnique(verifications, row);
      IdsAppend(verifications, row);
      verifications := verifications + [row];
      nextId := nextId + 1;
      r := Success(row);
    }

    /**
     * `Document.bulkCreate(rows)`. Bulk inserts skip the model validators, so
     * the caller supplies valid sizes, existing owners, parents and reviewers;
     * rows receive consecutive identifiers.
     */
    method InsertDocuments(rows: seq<Document>)
      requires Valid()
      requires forall k :: 0 <= k < |rows| ==>
        rows[k].id == nextId + k && rows[k].userId in users && FileSizeValid(rows[k])
        && rows[k].kycVerificationId in Ids(verifications) && ReviewerRegistered(rows[k].verifiedBy, users)
      modifies this
      ensures Valid()
      ensures documents == old(documents) + rows && nextId == old(nextId) + |rows|
      ensures users == old(users) && verifications == old(verifications) && assessments == old(assessments)
    {
      documents := documents + rows;
      nextId := nextId + |rows|;
    }

    /**
     * `RiskAssessment.create(attrs)`: not-null checks and validators, then the
     * foreign keys to the verification and the user.
     */
    method InsertAssessment(attrs: AssessmentAttrs) returns (r: Result<RiskAssessment, ErrorObject>)
      requires Valid()
      modifies this
      ensures Valid()
      ensures users == old(users) && verifications == old(verifications) && documents == old(documents)
      ensures !AssessmentAttrsValid(attrs) ==> r == Failure(ValidationFailed)
      ensures AssessmentAttrsValid(attrs) && (attrs.kycVerificationId.value !in Ids(verifications) || attrs.userId !in users) ==>
        r == Failure(ForeignKeyViolated)
      ensures r.Failure? ==> assessments == old(assessments) && nextId == old(nextId)
      ensures r.Success? <==>
        AssessmentAttrsValid(attrs) && attrs.kycVerificationId.value in Ids(verifications) && attrs.userId in users
      ensures r.Success? ==>
        r.value == AssessmentRow(old(nextId), attrs) && assessments == old(assessments) + [r.value] && nextId == old(nextId) + 1
    {
      if !AssessmentAttrsValid(attrs) {
        return Failure(ValidationFailed);
      }
      if attrs.kycVerificationId.value !in Ids(verifications) || attrs.userId !in users {
        return Failure(ForeignKeyViolated);
      }
      var row := AssessmentRow(nextId, attrs);
      assessments := assessments + [row];
      nextId := nextId + 1;
      r := Success(row);
    }

    /**
     * An UPDATE of verification rows that leaves their keys alone; it is
     * refused by the `verifiedBy` foreign key when a row names a reviewer who
     * is not a user, and then changes nothing.
     */
    method UpdateVerifications(ws: seq<KycVerification>) returns (r: Result<(), ErrorObject>)
      requires Valid() && SameVerificationKeys(verifications, ws)
      modifies this
      ensures Valid()
      ensures r.Success? <==> forall i :: 0 <= i < |ws| ==> ReviewerRegistered(ws[i].verifiedBy, users)
      ensures r.Failure? ==> r.error == ForeignKeyViolated && verifications == old(verifications)
      ensures r.Success? ==> verifications == ws
      ensures users == old(users) && documents == old(documents) && assessments == old(assessments) && nextId == old(nextId)
    {
      if exists i :: 0 <= i < |ws| && !ReviewerRegistered(ws[i].verifiedBy, users) {
        return Failure(ForeignKeyViolated);
      }
      IdsOfSameKeys(verifications, ws);
      verifications := ws;
      r := Success(());
    }

    /** An UPDATE of document rows that leaves their keys alone, under the same reviewer foreign key. */
    method UpdateDocuments(es: seq<Document>) returns (r: Result<(), ErrorObject>)
      requires Valid() && SameDocumentKeys(documents, es)
      modifies this
      ensures Valid()
      ensures r.Success? <==> forall j :: 0 <= j < |es| ==> ReviewerRegistered(es[j].verifiedBy, users)
      ensures r.Failure? ==> r.error == ForeignKeyViolated && documents == old(documents)
      ensures r.Success? ==> documents == es
      ensures users == old(users) && verifications == old(verifications) && assessments == old(assessments) && nextId == old(nextId)
    {
      if exists j :: 0 <= j < |es| && !ReviewerRegistered(es[j].verifiedBy, users) {
        return Failure(ForeignKeyViolated);
      }
      documents := es;
      r := Success(());
    }
  }
}
