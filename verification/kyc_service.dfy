/**
 * The KYC service (src/services/kycService.ts): submission through the mock
 * external verifier, admin-initiated verification requests with their three
 * document records, status decisions cascading to documents, lookups,
 * paginated listings and the expiry sweep. The database is a `Tables` object;
 * the clock and the mock's random outage are parameters.
 */
module KycService {
  import opened Wrappers
  import opened ErrorHandling
  import opened RiskScoringConfig
  import opened RiskScorer
  import opened NameSimilarity
  import opened KycVerificationModel
  import opened DocumentModel
  import opened Database
  import opened Pagination
  import RiskAssessmentModel

  /** A submission (`KYCData`). */
  datatype KycData = KycData(
    userId: string,
    firstName: string,
    lastName: string,
    dateOfBirth: string,
    nationality: string,
    address: Address,
    phoneNumber: string,
    email: string,
    documentType: string,
    documentNumber: string,
    documentExpiryDate: int,
    documentFrontUrl: string,
    documentBackUrl: Option<string>,
    selfieUrl: string)

  /** What `verifyWithExternalAPI` yields: the mock's answers, or its simulated outage. */
  datatype VerifierOutcome = Unavailable | Answered(result: VerificationResult)

  /** The mock verifier; `apiFails` stands for its random 10% outage. */
  function MockVerifier(data: KycData, apiFails: bool): VerifierOutcome
  {
    if apiFails then Unavailable
    else Answered(VerificationResult(
      NamesSimilar(data.firstName + " " + data.lastName, "John Doe"),
      data.dateOfBirth == "1990-01-01",
      data.documentNumber == "12345678901",
      data.documentNumber == "12345678901",
      data.email == "john.doe@example.com"))
  }

  /** `verifyWithExternalAPI`, computing the name match with the dynamic-programming table. */
  method VerifyWithExternalApi(data: KycData, apiFails: bool) returns (outcome: VerifierOutcome)
    ensures outcome == MockVerifier(data, apiFails)
  {
    if apiFails {
      return Unavailable;
    }
    var nameMatch := CalculateNameSimilarity(data.firstName + " " + data.lastName, "John Doe");
    outcome := Answered(VerificationResult(
      nameMatch,
      data.dateOfBirth == "1990-01-01",
      data.documentNumber == "12345678901",
      data.documentNumber == "12345678901",
      data.email == "john.doe@example.com"));
  }

  /**
   * The mock answers the NIN and BVN checks from the same comparison, so they
   * always agree; a submission that fails only that comparison scores
   * 30/60 = 50 and lists both rules as risk factors.
   */
  lemma MockNinBvnAgree(data: KycData)
    ensures var r := MockVerifier(data, false).result; r.ninMatch == r.bvnMatch
    ensures var r := MockVerifier(data, false).result;
      r.fullNameMatch && r.dobMatch && r.emailMatch && !r.ninMatch ==>
        CalculateRiskScore(Shipped, r).score == 50
        && RiskFactorNames(ScoreDetails(Shipped.rules, r)) == ["ninMatch", "bvnMatch"]
  {
    var r := MockVerifier(data, false).result;
    ShippedWeights();
    RiskFactorsAreFailedRules(Shipped.rules, r);
  }

  /** The row `submitKYC` stores: an INDIVIDUAL, PENDING record with the computed score and factors. */
  function SubmissionRow(id: Id, data: KycData, rs: RiskScore, now: int): KycVerification
  {
    KycVerification(
      id, data.userId, Individual, Pending, data.documentType, data.documentNumber,
      data.documentExpiryDate, data.documentFrontUrl, data.documentBackUrl, data.selfieUrl,
      PersonalData(data.firstName, data.lastName, FromText(data.dateOfBirth), data.nationality,
        data.address, data.phoneNumber, data.email),
      rs.score, RiskFactorNames(rs.details), Some(""), None, None, now)
  }

  /** The stored submission is an undecided PENDING row with a score in 0..100 and the failed rules as factors. */
  lemma SubmissionRowShape(id: Id, data: KycData, result: VerificationResult, now: int)
    ensures var row := SubmissionRow(id, data, CalculateRiskScore(Shipped, result), now);
      && row.id == id && row.userId == data.userId && row.documentNumber == data.documentNumber
      && row.status == Pending && 0 <= row.riskScore <= 100 && row.riskFactors == FailedRuleNames(result)
      && row.verifiedBy.None? && row.verifiedAt.None?
  {
    ShippedWeights();
    RiskFactorsAreFailedRules(Shipped.rules, result);
  }

  /**
   * `submitKYC`: reject a document number already on file (before the
   * verifier is consulted), then the verifier's outage, then store the
   * scored submission. A failure stores nothing.
   */
  method SubmitKyc(db: Tables, data: KycData, apiFails: bool, now: int) returns (r: Result<KycVerification, ErrorObject>)
    requires db.Valid()
    modifies db
    ensures db.Valid()
    ensures db.users == old(db.users) && db.documents == old(db.documents) && db.assessments == old(db.assessments)
    ensures DocumentNumberTaken(old(db.verifications), data.documentNumber) ==>
      r == Failure(AppError("Document number already exists", 400))
    ensures (!DocumentNumberTaken(old(db.verifications), data.documentNumber) && apiFails) ==>
      r == Failure(AppError("External verification service temporarily unavailable", 503))
    ensures (!DocumentNumberTaken(old(db.verifications), data.documentNumber) && !apiFails && data.userId !in old(db.users)) ==>
      r == Failure(ForeignKeyViolated)
    ensures r.Failure? ==> db.verifications == old(db.verifications) && db.nextId == old(db.nextId)
    ensures r.Success? <==>
      !DocumentNumberTaken(old(db.verifications), data.documentNumber) && !apiFails && data.userId in old(db.users)
    ensures r.Success? ==>
      var result := MockVerifier(data, false).result;
      && r.value == SubmissionRow(old(db.nextId), data, CalculateRiskScore(Shipped, result), now)
      && db.verifications == old(db.verifications) + [r.value] && db.nextId == old(db.nextId) + 1
      && r.value.status == Pending && 0 <= r.value.riskScore <= 100
      && r.value.riskFactors == FailedRuleNames(result)
    ensures Coherent(old(db.verifications), old(db.documents)) ==> Coherent(db.verifications, db.documents)
  {
    if DocumentNumberTaken(db.verifications, data.documentNumber) {
      return Failure(AppError("Document number already exists", 400));
    }
    var outcome := VerifyWithExternalApi(data, apiFails);
    if outcome.Unavailable? {
      return Failure(AppError("External verification service temporarily unavailable", 503));
    }
    var riskScore := CalculateRiskScore(Shipped, outcome.result);
    SubmissionRowShape(db.nextId, data, outcome.result, now);
    ghost var vs, ds := db.verifications, db.documents;
    var row := SubmissionRow(db.nextId, data, riskScore, now);
    assert RiskScoreInRange(row.riskScore) && ReviewerRegistered(row.verifiedBy, db.users);
    r := db.InsertVerification(row);
    if r.Success? {
      SubmissionKeepsCoherent(vs, ds, row);
    }
  }

  /** `findByPk(id)` or a 404 with the caller's message. */
  function FindOr404(vs: seq<KycVerification>, id: Id, message: string): (r: Result<KycVerification, ErrorObject>)
    ensures r.Success? <==> HasId(vs, id)
    ensures r.Success? ==> r.value in vs && r.value.id == id
    ensures r.Failure? ==> r.error == AppError(message, 404)
  {
    var found := FindById(vs, id);
    if found.Some? then Success(found.value) else Failure(AppError(message, 404))
  }

  /** `getKYCStatus` */
  function GetKycStatus(vs: seq<KycVerification>, id: Id): (r: Result<KycVerification, ErrorObject>)
    ensures r.Success? <==> HasId(vs, id)
    ensures r.Success? ==> r.value in vs && r.value.id == id
    ensures r.Failure? ==> r.error == AppError("KYC verification not found", 404)
  {
    FindOr404(vs, id, "KYC verification not found")
  }

  /** Under the primary key, a lookup returns exactly the row carrying the id. */
  lemma LookupReturnsTheRow(vs: seq<KycVerification>, id: Id, i: nat)
    requires IdsUnique(vs) && i < |vs| && vs[i].id == id
    ensures GetKycStatus(vs, id) == Success(vs[i])
    ensures GetVerificationById(vs, id) == Success(vs[i])
  {
    FindByIdUnique(vs, id, i);
  }

  /** `getVerificationById` (the joined user, documents and assessments are not modelled). */
  function GetVerificationById(vs: seq<KycVerification>, id: Id): (r: Result<KycVerification, ErrorObject>)
    ensures r.Success? <==> HasId(vs, id)
    ensures r.Success? ==> r.value in vs && r.value.id == id
    ensures r.Failure? ==> r.error == AppError("Verification not found", 404)
  {
    FindOr404(vs, id, "Verification not found")
  }

  /** The body of an admin's `createVerification` request. */
  datatype VerificationRequest = VerificationRequest(
    kind: KycType,
    documentType: string,
    documentNumber: string,
    documentExpiryDate: int,
    documentFrontUrl: string,
    documentBackUrl: string,
    selfieUrl: string)

  /** `findOne({ where: { userId, status: PENDING } })` finds a row. */
  predicate HasPendingVerification(vs: seq<KycVerification>, userId: string)
  {
    exists i :: 0 <= i < |vs| && vs[i].userId == userId && vs[i].status == Pending
  }

  /** The record `createVerification` opens: personal data copied from the user, score 0, no factors. */
  function RequestRow(id: Id, userId: string, user: User, req: VerificationRequest, now: int): KycVerification
  {
    KycVerification(
      id, userId, req.kind, Pending, req.documentType, req.documentNumber, req.documentExpiryDate,
      req.documentFrontUrl, Some(req.documentBackUrl), req.selfieUrl,
      PersonalData(user.firstName, user.lastName, At(now), "", Address("", "", "", "", ""), "", user.email),
      0, [], Some(""), None, None, now)
  }

  /** A placeholder document row: pending, size 0, JPEG, unreviewed. */
  function PendingUpload(id: Id, parent: Id, userId: string, kind: DocumentType, name: string, url: string,
                         documentNumber: Option<string>, now: int): Document
  {
    Document(id, userId, parent, kind, DocPending, name, url, 0, "image/jpeg",
      DocumentMetadata(name, now, None, documentNumber, None, None), None, None, None)
  }

  /** The three document rows `createVerification` bulk-creates. */
  function RequestDocuments(firstId: Id, parent: Id, userId: string, req: VerificationRequest, now: int): seq<Document>
  {
    [ PendingUpload(firstId, parent, userId, IdCard, "document_front", req.documentFrontUrl, Some(req.documentNumber), now),
      PendingUpload(firstId + 1, parent, userId, IdCard, "document_back", req.documentBackUrl, Some(req.documentNumber), now),
      PendingUpload(firstId + 2, parent, userId, Selfie, "selfie", req.selfieUrl, None, now) ]
  }

  /**
   * The documents of a new request: front and back of an ID card and a
   * selfie, at the request's URLs, all pending and unreviewed, all owned by
   * the user and attached to the new verification.
   */
  lemma RequestDocumentsShape(firstId: Id, parent: Id, userId: string, req: VerificationRequest, now: int)
    ensures var ds := RequestDocuments(firstId, parent, userId, req, now);
      && |ds| == 3
      && ds[0].kind == IdCard && ds[1].kind == IdCard && ds[2].kind == Selfie
      && [ds[0].fileUrl, ds[1].fileUrl, ds[2].fileUrl] == [req.documentFrontUrl, req.documentBackUrl, req.selfieUrl]
      && ds[2].metadata.documentNumber.None?
      && forall k :: 0 <= k < 3 ==>
        && ds[k].kycVerificationId == parent && ds[k].userId == userId && ds[k].id == firstId + k
        && ds[k].status == DocPending && ReviewFieldsConsistent(ds[k]) && ds[k].verifiedBy.None? && FileSizeValid(ds[k])
  {
  }

  /**
   * `createVerification`: the user must exist and have no pending
   * verification; the record is then created (the unique document number is
   * enforced by the table) and its three documents are bulk-created.
   */
  method CreateVerification(db: Tables, userId: string, req: VerificationRequest, now: int)
    returns (r: Result<KycVerification, ErrorObject>)
    requires db.Valid()
    modifies db
    ensures db.Valid()
    ensures db.users == old(db.users) && db.assessments == old(db.assessments)
    ensures userId !in old(db.users) ==> r == Failure(AppError("User not found", 404))
    ensures (userId in old(db.users) && HasPendingVerification(old(db.verifications), userId)) ==>
      r == Failure(AppError("User already has a pending verification", 400))
    ensures (userId in old(db.users) && !HasPendingVerification(old(db.verifications), userId)
      && DocumentNumberTaken(old(db.verifications), req.documentNumber)) ==> r == Failure(UniqueViolated)
    ensures r.Failure? ==>
      db.verifications == old(db.verifications) && db.documents == old(db.documents) && db.nextId == old(db.nextId)
    ensures r.Success? <==>
      userId in old(db.users) && !HasPendingVerification(old(db.verifications), userId)
      && !DocumentNumberTaken(old(db.verifications), req.documentNumber)
    ensures r.Success? ==>
      var id := old(db.nextId);
      && r.value == RequestRow(id, userId, old(db.users)[userId], req, now)
      && db.verifications == old(db.verifications) + [r.value]
      && db.documents == old(db.documents) + RequestDocuments(id + 1, id, userId, req, now)
      && db.nextId == id + 4
      && HasPendingVerification(db.verifications, userId)
    ensures Coherent(old(db.verifications), old(db.documents)) ==> Coherent(db.verifications, db.documents)
  {
    if userId !in db.users {
      return Failure(AppError("User not found", 404));
    }
    if HasPendingVerification(db.verifications, userId) {
      return Failure(AppError("User already has a pending verification", 400));
    }
    ghost var vs, ds := db.verifications, db.documents;
    var row := RequestRow(db.nextId, userId, db.users[userId], req, now);
    r := db.InsertVerification(row);
    if r.Success? {
      IdsAppend(vs, row);
      var docs := RequestDocuments(db.nextId, row.id, userId, req, now);
      RequestDocumentsShape(db.nextId, row.id, userId, req, now);
      db.InsertDocuments(docs);
      assert db.verifications[|vs|] == row;
      NewRequestKeepsCoherent(vs, ds, row, docs);
    }
  }

  /** `status === APPROVED ? VERIFIED : REJECTED`: every other decision rejects the documents. */
  function DocumentStatusFor(status: KycStatus): (d: DocumentStatus)
    ensures d == Verified <==> status == Approved
    ensures d != DocPending && d != DocExpired
  {
    if status == Approved then Verified else DocRejected
  }

  /** `verification.update(...)`: an absent note leaves the stored note alone. */
  function ApplyDecision(v: KycVerification, status: KycStatus, verifiedBy: string, notes: Option<string>, now: int): KycVerification
  {
    v.(status := status, verifiedBy := Some(verifiedBy), verifiedAt := Some(now),
       verificationNotes := if notes.Some? then notes else v.verificationNotes)
  }

  /** The documents' share of a decision. */
  function CascadeDecision(d: Document, status: KycStatus, verifiedBy: string, now: int): Document
  {
    d.(status := DocumentStatusFor(status), verifiedBy := Some(verifiedBy), verifiedAt := Some(now))
  }

  /** The verification table after a decision on `id`. */
  function DecideAll(vs: seq<KycVerification>, id: Id, status: KycStatus, verifiedBy: string, notes: Option<string>, now: int)
    : (ws: seq<KycVerification>)
    ensures SameVerificationKeys(vs, ws)
  {
    seq(|vs|, i requires 0 <= i < |vs| => if vs[i].id == id then ApplyDecision(vs[i], status, verifiedBy, notes, now) else vs[i])
  }

  /** `Document.update(..., { where: { kycVerificationId: id } })` */
  function CascadeAll(ds: seq<Document>, id: Id, status: KycStatus, verifiedBy: string, now: int): (es: seq<Document>)
    ensures SameDocumentKeys(ds, es)
  {
    seq(|ds|, j requires 0 <= j < |ds| => if ds[j].kycVerificationId == id then CascadeDecision(ds[j], status, verifiedBy, now) else ds[j])
  }

  /**
   * A document mirrors the last decision on its verification: before any
   * decision it is pending and unreviewed; after one it carries the decision's
   * document status, reviewer and time.
   */
  predicate MirrorsDecision(d: Document, v: KycVerification)
  {
    if v.verifiedBy.None? then d.status == DocPending && d.verifiedBy.None? && d.verifiedAt.None?
    else d.status == DocumentStatusFor(v.status) && d.verifiedBy == v.verifiedBy && d.verifiedAt == v.verifiedAt
  }

  /** The documents and the verifications agree: the state every service operation keeps. */
  ghost predicate Coherent(vs: seq<KycVerification>, ds: seq<Document>)
  {
    && (forall i :: 0 <= i < |vs| ==> (vs[i].verifiedBy.None? <==> vs[i].verifiedAt.None?))
    && (forall i, j :: 0 <= i < |vs| && 0 <= j < |ds| && ds[j].kycVerificationId == vs[i].id ==>
          MirrorsDecision(ds[j], vs[i]))
  }

  /** In a coherent state whose documents all have a parent, every document's review fields are consistent. */
  lemma CoherentDocumentsReviewed(vs: seq<KycVerification>, ds: seq<Document>)
    requires Coherent(vs, ds)
    requires forall j :: 0 <= j < |ds| ==> ds[j].kycVerificationId in Ids(vs)
    ensures forall j :: 0 <= j < |ds| ==> ReviewFieldsConsistent(ds[j])
  {
    forall j | 0 <= j < |ds|
      ensures ReviewFieldsConsistent(ds[j])
    {
      var i :| 0 <= i < |vs| && Ids(vs)[i] == ds[j].kycVerificationId;
      assert MirrorsDecision(ds[j], vs[i]);
    }
  }

  lemma NewRequestKeepsCoherent(vs: seq<KycVerification>, ds: seq<Document>, row: KycVerification, docs: seq<Document>)
    requires forall j :: 0 <= j < |ds| ==> ds[j].kycVerificationId in Ids(vs)
    requires row.id !in Ids(vs)
    requires row.verifiedBy.None? && row.verifiedAt.None?
    requires forall k :: 0 <= k < |docs| ==>
      docs[k].kycVerificationId == row.id && docs[k].status == DocPending && docs[k].verifiedBy.None? && docs[k].verifiedAt.None?
    ensures Coherent(vs, ds) ==> Coherent(vs + [row], ds + docs)
  {
    if Coherent(vs, ds) {
      var ws, es := vs + [row], ds + docs;
      assert forall i :: 0 <= i < |vs| ==> vs[i].id == Ids(vs)[i] != row.id;
      forall i, j | 0 <= i < |ws| && 0 <= j < |es| && es[j].kycVerificationId == ws[i].id
        ensures MirrorsDecision(es[j], ws[i])
      {
        if i < |vs| && j < |ds| {
          assert MirrorsDecision(ds[j], vs[i]);
        }
      }
    }
  }

  /** A stored submission, which brings no documents, keeps the documents mirroring their verifications. */
  lemma SubmissionKeepsCoherent(vs: seq<KycVerification>, ds: seq<Document>, row: KycVerification)
    requires forall j :: 0 <= j < |ds| ==> ds[j].kycVerificationId in Ids(vs)
    requires row.id !in Ids(vs)
    requires row.verifiedBy.None? && row.verifiedAt.None?
    ensures Coherent(vs, ds) ==> Coherent(vs + [row], ds)
  {
    assert ds + [] == ds;
    NewRequestKeepsCoherent(vs, ds, row, []);
  }

  /** A decision keeps the documents mirroring their verifications, whatever the ids. */
  lemma DecisionKeepsCoherent(vs: seq<KycVerification>, ds: seq<Document>, id: Id, status: KycStatus,
                              verifiedBy: string, notes: Option<string>, now: int)
    requires Coherent(vs, ds)
    ensures Coherent(DecideAll(vs, id, status, verifiedBy, notes, now), CascadeAll(ds, id, status, verifiedBy, now))
  {
    var ws, es := DecideAll(vs, id, status, verifiedBy, notes, now), CascadeAll(ds, id, status, verifiedBy, now);
    forall i, j | 0 <= i < |ws| && 0 <= j < |es| && es[j].kycVerificationId == ws[i].id
      ensures MirrorsDecision(es[j], ws[i])
    {
      if vs[i].id != id {
        assert MirrorsDecision(ds[j], vs[i]);
      }
    }
  }

  /**
   * Any status may be set from any status: the service checks no transition,
   * so even an expired or rejected verification can be approved.
   */
  lemma NoTransitionGuard(vs: seq<KycVerification>, i: nat, status: KycStatus, verifiedBy: string, notes: Option<string>, now: int)
    requires i < |vs|
    ensures var ws := DecideAll(vs, vs[i].id, status, verifiedBy, notes, now);
      ws[i].status == status && ws[i].verifiedBy == Some(verifiedBy) && ws[i].verifiedAt == Some(now)
      && (notes.None? ==> ws[i].verificationNotes == vs[i].verificationNotes)
  {
  }

  /**
   * A decision touches only the verifications carrying the id and only the
   * documents attached to it; approval verifies those documents and every
   * other status rejects them.
   */
  lemma DecisionScope(vs: seq<KycVerification>, ds: seq<Document>, id: Id, status: KycStatus,
                      verifiedBy: string, notes: Option<string>, now: int)
    ensures var ws := DecideAll(vs, id, status, verifiedBy, notes, now);
      forall i :: 0 <= i < |vs| && vs[i].id != id ==> ws[i] == vs[i]
    ensures var es := CascadeAll(ds, id, status, verifiedBy, now);
      forall j :: 0 <= j < |ds| ==>
        if ds[j].kycVerificationId == id
        then (es[j].status == Verified <==> status == Approved) && es[j].status != DocPending
          && es[j].verifiedBy == Some(verifiedBy)
        else es[j] == ds[j]
  {
  }

  /**
   * `updateVerificationStatus`: a 404 for an unknown id; otherwise the
   * decision is written to the verification and cascaded to its documents.
   * The reviewer column is a foreign key to users, so a reviewer who is not
   * a user makes the first update fail and nothing changes.
   */
  method UpdateVerificationStatus(db: Tables, id: Id, status: KycStatus, verifiedBy: string, notes: Option<string>, now: int)
    returns (r: Result<KycVerification, ErrorObject>)
    requires db.Valid()
    modifies db
    ensures db.Valid()
    ensures db.users == old(db.users) && db.assessments == old(db.assessments) && db.nextId == old(db.nextId)
    ensures !HasId(old(db.verifications), id) ==> r == Failure(AppError("Verification not found", 404))
    ensures HasId(old(db.verifications), id) && verifiedBy !in old(db.users) ==> r == Failure(ForeignKeyViolated)
    ensures r.Success? <==> HasId(old(db.verifications), id) && verifiedBy in old(db.users)
    ensures r.Failure? ==> db.verifications == old(db.verifications) && db.documents == old(db.documents)
    ensures r.Success? ==>
      && r.value in db.verifications && r.value.id == id && r.value.status == status
      && r.value.verifiedBy == Some(verifiedBy) && r.value.verifiedAt == Some(now)
      && db.verifications == DecideAll(old(db.verifications), id, status, verifiedBy, notes, now)
      && db.documents == CascadeAll(old(db.documents), id, status, verifiedBy, now)
    ensures Coherent(old(db.verifications), old(db.documents)) ==> Coherent(db.verifications, db.documents)
  {
    var vs, ds := db.verifications, db.documents;
    var found := FindById(vs, id);
    if found.None? {
      return Failure(AppError("Verification not found", 404));
    }
    var updated := ApplyDecision(found.value, status, verifiedBy, notes, now);
    var k :| 0 <= k < |vs| && vs[k] == found.value;
    var ws := DecideAll(vs, id, status, verifiedBy, notes, now);
    assert ws[k] == updated;
    var written := db.UpdateVerifications(ws);
    if written.Failure? {
      return Failure(written.error);
    }
    var es := CascadeAll(ds, id, status, verifiedBy, now);
    assert forall j :: 0 <= j < |es| ==> ReviewerRegistered(es[j].verifiedBy, db.users);
    var _ := db.UpdateDocuments(es);
    if Coherent(vs, ds) {
      DecisionKeepsCoherent(vs, ds, id, status, verifiedBy, notes, now);
    }
    r := Success(updated);
  }

  /** The note the expiry sweep writes. */
  const ExpiryNote: string := "Verification expired due to document expiry"

  /** The sweep's query: approved, with a document that expired before now. */
  predicate ExpiresAt(v: KycVerification, now: int)
  {
    v.status == Approved && v.documentExpiryDate < now
  }

  /** The ids the sweep's query returns, in table order. */
  function ExpiredIds(vs: seq<KycVerification>, now: int): (ids: seq<Id>)
    ensures |ids| <= |vs|
  {
    if vs == [] then []
    else (if ExpiresAt(vs[0], now) then [vs[0].id] else []) + ExpiredIds(vs[1..], now)
  }

  lemma {:induction false} ExpiredIdsMembers(vs: seq<KycVerification>, now: int, x: Id)
    ensures x in ExpiredIds(vs, now) <==> exists i :: 0 <= i < |vs| && vs[i].id == x && ExpiresAt(vs[i], now)
  {
    if vs != [] {
      ExpiredIdsMembers(vs[1..], now, x);
      if x in ExpiredIds(vs[1..], now) {
        var i :| 0 <= i < |vs[1..]| && vs[1..][i].id == x && ExpiresAt(vs[1..][i], now);
        assert vs[i + 1] == vs[1..][i];
      }
      if exists i :: 0 <= i < |vs| && vs[i].id == x && ExpiresAt(vs[i], now) {
        var i :| 0 <= i < |vs| && vs[i].id == x && ExpiresAt(vs[i], now);
        if i > 0 {
          assert vs[1..][i - 1] == vs[i];
        }
      }
    }
  }

  function Elements(ids: seq<Id>): set<Id>
  {
    set x | x in ids
  }

  /** The sweep's decision: expired by "system" with the expiry note. */
  function Expire(v: KycVerification, now: int): KycVerification
  {
    ApplyDecision(v, Expired, "system", Some(ExpiryNote), now)
  }

  function CascadeExpiry(d: Document, now: int): Document
  {
    CascadeDecision(d, Expired, "system", now)
  }

  /** The verification table once every id of `s` has been expired. */
  function ExpireAmong(vs: seq<KycVerification>, s: set<Id>, now: int): (ws: seq<KycVerification>)
    ensures |ws| == |vs|
  {
    seq(|vs|, i requires 0 <= i < |vs| => if vs[i].id in s then Expire(vs[i], now) else vs[i])
  }

  /** The document table once every id of `s` has been expired. */
  function CascadeAmong(ds: seq<Document>, s: set<Id>, now: int): (es: seq<Document>)
    ensures |es| == |ds|
  {
    seq(|ds|, j requires 0 <= j < |ds| => if ds[j].kycVerificationId in s then CascadeExpiry(ds[j], now) else ds[j])
  }

  /** The tables after `checkVerificationExpiry` at time `now`. */
  function SweepVerifications(vs: seq<KycVerification>, now: int): seq<KycVerification>
  {
    ExpireAmong(vs, Elements(ExpiredIds(vs, now)), now)
  }

  function SweepDocuments(ds: seq<Document>, vs: seq<KycVerification>, now: int): seq<Document>
  {
    CascadeAmong(ds, Elements(ExpiredIds(vs, now)), now)
  }

  /** One more iteration of the sweep's loop: expiring `id` on top of the ids already done. */
  lemma ExpiryStep(vs: seq<KycVerification>, ds: seq<Document>, s: set<Id>, id: Id, now: int)
    ensures DecideAll(ExpireAmong(vs, s, now), id, Expired, "system", Some(ExpiryNote), now) == ExpireAmong(vs, s + {id}, now)
    ensures CascadeAll(CascadeAmong(ds, s, now), id, Expired, "system", now) == CascadeAmong(ds, s + {id}, now)
  {
  }

  /** Iteration `k` of the sweep's loop: its id is still stored, and updating it expires one more id. */
  lemma ExpiryLoopStep(vs0: seq<KycVerification>, ds0: seq<Document>, expired: seq<Id>, k: nat, now: int)
    requires expired == ExpiredIds(vs0, now) && k < |expired|
    ensures HasId(ExpireAmong(vs0, Elements(expired[..k]), now), expired[k])
    ensures DecideAll(ExpireAmong(vs0, Elements(expired[..k]), now), expired[k], Expired, "system", Some(ExpiryNote), now)
      == ExpireAmong(vs0, Elements(expired[..k + 1]), now)
    ensures CascadeAll(CascadeAmong(ds0, Elements(expired[..k]), now), expired[k], Expired, "system", now)
      == CascadeAmong(ds0, Elements(expired[..k + 1]), now)
  {
    ExpiredIdsMembers(vs0, now, expired[k]);
    var i :| 0 <= i < |vs0| && vs0[i].id == expired[k] && ExpiresAt(vs0[i], now);
    assert ExpireAmong(vs0, Elements(expired[..k]), now)[i].id == expired[k];
    ExpiryStep(vs0, ds0, Elements(expired[..k]), expired[k], now);
    assert expired[..k + 1] == expired[..k] + [expired[k]];
    assert Elements(expired[..k + 1]) == Elements(expired[..k]) + {expired[k]};
  }

  /** As written, the sweep is refused when it has work to do and "system" is not a user id. */
  predicate SweepRefused(vs: seq<KycVerification>, users: map<string, User>, now: int)
  {
    ExpiredIds(vs, now) != [] && "system" !in users
  }

  /**
   * `checkVerificationExpiry`: every approved verification whose document
   * expired before now goes through `updateVerificationStatus` as EXPIRED,
   * by "system", with the expiry note, which also rejects its documents.
   * "system" is written into the reviewer foreign key, so unless a user has
   * that id the first update fails, the error leaves the loop, and nothing
   * is expired.
   */
  method CheckVerificationExpiry(db: Tables, now: int) returns (r: Result<(), ErrorObject>)
    requires db.Valid()
    modifies db
    ensures db.Valid()
    ensures db.users == old(db.users) && db.assessments == old(db.assessments) && db.nextId == old(db.nextId)
    ensures r.Failure? <==> SweepRefused(old(db.verifications), old(db.users), now)
    ensures r.Failure? ==>
      r.error == ForeignKeyViolated && db.verifications == old(db.verifications) && db.documents == old(db.documents)
    ensures r.Success? ==>
      && db.verifications == SweepVerifications(old(db.verifications), now)
      && db.documents == SweepDocuments(old(db.documents), old(db.verifications), now)
    ensures Coherent(old(db.verifications), old(db.documents)) ==> Coherent(db.verifications, db.documents)
  {
    var expired := ExpiredIds(db.verifications, now);
    ghost var vs0, ds0 := db.verifications, db.documents;
    assert ExpireAmong(vs0, Elements(expired[..0]), now) == vs0;
    assert CascadeAmong(ds0, Elements(expired[..0]), now) == ds0;
    for k := 0 to |expired|
      invariant db.Valid()
      invariant db.verifications == ExpireAmong(vs0, Elements(expired[..k]), now)
      invariant db.documents == CascadeAmong(ds0, Elements(expired[..k]), now)
      invariant db.users == old(db.users) && db.assessments == old(db.assessments) && db.nextId == old(db.nextId)
      invariant Coherent(vs0, ds0) ==> Coherent(db.verifications, db.documents)
      invariant k == 0 ==> db.verifications == vs0 && db.documents == ds0
      invariant k > 0 ==> "system" in db.users
    {
      ExpiryLoopStep(vs0, ds0, expired, k, now);
      var updated := UpdateVerificationStatus(db, expired[k], Expired, "system", Some(ExpiryNote), now);
      if updated.Failure? {
        return Failure(updated.error);
      }
    }
    assert expired[..|expired|] == expired;
    r := Success(());
  }

  /**
   * A refused sweep leaves every approved verification with an expired
   * document approved: the query still finds them all afterwards.
   */
  lemma RefusedSweepExpiresNothing(vs: seq<KycVerification>, users: map<string, User>, now: int)
    requires SweepRefused(vs, users, now)
    ensures exists i :: 0 <= i < |vs| && ExpiresAt(vs[i], now) && vs[i].status == Approved
  {
    var x := ExpiredIds(vs, now)[0];
    ExpiredIdsMembers(vs, now, x);
  }

  /**
   * Under the primary key the sweep expires exactly the approved
   * verifications whose document expired before now and leaves every other
   * verification as it was.
   */
  lemma SweepExact(vs: seq<KycVerification>, now: int)
    requires IdsUnique(vs)
    ensures forall i :: 0 <= i < |vs| ==>
      SweepVerifications(vs, now)[i] == if ExpiresAt(vs[i], now) then Expire(vs[i], now) else vs[i]
  {
    forall i | 0 <= i < |vs|
      ensures SweepVerifications(vs, now)[i] == if ExpiresAt(vs[i], now) then Expire(vs[i], now) else vs[i]
    {
      ExpiredIdsMembers(vs, now, vs[i].id);
    }
  }

  /**
   * The sweep also rejects the documents of each verification it expires,
   * with "system" as reviewer, and leaves the other documents alone.
   */
  lemma SweepRejectsDocuments(ds: seq<Document>, vs: seq<KycVerification>, now: int, i: nat, j: nat)
    requires IdsUnique(vs) && i < |vs| && j < |ds| && ds[j].kycVerificationId == vs[i].id
    ensures var e := SweepDocuments(ds, vs, now)[j];
      if ExpiresAt(vs[i], now)
      then e.status == DocRejected && e.verifiedBy == Some("system") && e.verifiedAt == Some(now)
      else e == ds[j]
  {
    ExpiredIdsMembers(vs, now, vs[i].id);
  }

  /** After a sweep no verification is left for the sweep to expire. */
  lemma SweepLeavesNoneExpiring(vs: seq<KycVerification>, now: int)
    ensures forall i :: 0 <= i < |vs| ==> !ExpiresAt(SweepVerifications(vs, now)[i], now)
  {
    forall i | 0 <= i < |vs|
      ensures !ExpiresAt(SweepVerifications(vs, now)[i], now)
    {
      ExpiredIdsMembers(vs, now, vs[i].id);
    }
  }

  /** Sweeping twice at the same time changes nothing more than sweeping once. */
  lemma SweepIdempotent(vs: seq<KycVerification>, ds: seq<Document>, now: int)
    ensures var ws := SweepVerifications(vs, now);
      SweepVerifications(ws, now) == ws && SweepDocuments(SweepDocuments(ds, vs, now), ws, now) == SweepDocuments(ds, vs, now)
  {
    var ws := SweepVerifications(vs, now);
    SweepLeavesNoneExpiring(vs, now);
    forall x | true
      ensures x !in ExpiredIds(ws, now)
    {
      ExpiredIdsMembers(ws, now, x);
    }
    assert Elements(ExpiredIds(ws, now)) == {};
  }

  /** The filters of `getAllVerifications`. */
  datatype VerificationFilters = VerificationFilters(
    status: Option<string>,
    kind: Option<string>,
    startDate: Option<int>,
    endDate: Option<int>)

  const NoFilters: VerificationFilters := VerificationFilters(None, None, None, None)

  /** `if (filters.x)`: an absent or empty string filter is skipped. */
  predicate Given(o: Option<string>)
  {
    o.Some? && o.value != ""
  }

  /** The `where` clause built from the filters. */
  predicate MatchesFilters(v: KycVerification, f: VerificationFilters)
  {
    && (Given(f.status) ==> v.status.Text() == f.status.value)
    && (Given(f.kind) ==> v.kind.Text() == f.kind.value)
    && (f.startDate.Some? ==> v.createdAt >= f.startDate.value)
    && (f.endDate.Some? ==> v.createdAt <= f.endDate.value)
  }

  /** How many documents are attached to verification `id`. */
  function DocumentsOf(ds: seq<Document>, id: Id): (n: nat)
    ensures n <= |ds|
  {
    if ds == [] then 0 else (if ds[0].kycVerificationId == id then 1 else 0) + DocumentsOf(ds[1..], id)
  }

  /** How many risk assessments refer to verification `id`. */
  function AssessmentsOf(rs: seq<RiskAssessmentModel.RiskAssessment>, id: Id): (n: nat)
    ensures n <= |rs|
  {
    if rs == [] then 0 else (if rs[0].kycVerificationId == id then 1 else 0) + AssessmentsOf(rs[1..], id)
  }

  /** A LEFT JOIN keeps a row with no partner once. */
  function AtLeastOne(n: nat): nat
  {
    if n == 0 then 1 else n
  }

  /**
   * The rows the listings' LEFT JOIN with the `documents` and
   * `riskAssessments` includes yields for one verification: one per pair of
   * a document and an assessment (the `user` include adds at most one
   * partner and so no rows).
   */
  function JoinedRows(v: KycVerification, ds: seq<Document>, rs: seq<RiskAssessmentModel.RiskAssessment>): (n: nat)
    ensures n >= 1
    ensures n == 1 <==> DocumentsOf(ds, v.id) <= 1 && AssessmentsOf(rs, v.id) <= 1
  {
    var a, b := AtLeastOne(DocumentsOf(ds, v.id)), AtLeastOne(AssessmentsOf(rs, v.id));
    ProductIsOne(a, b);
    a * b
  }

  lemma ProductIsOne(a: nat, b: nat)
    requires a >= 1 && b >= 1
    ensures a * b >= 1
    ensures a * b == 1 <==> a == 1 && b == 1
  {
    if a > 1 {
      assert a * b >= 2 * b by { MulAtLeast(a, 2, b); }
    } else if b > 1 {
      assert a * b >= a * 2 by { MulAtLeast(b, 2, a); }
    }
  }

  lemma MulAtLeast(a: nat, c: nat, b: nat)
    requires a >= c
    ensures a * b >= c * b
  {
  }

  /** Reference definition: the number of verifications the user owns. */
  function OwnedBy(vs: seq<KycVerification>, userId: string): (n: nat)
    ensures n <= |vs|
  {
    if vs == [] then 0 else (if vs[0].userId == userId then 1 else 0) + OwnedBy(vs[1..], userId)
  }

  /**
   * `count` of `findAndCountAll({ where: { userId }, include: [documents,
   * riskAssessments] })`: without `distinct` the count is taken over the
   * joined rows, so it is at least the number of verifications owned.
   */
  function CountOwnedBy(vs: seq<KycVerification>, ds: seq<Document>, rs: seq<RiskAssessmentModel.RiskAssessment>, userId: string)
    : (n: nat)
    ensures n >= OwnedBy(vs, userId)
  {
    if vs == [] then 0
    else (if vs[0].userId == userId then JoinedRows(vs[0], ds, rs) else 0) + CountOwnedBy(vs[1..], ds, rs, userId)
  }

  /** Reference definition: the number of verifications the filters' `where` clause selects. */
  function Matching(vs: seq<KycVerification>, f: VerificationFilters): (n: nat)
    ensures n <= |vs|
  {
    if vs == [] then 0 else (if MatchesFilters(vs[0], f) then 1 else 0) + Matching(vs[1..], f)
  }

  /** `count` of `getAllVerifications`' `findAndCountAll`, over the joined rows. */
  function CountMatching(vs: seq<KycVerification>, ds: seq<Document>, rs: seq<RiskAssessmentModel.RiskAssessment>, f: VerificationFilters)
    : (n: nat)
    ensures n >= Matching(vs, f)
  {
    if vs == [] then 0
    else (if MatchesFilters(vs[0], f) then JoinedRows(vs[0], ds, rs) else 0) + CountMatching(vs[1..], ds, rs, f)
  }

  /** No verification has more than one document or more than one assessment. */
  ghost predicate AtMostOnePartner(vs: seq<KycVerification>, ds: seq<Document>, rs: seq<RiskAssessmentModel.RiskAssessment>)
  {
    forall i :: 0 <= i < |vs| ==> DocumentsOf(ds, vs[i].id) <= 1 && AssessmentsOf(rs, vs[i].id) <= 1
  }

  /** Only when no verification has two documents or two assessments does the total count verifications. */
  lemma {:induction false} JoinedCountExact(vs: seq<KycVerification>, ds: seq<Document>, rs: seq<RiskAssessmentModel.RiskAssessment>,
                                            userId: string, f: VerificationFilters)
    requires AtMostOnePartner(vs, ds, rs)
    ensures CountOwnedBy(vs, ds, rs, userId) == OwnedBy(vs, userId)
    ensures CountMatching(vs, ds, rs, f) == Matching(vs, f)
  {
    if vs != [] {
      assert JoinedRows(vs[0], ds, rs) == 1;
      assert AtMostOnePartner(vs[1..], ds, rs) by {
        forall i | 0 <= i < |vs[1..]|
          ensures DocumentsOf(ds, vs[1..][i].id) <= 1 && AssessmentsOf(rs, vs[1..][i].id) <= 1
        {
          assert vs[1..][i] == vs[i + 1];
        }
      }
      JoinedCountExact(vs[1..], ds, rs, userId, f);
    }
  }

  lemma {:induction false} DocumentsOfAppend(a: seq<Document>, b: seq<Document>, id: Id)
    ensures DocumentsOf(a + b, id) == DocumentsOf(a, id) + DocumentsOf(b, id)
  {
    if a != [] {
      assert (a + b)[1..] == a[1..] + b;
      DocumentsOfAppend(a[1..], b, id);
    } else {
      assert a + b == b;
    }
  }

  /**
   * A verification opened by `createVerification`, with its three documents
   * and no assessment yet, is counted three times by the listings.
   */
  lemma NewRequestJoinsThreeRows(ds: seq<Document>, rs: seq<RiskAssessmentModel.RiskAssessment>, row: KycVerification,
                                 firstId: Id, userId: string, req: VerificationRequest, now: int)
    requires DocumentsOf(ds, row.id) == 0 && AssessmentsOf(rs, row.id) == 0
    ensures JoinedRows(row, ds + RequestDocuments(firstId, row.id, userId, req, now), rs) == 3
  {
    var docs := RequestDocuments(firstId, row.id, userId, req, now);
    DocumentsOfAppend(ds, docs, row.id);
    assert DocumentsOf(docs[1..][1..][1..], row.id) == 0;
    assert DocumentsOf(docs[1..][1..], row.id) == 1;
    assert DocumentsOf(docs[1..], row.id) == 2;
  }

  /**
   * `getUserVerifications(userId, page = 1, limit = 10)`: the total over the
   * joined rows, the page count and the offset; MySQL refuses a negative
   * offset or limit.
   */
  function GetUserVerifications(vs: seq<KycVerification>, ds: seq<Document>, rs: seq<RiskAssessmentModel.RiskAssessment>,
                                userId: string, page: Option<int>, limit: Option<int>): (r: Result<Listing, ErrorObject>)
    ensures r.Failure? <==> !RunnableWindow(ArgumentOr(page, 1), ArgumentOr(limit, 10))
    ensures r.Failure? ==> r.error == QueryRejected
    ensures (page.None? || page.value >= 1) && (limit.None? || limit.value >= 0) ==> r.Success?
    ensures r.Success? ==> r.value.total >= OwnedBy(vs, userId) && r.value.offset >= 0
    ensures page.None? && limit.None? ==> r.Success? && r.value.offset == 0 && r.value.pages == PageCount(r.value.total, 10)
  {
    RunnablePages(ArgumentOr(page, 1), ArgumentOr(limit, 10));
    ListingOf(CountOwnedBy(vs, ds, rs, userId), ArgumentOr(page, 1), ArgumentOr(limit, 10))
  }

  /** `getAllVerifications(filters, page = 1, limit = 10)` */
  function GetAllVerifications(vs: seq<KycVerification>, ds: seq<Document>, rs: seq<RiskAssessmentModel.RiskAssessment>,
                               f: VerificationFilters, page: Option<int>, limit: Option<int>): (r: Result<Listing, ErrorObject>)
    ensures r.Failure? <==> !RunnableWindow(ArgumentOr(page, 1), ArgumentOr(limit, 10))
    ensures r.Failure? ==> r.error == QueryRejected
    ensures (page.None? || page.value >= 1) && (limit.None? || limit.value >= 0) ==> r.Success?
    ensures r.Success? ==> r.value.total >= Matching(vs, f) && r.value.offset >= 0
    ensures page.None? && limit.None? ==> r.Success? && r.value.offset == 0 && r.value.pages == PageCount(r.value.total, 10)
  {
    RunnablePages(ArgumentOr(page, 1), ArgumentOr(limit, 10));
    ListingOf(CountMatching(vs, ds, rs, f), ArgumentOr(page, 1), ArgumentOr(limit, 10))
  }

  /** A stored row adds its joined rows to its owner's total and nothing to anybody else's. */
  lemma {:induction false} CountOwnedByAppend(vs: seq<KycVerification>, ds: seq<Document>, rs: seq<RiskAssessmentModel.RiskAssessment>,
                                              v: KycVerification, userId: string)
    ensures CountOwnedBy(vs + [v], ds, rs, userId) ==
      CountOwnedBy(vs, ds, rs, userId) + (if v.userId == userId then JoinedRows(v, ds, rs) else 0)
  {
    if vs != [] {
      assert (vs + [v])[1..] == vs[1..] + [v];
      CountOwnedByAppend(vs[1..], ds, rs, v, userId);
    } else {
      assert [] + [v] == [v];
    }
  }

  /** Without filters every verification is selected, so the total is at least the table size. */
  lemma {:induction false} UnfilteredCountsAll(vs: seq<KycVerification>, ds: seq<Document>, rs: seq<RiskAssessmentModel.RiskAssessment>)
    ensures Matching(vs, NoFilters) == |vs|
    ensures CountMatching(vs, ds, rs, NoFilters) >= |vs|
    ensures GetAllVerifications(vs, ds, rs, NoFilters, None, None) ==
      Success(Listing(CountMatching(vs, ds, rs, NoFilters), PageCount(CountMatching(vs, ds, rs, NoFilters), 10), 0))
  {
    if vs != [] {
      UnfilteredCountsAll(vs[1..], ds, rs);
    }
  }

  /** Adding a status filter to filters without one never raises the total. */
  lemma {:induction false} StatusFilterNarrows(vs: seq<KycVerification>, ds: seq<Document>, rs: seq<RiskAssessmentModel.RiskAssessment>,
                                               f: VerificationFilters, status: string)
    requires f.status.None?
    ensures CountMatching(vs, ds, rs, f.(status := Some(status))) <= CountMatching(vs, ds, rs, f)
  {
    if vs != [] {
      StatusFilterNarrows(vs[1..], ds, rs, f, status);
    }
  }

  /**
   * The service's default parameters replace only an omitted page, so an
   * explicit page below 1 reaches the query as a negative offset and the
   * listing fails; the controllers' `|| 1` turns 0 into page 1 but lets a
   * negative page through.
   */
  lemma PageBelowOneRefused(vs: seq<KycVerification>, ds: seq<Document>, rs: seq<RiskAssessmentModel.RiskAssessment>,
                            userId: string, page: int, limit: Option<int>)
    requires page < 1 && (limit.None? || limit.value > 0)
    ensures GetUserVerifications(vs, ds, rs, userId, Some(page), limit) == Failure(QueryRejected)
    ensures GetUserVerifications(vs, ds, rs, userId, Some(QueryParamOr(Some(page), 1)), limit).Success? <==> page == 0
  {
    RunnablePages(page, ArgumentOr(limit, 10));
  }
}
