/**
 * The verification record (src/models/KYCVerification.ts): its status and
 * type enumerations, its fields and the column constraints the table enforces.
 */
module KycVerificationModel {
  import opened Wrappers

  /** Identifiers of stored rows (UUIDv4 values in the table). */
  type Id = nat

  datatype KycStatus = Pending | InProgress | Approved | Rejected | Expired {
    /** The enumeration's stored string. */
    function Text(): string
    {
      match this
      case Pending => "pending"
      case InProgress => "in_progress"
      case Approved => "approved"
      case Rejected => "rejected"
      case Expired => "expired"
    }
  }

  /** The ENUM column: only the five strings are accepted. */
  function ParseStatus(text: string): (s: Option<KycStatus>)
    ensures s.Some? ==> s.value.Text() == text
  {
    if text == "pending" then Some(Pending)
    else if text == "in_progress" then Some(InProgress)
    else if text == "approved" then Some(Approved)
    else if text == "rejected" then Some(Rejected)
    else if text == "expired" then Some(Expired)
    else None
  }

  /** Every status is stored as a string that parses back to it. */
  lemma StatusTextRoundTrip(s: KycStatus)
    ensures ParseStatus(s.Text()) == Some(s)
  {
  }

  /** The column default. */
  const DefaultStatus: KycStatus := Pending

  datatype KycType = Individual | Corporate {
    function Text(): string
    {
      match this
      case Individual => "individual"
      case Corporate => "corporate"
    }
  }

  datatype Address = Address(street: string, city: string, state: string, country: string, postalCode: string)

  /** A date column: an instant, or the Date built from a submitted date string (parsing is not modelled). */
  datatype DateValue = At(time: int) | FromText(text: string)

  /** The `verificationData` JSON column: the personal details snapshot. */
  datatype PersonalData = PersonalData(
    firstName: string,
    lastName: string,
    dateOfBirth: DateValue,
    nationality: string,
    address: Address,
    phoneNumber: string,
    email: string)

  /** One row of `kyc_verifications`. Optional fields may be absent (NULL). */
  datatype KycVerification = KycVerification(
    id: Id,
    userId: string,
    kind: KycType,
    status: KycStatus,
    documentType: string,
    documentNumber: string,
    documentExpiryDate: int,
    documentFrontUrl: string,
    documentBackUrl: Option<string>,
    selfieUrl: string,
    verificationData: PersonalData,
    riskScore: int,
    riskFactors: seq<string>,
    verificationNotes: Option<string>,
    verifiedBy: Option<string>,
    verifiedAt: Option<int>,
    createdAt: int)

  /** Column defaults for the score and the factor list. */
  const DefaultRiskScore: int := 0
  const DefaultRiskFactors: seq<string> := []

  /** The `riskScore` validator: min 0, max 100. */
  predicate RiskScoreInRange(score: int)
  {
    0 <= score <= 100
  }

  /** The column defaults satisfy the column validator. */
  lemma DefaultsValid()
    ensures RiskScoreInRange(DefaultRiskScore) && DefaultRiskFactors == [] && DefaultStatus == Pending
  {
  }

  /** The unique index on `documentNumber`: no two rows share a document number. */
  ghost predicate DocumentNumbersUnique(vs: seq<KycVerification>)
  {
    forall i, j :: 0 <= i < |vs| && 0 <= j < |vs| && i != j ==> vs[i].documentNumber != vs[j].documentNumber
  }

  /** The primary key: no two rows share an id. */
  ghost predicate IdsUnique(vs: seq<KycVerification>)
  {
    forall i, j :: 0 <= i < |vs| && 0 <= j < |vs| && i != j ==> vs[i].id != vs[j].id
  }

  /** `findOne({ where: { documentNumber } })` finds a row. */
  predicate DocumentNumberTaken(vs: seq<KycVerification>, documentNumber: string)
  {
    exists i :: 0 <= i < |vs| && vs[i].documentNumber == documentNumber
  }

  /** `findByPk(id)` finds a row. */
  predicate HasId(vs: seq<KycVerification>, id: Id)
  {
    exists i :: 0 <= i < |vs| && vs[i].id == id
  }

  /** `findByPk(id)`: the first row carrying the id, if any. */
  function FindById(vs: seq<KycVerification>, id: Id): (found: Option<KycVerification>)
    ensures found.None? ==> forall i :: 0 <= i < |vs| ==> vs[i].id != id
    ensures found.Some? ==> found.value in vs && found.value.id == id
  {
    if vs == [] then None
    else if vs[0].id == id then Some(vs[0])
    else
      var rest := FindById(vs[1..], id);
      assert forall i :: 1 <= i < |vs| ==> vs[i] == vs[1..][i - 1];
      rest
  }

  /** Under the primary key, the row found is the only row carrying the id. */
  lemma FindByIdUnique(vs: seq<KycVerification>, id: Id, i: nat)
    requires IdsUnique(vs) && i < |vs| && vs[i].id == id
    ensures FindById(vs, id) == Some(vs[i])
  {
    var f := FindById(vs, id);
    var k :| 0 <= k < |vs| && vs[k] == f.value;
  }

  /** The ids of a table, in row order. */
  function Ids(vs: seq<KycVerification>): (ids: seq<Id>)
    ensures |ids| == |vs|
    ensures forall i :: 0 <= i < |vs| ==> ids[i] == vs[i].id
  {
    seq(|vs|, i requires 0 <= i < |vs| => vs[i].id)
  }

  /**
   * Appending a row whose document number is fresh keeps the unique index
   * intact; one whose number is taken would break it.
   */
  lemma AppendKeepsDocumentNumbersUnique(vs: seq<KycVerification>, v: KycVerification)
    requires DocumentNumbersUnique(vs)
    ensures DocumentNumbersUnique(vs + [v]) <==> !DocumentNumberTaken(vs, v.documentNumber)
  {
    var ws := vs + [v];
    if DocumentNumberTaken(vs, v.documentNumber) {
      var i :| 0 <= i < |vs| && vs[i].documentNumber == v.documentNumber;
      assert ws[i].documentNumber == ws[|vs|].documentNumber;
    }
  }
}
