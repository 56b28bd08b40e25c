/**
 * The evidence document record (src/models/Document.ts): type and status
 * enumerations, fields and column constraints.
 */
module DocumentModel {
  import opened Wrappers
  import opened KycVerificationModel

  datatype DocumentType = IdCard | Passport | DriversLicense | UtilityBill | BankStatement | Selfie | Other {
    function Text(): string
    {
      match this
      case IdCard => "id_card"
      case Passport => "passport"
      case DriversLicense => "drivers_license"
      case UtilityBill => "utility_bill"
      case BankStatement => "bank_statement"
      case Selfie => "selfie"
      case Other => "other"
    }
  }

  datatype DocumentStatus = DocPending | Verified | DocRejected | DocExpired {
    function Text(): string
    {
      match this
      case DocPending => "pending"
      case Verified => "verified"
      case DocRejected => "rejected"
      case DocExpired => "expired"
    }
  }

  /** The ENUM column for the type: exactly the seven strings. */
  function ParseDocumentType(text: string): (t: Option<DocumentType>)
    ensures t.Some? ==> t.value.Text() == text
  {
    if text == "id_card" then Some(IdCard)
    else if text == "passport" then Some(Passport)
    else if text == "drivers_license" then Some(DriversLicense)
    else if text == "utility_bill" then Some(UtilityBill)
    else if text == "bank_statement" then Some(BankStatement)
    else if text == "selfie" then Some(Selfie)
    else if text == "other" then Some(Other)
    else None
  }

  /** The ENUM column for the status: exactly the four strings. */
  function ParseDocumentStatus(text: string): (s: Option<DocumentStatus>)
    ensures s.Some? ==> s.value.Text() == text
  {
    if text == "pending" then Some(DocPending)
    else if text == "verified" then Some(Verified)
    else if text == "rejected" then Some(DocRejected)
    else if text == "expired" then Some(DocExpired)
    else None
  }

  /** Every type and status is stored as a string that parses back to it. */
  lemma EnumTextRoundTrip(t: DocumentType, s: DocumentStatus)
    ensures ParseDocumentType(t.Text()) == Some(t)
    ensures ParseDocumentStatus(s.Text()) == Some(s)
  {
  }

  const DefaultDocumentStatus: DocumentStatus := DocPending

  /** The `metadata` JSON column. */
  datatype DocumentMetadata = DocumentMetadata(
    originalName: string,
    uploadDate: int,
    expiryDate: Option<int>,
    documentNumber: Option<string>,
    issuingCountry: Option<string>,
    issuingAuthority: Option<string>)

  /** One row of `documents`; every row references its verification. */
  datatype Document = Document(
    id: Id,
    userId: string,
    kycVerificationId: Id,
    kind: DocumentType,
    status: DocumentStatus,
    fileName: string,
    fileUrl: string,
    fileSize: int,
    mimeType: string,
    metadata: DocumentMetadata,
    verificationNotes: Option<string>,
    verifiedBy: Option<string>,
    verifiedAt: Option<int>)

  /** The `fileSize` validator: min 0. */
  predicate FileSizeValid(d: Document)
  {
    d.fileSize >= 0
  }

  /**
   * A document not yet reviewed is pending and carries no reviewer and no
   * review time; a reviewed one carries both.
   */
  predicate ReviewFieldsConsistent(d: Document)
  {
    && (d.status == DocPending <==> d.verifiedBy.None?)
    && (d.verifiedBy.None? <==> d.verifiedAt.None?)
  }
}
