/**
 * The application error object and the response the error-handling middleware
 * chooses for it (src/utils/errorHandler.ts).
 */
module ErrorHandling {
  import opened Wrappers

  /** Decimal text of a natural number, most significant digit first (template literal `${n}`). */
  function NatText(n: nat): (s: string)
    ensures |s| > 0
    ensures forall i :: 0 <= i < |s| ==> '0' <= s[i] <= '9'
    decreases n
  {
    if n < 10 then [Digit(n)] else NatText(n / 10) + [Digit(n % 10)]
  }

  function Digit(d: nat): (c: char)
    requires d < 10
    ensures '0' <= c <= '9' && c as int - '0' as int == d
  {
    ('0' as int + d) as char
  }

  /** JavaScript's conversion of an integer to its decimal string. */
  function DecimalText(n: int): (s: string)
    ensures |s| > 0
    ensures n < 0 <==> s[0] == '-'
  {
    if n < 0 then "-" + NatText(-n) else NatText(n)
  }

  /** The most significant decimal digit of `n`. */
  function LeadingDigit(n: nat): (d: nat)
    ensures d < 10
    ensures n > 0 ==> d > 0
    decreases n
  {
    if n < 10 then n else LeadingDigit(n / 10)
  }

  /** `${statusCode}`.startsWith('4') ? 'fail' : 'error' */
  function StatusClass(statusCode: int): string
  {
    if DecimalText(statusCode)[0] == '4' then "fail" else "error"
  }

  /**
   * A thrown JavaScript error as the middleware sees it. An AppError carries a
   * code, a status and isOperational = true; any other Error (a database
   * constraint violation, a TypeError) carries none of them.
   */
  datatype ErrorObject = ErrorObject(
    message: string,
    statusCode: Option<int>,
    status: Option<string>,
    isOperational: bool)

  /** `new AppError(message, statusCode)` */
  function AppError(message: string, statusCode: int): (e: ErrorObject)
    ensures e.message == message && e.statusCode == Some(statusCode)
    ensures e.isOperational
    ensures e.status == Some(if statusCode >= 0 && LeadingDigit(statusCode) == 4 then "fail" else "error")
  {
    StatusClassByLeadingDigit(statusCode);
    ErrorObject(message, Some(statusCode), Some(StatusClass(statusCode)), true)
  }

  /** An error that is not an AppError: no code, no status, not operational. */
  function PlainError(message: string): (e: ErrorObject)
    ensures e.message == message && !e.isOperational
    ensures e.statusCode.None? && e.status.None?
  {
    ErrorObject(message, None, None, false)
  }

  /** The first character of the decimal text of a natural number is its leading digit. */
  lemma {:induction false} NatTextHead(n: nat)
    ensures NatText(n)[0] == Digit(LeadingDigit(n))
    decreases n
  {
    if n >= 10 {
      NatTextHead(n / 10);
    }
  }

  /** The status is 'fail' exactly for non-negative codes whose leading digit is 4. */
  lemma StatusClassByLeadingDigit(statusCode: int)
    ensures StatusClass(statusCode) == "fail" <==> statusCode >= 0 && LeadingDigit(statusCode) == 4
    ensures StatusClass(statusCode) == "fail" || StatusClass(statusCode) == "error"
  {
    if statusCode >= 0 {
      NatTextHead(statusCode);
    }
  }

  /**
   * Every code from 400 to 499 is classified 'fail'; so, by the same
   * leading-digit test, are 4, 40..49 and 4000..4999.
   */
  lemma ClientErrorCodesFail(statusCode: int)
    requires 400 <= statusCode < 500 || 40 <= statusCode < 50 || 4000 <= statusCode < 5000 || statusCode == 4
    ensures AppError("", statusCode).status == Some("fail")
  {
    if 400 <= statusCode < 500 {
      assert LeadingDigit(statusCode) == LeadingDigit(statusCode / 10) == LeadingDigit(statusCode / 10 / 10);
    } else if 40 <= statusCode < 50 {
      assert LeadingDigit(statusCode) == LeadingDigit(statusCode / 10);
    } else if 4000 <= statusCode < 5000 {
      assert LeadingDigit(statusCode) == LeadingDigit(statusCode / 10) == LeadingDigit(statusCode / 10 / 10)
        == LeadingDigit(statusCode / 10 / 10 / 10);
    }
  }

  /** Codes from 500 to 599 (the 503 of an unavailable verifier among them) are classified 'error'. */
  lemma ServerErrorCodesError(statusCode: int)
    requires 500 <= statusCode < 600
    ensures AppError("", statusCode).status == Some("error")
  {
    assert LeadingDigit(statusCode) == LeadingDigit(statusCode / 10) == LeadingDigit(statusCode / 10 / 10);
  }

  /** The shape of the JSON body the middleware sends. */
  datatype Body =
    | DevelopmentBody(status: string, error: ErrorObject, message: string)
    | ProductionBody(status: string, message: string)

  datatype Response = Response(statusCode: int, body: Body)

  /**
   * The error object after the middleware's in-place defaulting:
   * `statusCode || 500` and `status || 'error'` (0 and '' are falsy too).
   */
  function WithDefaults(err: ErrorObject): (e: ErrorObject)
    ensures e.statusCode.Some? && e.statusCode.value != 0
    ensures e.status.Some? && e.status.value != ""
    ensures err.statusCode.Some? && err.statusCode.value != 0 ==> e.statusCode == err.statusCode
    ensures err.statusCode.None? || err.statusCode.value == 0 ==> e.statusCode == Some(500)
    ensures err.status.Some? && err.status.value != "" ==> e.status == err.status
    ensures err.status.None? || err.status.value == "" ==> e.status == Some("error")
    ensures e.message == err.message && e.isOperational == err.isOperational
  {
    var code := if err.statusCode.Some? && err.statusCode.value != 0 then err.statusCode.value else 500;
    var status := if err.status.Some? && err.status.value != "" then err.status.value else "error";
    err.(statusCode := Some(code), status := Some(status))
  }

  /**
   * `errorHandler(err, req, res)`: the response chosen for a thrown error. In
   * development every error is shown with its own code (or 500); in
   * production only operational errors are, and anything else becomes an
   * opaque 500.
   */
  function HandleError(err: ErrorObject, development: bool): (res: Response)
    ensures res.statusCode != 0 && res.body.status != ""
    ensures development || err.isOperational ==>
      res.statusCode == (if err.statusCode.Some? && err.statusCode.value != 0 then err.statusCode.value else 500)
      && res.body.status == (if err.status.Some? && err.status.value != "" then err.status.value else "error")
      && res.body.message == err.message
    ensures development <==> res.body.DevelopmentBody?
    ensures development ==> res.body.error.message == err.message && res.body.error.isOperational == err.isOperational
    ensures !development && !err.isOperational ==> res == Response(500, ProductionBody("error", "Something went wrong"))
  {
    var e := WithDefaults(err);
    if development then
      Response(e.statusCode.value, DevelopmentBody(e.status.value, e, e.message))
    else if e.isOperational then
      Response(e.statusCode.value, ProductionBody(e.status.value, e.message))
    else
      Response(500, ProductionBody("error", "Something went wrong"))
  }

  /**
   * Outside development, an AppError is answered with its own code, status and
   * message, and any other error with 500 and a fixed message that hides it.
   */
  lemma ProductionResponses(err: ErrorObject)
    ensures err.isOperational && err.statusCode.Some? && err.statusCode.value != 0 ==>
      HandleError(err, false).statusCode == err.statusCode.value &&
      HandleError(err, false).body.message == err.message
    ensures !err.isOperational ==>
      HandleError(err, false) == Response(500, ProductionBody("error", "Something went wrong"))
  {
  }

  /** Every AppError reaches the client, in production, with its own code and its classified status. */
  lemma AppErrorResponse(message: string, statusCode: int)
    requires statusCode != 0
    ensures HandleError(AppError(message, statusCode), false) ==
      Response(statusCode, ProductionBody(StatusClass(statusCode), message))
  {
  }

  /** In development the code is the error's own (or 500) whatever isOperational says. */
  lemma DevelopmentKeepsCode(err: ErrorObject)
    ensures HandleError(err, true).statusCode ==
      (if err.statusCode.Some? && err.statusCode.value != 0 then err.statusCode.value else 500)
  {
  }
}
