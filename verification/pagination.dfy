/**
 * The page arithmetic shared by the list operations
 * (getUserVerifications / getAllVerifications in src/services/kycService.ts,
 * listUserAssessments / listAllAssessments in
 * src/controllers/riskAssessmentController.ts).
 */
module Pagination {
  import opened Wrappers
  import opened ErrorHandling

  /**
   * `parseInt(req.query.x) || fallback`: an absent or unparsable value (NaN,
   * here None) and 0 both take the fallback.
   */
  function QueryParamOr(parsed: Option<int>, fallback: int): (v: int)
    ensures parsed.Some? && parsed.value != 0 ==> v == parsed.value
    ensures parsed.None? || parsed.value == 0 ==> v == fallback
  {
    if parsed.Some? && parsed.value != 0 then parsed.value else fallback
  }

  /** A default parameter (`page: number = 1`): only an omitted argument takes the default. */
  function ArgumentOr(arg: Option<int>, default: int): (v: int)
    ensures arg.Some? ==> v == arg.value
    ensures arg.None? ==> v == default
  {
    if arg.Some? then arg.value else default
  }

  /** `(page - 1) * limit` */
  function Offset(page: int, limit: int): int
  {
    (page - 1) * limit
  }

  /** Ceiling of a quotient with a positive divisor. */
  function CeilDiv(a: nat, b: nat): (q: nat)
    requires b > 0
    ensures (q - 1) * b < a <= q * b
  {
    var q := (a + b - 1) / b;
    var r := (a + b - 1) % b;
    assert a + b - 1 == q * b + r;
    assert (q - 1) * b == q * b - b;
    q
  }

  /**
   * `Math.ceil(count / limit)`. A zero limit divides by zero (Infinity or
   * NaN), which is None here; a negative limit gives a non-positive count.
   */
  function PageCount(count: nat, limit: int): (pages: Option<int>)
    ensures pages.None? <==> limit == 0
    ensures limit > 0 ==> pages.Some? && (pages.value - 1) * limit < count <= pages.value * limit
    ensures limit < 0 ==> pages.Some? && pages.value <= 0
  {
    if limit == 0 then None
    else if limit > 0 then Some(CeilDiv(count, limit))
    else Some(-(count / -limit))
  }

  /** The summary a list operation returns beside its rows. */
  datatype Listing = Listing(total: nat, pages: Option<int>, offset: int)

  /**
   * The Sequelize DatabaseError raised when MySQL rejects the query: its
   * `LIMIT offset, count` clause accepts only non-negative numbers.
   */
  const QueryRejected: ErrorObject := PlainError("Database error")

  /** A page request MySQL can run: neither the offset nor the limit is negative. */
  predicate RunnableWindow(page: int, limit: int)
  {
    Offset(page, limit) >= 0 && limit >= 0
  }

  /**
   * `findAndCountAll({ limit, offset })` followed by `Math.ceil(count / limit)`:
   * the query fails on a negative offset or limit, and otherwise the listing
   * carries the count, the page count and the offset.
   */
  function ListingOf(total: nat, page: int, limit: int): (r: Result<Listing, ErrorObject>)
    ensures r.Failure? <==> (page - 1) * limit < 0 || limit < 0
    ensures r.Failure? ==> r.error == QueryRejected
    ensures r.Success? ==> r.value.total == total && r.value.offset == (page - 1) * limit >= 0
    ensures r.Success? ==> r.value.pages == PageCount(total, limit) && (r.value.pages.None? <==> limit == 0)
  {
    if !RunnableWindow(page, limit) then Failure(QueryRejected)
    else Success(Listing(total, PageCount(total, limit), Offset(page, limit)))
  }

  /** Page 1 and up with a non-negative limit always runs; a page below 1 with a positive limit never does. */
  lemma RunnablePages(page: int, limit: int)
    ensures page >= 1 && limit >= 0 ==> RunnableWindow(page, limit)
    ensures page < 1 && limit > 0 ==> !RunnableWindow(page, limit)
  {
  }

  /**
   * With a positive limit, the pages 1..pages cover every row exactly once:
   * row k lies on page k / limit + 1 and no later page exists for it.
   */
  lemma PagesCoverRows(count: nat, limit: int, k: nat)
    requires limit > 0 && k < count
    ensures var p := k / limit + 1;
      1 <= p <= PageCount(count, limit).value && Offset(p, limit) <= k < Offset(p, limit) + limit
  {
    var p := k / limit + 1;
    var pages := PageCount(count, limit).value;
    assert k == (k / limit) * limit + k % limit;
    assert Offset(p, limit) == (k / limit) * limit;
    MulCancel(limit, p - 1, pages);
  }

  lemma MulCancel(m: int, a: int, b: int)
    requires m > 0 && a * m < b * m
    ensures a < b
  {
    assert (b - a) * m == b * m - a * m;
  }

}
