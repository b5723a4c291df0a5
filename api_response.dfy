/**
 * `ApiResponse` (utils/apiResponse.ts): the envelopes the HTTP handlers reply
 * with. A key the source leaves `undefined` is `None` here.
 */
module ApiResponses {
  import opened Wrappers

  /** `pages` is `None` when `total / limit` is not a finite number (a zero limit). */
  datatype Pagination = Pagination(total: int, page: int, limit: int, pages: Option<int>)

  datatype Response<T, E> = Response(
    success: bool,
    message: Option<string>,
    data: Option<T>,
    errors: Option<E>,
    pagination: Option<Pagination>)

  const DefaultMessage: string := "Success"

  /** `Math.ceil` on an exact quotient. */
  function Ceil(x: real): (c: int)
    ensures x <= c as real < x + 1.0
  {
    -((-x).Floor)
  }

  /** `success(data, message = 'Success')`. */
  function Success<T, E>(data: T, message: Option<string>): (r: Response<T, E>)
    ensures r.success && r.data == Some(data)
    ensures r.message == Some(if message.Some? then message.value else DefaultMessage)
    ensures r.errors.None? && r.pagination.None?
  {
    var text := if message.None? then DefaultMessage else message.value;
    Response(true, Some(text), Some(data), None, None)
  }

  /** `error(message, errors?)`. */
  function Error<T, E>(message: string, errors: Option<E>): (r: Response<T, E>)
    ensures !r.success && r.message == Some(message) && r.errors == errors
    ensures r.data.None? && r.pagination.None?
  {
    Response(false, Some(message), None, errors, None)
  }

  /** `Math.ceil(total / limit)`; there is no page count when the limit is 0. */
  function PageCount(total: int, limit: int): (r: Option<int>)
    ensures r.None? <==> limit == 0
  {
    if limit == 0 then None else Some(Ceil(total as real / limit as real))
  }

  /** `paginated(data, total, page, limit)`. */
  function Paginated<T, E>(data: seq<T>, total: int, page: int, limit: int): (r: Response<seq<T>, E>)
    ensures r.success && r.data == Some(data) && r.message.None? && r.errors.None?
    ensures r.pagination.Some?
    ensures r.pagination.value.total == total
    ensures r.pagination.value.page == page
    ensures r.pagination.value.limit == limit
    ensures r.pagination.value.pages.None? <==> limit == 0
    ensures r.pagination.value.pages == PageCount(total, limit)
  {
    Response(true, None, Some(data), None, Some(Pagination(total, page, limit, PageCount(total, limit))))
  }

  /**
   * With a positive limit, `pages` is the fewest pages that hold `total` items:
   * they hold them all, one page fewer would not, and no items need no pages.
   */
  lemma PagesCoverTotal(total: nat, limit: int)
    requires limit > 0
    ensures PageCount(total, limit).Some?
    ensures PageCount(total, limit).value * limit >= total
    ensures total > 0 ==> (PageCount(total, limit).value - 1) * limit < total
    ensures total == 0 ==> PageCount(total, limit).value == 0
  {
    var q := total as real / limit as real;
    var c := PageCount(total, limit).value;
    assert c as real * limit as real >= q * limit as real == total as real;
    assert (c - 1) as real * limit as real < q * limit as real;
  }

  /** With a positive limit, the page count is the integer ceiling division `(total + limit - 1) / limit`. */
  lemma PagesIsCeilingDivision(total: nat, limit: int)
    requires limit > 0
    ensures PageCount(total, limit) == Some((total + limit - 1) / limit)
  {
    PagesCoverTotal(total, limit);
    var d := (total + limit - 1) / limit;
    var r := (total + limit - 1) % limit;
    assert d * limit + r == total + limit - 1 && 0 <= r < limit;
    assert (d - 1) * limit == d * limit - limit;
    if total == 0 {
      assert d == 0;
    } else {
      CeilingIsUnique(total, limit, PageCount(total, limit).value, d);
    }
  }

  /** At most one page count `c` has `(c - 1) * limit < total <= c * limit`. */
  lemma CeilingIsUnique(total: int, limit: int, c: int, d: int)
    requires limit > 0
    requires (c - 1) * limit < total <= c * limit
    requires (d - 1) * limit < total <= d * limit
    ensures c == d
  {
    if c < d {
      MulMonotone(c, d - 1, limit);
    } else if d < c {
      MulMonotone(d, c - 1, limit);
    }
  }

  lemma MulMonotone(a: int, b: int, m: int)
    requires a <= b && m > 0
    ensures a * m <= b * m
  {
  }
}
