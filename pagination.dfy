/**
 * The list endpoints' paging arithmetic: `page = parseInt(q.page) || 1`,
 * `limit = parseInt(q.limit) || 10`, `skip = (page - 1) * limit` and
 * `totalPages = Math.ceil(total / limit)`.
 */
module Pagination {
  import opened Wrappers

  /** `parseInt(raw) || fallback`: a missing or unparsable value (NaN, here None) and 0 both fall back. */
  function OrDefault(parsed: Option<int>, fallback: int): (r: int)
    ensures parsed.Some? && parsed.value != 0 ==> r == parsed.value
    ensures parsed.None? || parsed.value == 0 ==> r == fallback
  {
    if parsed.Some? && parsed.value != 0 then parsed.value else fallback
  }

  /** `Math.ceil(n / d)` for integers, `d` not zero. */
  function CeilDiv(n: int, d: int): (r: int)
    requires d != 0
    ensures d > 0 ==> (r - 1) * d < n <= r * d
    ensures d < 0 ==> r * d <= n < (r - 1) * d
  {
    if d > 0 then -((-n) / d) else -(n / -d)
  }

  datatype Window = Window(page: int, limit: int, skip: int)

  /** The page window a list request asks for. */
  function Request(pageParam: Option<int>, limitParam: Option<int>): (w: Window)
    ensures w.page == OrDefault(pageParam, 1) && w.limit == OrDefault(limitParam, 10)
    ensures w.page != 0 && w.limit != 0
    ensures w.skip == (w.page - 1) * w.limit
  {
    var page := OrDefault(pageParam, 1);
    var limit := OrDefault(limitParam, 10);
    Window(page, limit, (page - 1) * limit)
  }

  /** `Math.ceil(total / limit)`. */
  function TotalPages(total: nat, limit: int): (n: int)
    requires limit != 0
    ensures limit > 0 ==> n >= 0 && (n - 1) * limit < total <= n * limit
  {
    CeilDiv(total, limit)
  }

  /** With a positive limit, the pages before the last are full and the last page is not empty. */
  lemma LastPageNonEmpty(total: nat, limit: int)
    requires limit > 0 && total > 0
    ensures 0 < total - (TotalPages(total, limit) - 1) * limit <= limit
  {
  }

  /** Multiplying by a positive limit keeps the order. */
  lemma ScaleMonotone(a: int, b: int, limit: int)
    requires a <= b && limit > 0
    ensures a * limit <= b * limit
  {
    assert b * limit - a * limit == (b - a) * limit;
  }

  /** With positive parameters, a page comes before the last exactly when some result lies
   *  past it. */
  lemma BeforeLastIffMore(total: nat, page: int, limit: int)
    requires page > 0 && limit > 0
    ensures page < TotalPages(total, limit) <==> page * limit < total
  {
    var pages := TotalPages(total, limit);
    if page < pages {
      ScaleMonotone(page, pages - 1, limit);
    } else {
      ScaleMonotone(pages, page, limit);
    }
  }

  /** Positive parameters are taken as given, and their skip is not negative. */
  lemma PositiveRequest(page: int, limit: int)
    requires page > 0 && limit > 0
    ensures Request(Some(page), Some(limit)) == Window(page, limit, (page - 1) * limit)
    ensures (page - 1) * limit >= 0
  {
    ScaleMonotone(0, page - 1, limit);
  }

  /** The defaults: no parameters ask for the first ten items. */
  lemma DefaultWindow()
    ensures Request(None, None) == Window(1, 10, 0)
  {
  }
}
