/**
 * The paging arithmetic of the server's user list: input validation with
 * defaults, the row offset of a page, and the page count returned to the
 * client. The database query itself is a parameter: only the row count it
 * reports enters the model.
 */
module UserPagination {
  import opened Wrappers

  const DefaultLimit := 10
  const MaxLimit := 100
  const DefaultPage := 1

  /** The request as sent: either field may be left out. */
  datatype ListInput = ListInput(limit: Option<int>, page: Option<int>)

  datatype Validated = Accepted(limit: int, page: int) | Rejected

  /** The input schema: `limit` in 1..100 defaulting to 10, `page` at least 1 defaulting to 1. */
  function Validate(input: ListInput): (r: Validated)
    ensures r.Accepted? <==> 1 <= input.limit.GetOr(DefaultLimit) <= MaxLimit && input.page.GetOr(DefaultPage) >= 1
    ensures r.Accepted? ==> 1 <= r.limit <= MaxLimit && r.page >= 1
    ensures r.Accepted? ==> r.limit == input.limit.GetOr(DefaultLimit) && r.page == input.page.GetOr(DefaultPage)
  {
    var limit := input.limit.GetOr(DefaultLimit);
    var page := input.page.GetOr(DefaultPage);
    if 1 <= limit <= MaxLimit && page >= 1 then Accepted(limit, page) else Rejected
  }

  /** An empty request is accepted with the defaults. */
  lemma EmptyRequestDefaults()
    ensures Validate(ListInput(None, None)) == Accepted(10, 1)
  {
  }

  /** `(page - 1) * limit`: the rows of earlier pages. */
  function Offset(limit: int, page: int): (r: int)
    requires limit >= 1 && page >= 1
    ensures r >= 0
    ensures page == 1 <==> r == 0
  {
    (page - 1) * limit
  }

  /** `Math.ceil(total / limit)` for a non-negative total: the fewest pages of `limit` rows that hold every row. */
  function TotalPages(total: int, limit: int): (r: int)
    requires total >= 0 && limit >= 1
    ensures (r - 1) * limit < total <= r * limit
  {
    var r := (total + limit - 1) / limit;
    CeilingQuotient(total, limit);
    r
  }

  lemma CeilingQuotient(total: int, limit: int)
    requires total >= 0 && limit >= 1
    ensures var q := (total + limit - 1) / limit;
            (q - 1) * limit < total <= q * limit
  {
    var n := total + limit - 1;
    var q := n / limit;
    assert n == q * limit + n % limit;
  }

  /** The page count is the only number of pages meeting that bound. */
  lemma TotalPagesIsCeiling(total: int, limit: int, r: int)
    requires total >= 0 && limit >= 1
    ensures r == TotalPages(total, limit) <==> (r - 1) * limit < total <= r * limit
  {
    var q := TotalPages(total, limit);
    if r != q {
      if r < q {
        assert (q - r) * limit >= limit by { MulMono(q - r, limit); }
        assert r * limit <= q * limit - limit;
      } else {
        assert (r - q) * limit >= limit by { MulMono(r - q, limit); }
        assert (r - 1) * limit >= q * limit;
      }
    }
  }

  lemma MulMono(t: int, b: int)
    requires t >= 1 && b >= 1
    ensures t * b >= b
  {
    assert t * b == (t - 1) * b + b;
    assert (t - 1) * b >= 0;
  }

  /** No rows, no pages; otherwise at least one. */
  lemma TotalPagesZeroIffNoRows(total: int, limit: int)
    requires total >= 0 && limit >= 1
    ensures TotalPages(total, limit) == 0 <==> total == 0
  {
    TotalPagesIsCeiling(total, limit, TotalPages(total, limit));
  }

  /** Products with a positive factor keep strict order. */
  lemma MulLtCancel(a: int, b: int, c: int)
    requires c >= 1 && a * c < b * c
    ensures a < b
  {
    assert (b - a) * c == b * c - a * c > 0;
  }

  /** The block of `limit` rows that holds `row` is block `row / limit`. */
  lemma DivUnique(row: int, limit: int, k: int)
    requires limit >= 1 && k * limit <= row < k * limit + limit
    ensures row / limit == k
  {
    var q := row / limit;
    assert q * limit <= row < q * limit + limit;
    MulLtCancel(k, q + 1, limit);
    MulLtCancel(q, k + 1, limit);
  }

  /** Every row is on exactly one of the pages `1..totalPages`, the page `row / limit + 1`. */
  lemma RowOnItsPage(row: int, total: int, limit: int)
    requires 0 <= row < total && limit >= 1
    ensures var p := row / limit + 1;
            && 1 <= p <= TotalPages(total, limit)
            && Offset(limit, p) <= row < Offset(limit, p) + limit
    ensures forall q :: 1 <= q && Offset(limit, q) <= row < Offset(limit, q) + limit ==> q == row / limit + 1
  {
    var p := row / limit + 1;
    var tp := TotalPages(total, limit);
    TotalPagesIsCeiling(total, limit, tp);
    assert (p - 1) * limit <= row < (p - 1) * limit + limit;
    MulLtCancel(p - 1, tp, limit);
    forall q | 1 <= q && Offset(limit, q) <= row < Offset(limit, q) + limit
      ensures q == p
    {
      DivUnique(row, limit, q - 1);
    }
  }

  datatype Pagination = Pagination(limit: int, page: int, total: int, totalPages: int)

  /** The rows to fetch and the `pagination` object returned. */
  datatype ListPlan = ListPlan(fetchLimit: int, fetchOffset: int, pagination: Pagination)

  /**
   * The handler for an accepted input; `count` is the row the count query
   * returned, missing when it returned none.
   */
  function List(limit: int, page: int, count: Option<int>): (r: ListPlan)
    requires 1 <= limit <= MaxLimit && page >= 1
    requires count.Some? ==> count.value >= 0
    ensures r.fetchLimit == r.pagination.limit == limit && r.pagination.page == page
    ensures r.fetchOffset == Offset(limit, page)
    ensures r.pagination.total == count.GetOr(0)
    ensures count.None? ==> r.pagination.total == 0 && r.pagination.totalPages == 0
  {
    var total := count.GetOr(0);
    ListPlan(limit, (page - 1) * limit, Pagination(limit, page, total, TotalPages(total, limit)))
  }

  /** The pages the response announces hold every counted row and no wholly empty page. */
  lemma PagesCoverRows(limit: int, page: int, count: int)
    requires 1 <= limit <= MaxLimit && page >= 1 && count >= 0
    ensures var p := List(limit, page, Some(count)).pagination;
            p.totalPages * limit >= p.total && (p.total > 0 ==> (p.totalPages - 1) * limit < p.total)
  {
    TotalPagesIsCeiling(count, limit, TotalPages(count, limit));
  }
}
