/**
  The pagination request record (`Pagination`), its `offset` property, the
  response envelope (`PaginationOut`) and the query-parameter dependency that
  builds a request from `page`, `per_page` and `order`.
*/
module Pagination {
  import opened Errors

  datatype Order = Asc | Desc

  /** The record does not bound its fields; only the dependency below does. */
  datatype Pagination = Pagination(page: int, perPage: int, order: Order)

  datatype PaginationOut = PaginationOut(total: int, count: int, page: int, pages: int)

  /** `order` defaults to ascending when the record is built without one. */
  const DefaultOrder: Order := Asc

  const DefaultPage: int := 1
  const DefaultPerPage: int := 50
  const MinPage: int := 1
  const MinPerPage: int := 1
  const MaxPerPage: int := 1000

  function OrderValue(o: Order): string {
    match o
    case Asc => "asc"
    case Desc => "desc"
  }

  /** Enum validation of the `order` query parameter. */
  function ParseOrder(s: string): (r: Option<Order>)
    ensures r.Some? <==> s == "asc" || s == "desc"
    ensures r.Some? ==> OrderValue(r.value) == s
  {
    if s == "asc" then Some(Asc) else if s == "desc" then Some(Desc) else None
  }

  lemma OrderRoundTrip(o: Order)
    ensures ParseOrder(OrderValue(o)) == Some(o)
  {
  }

  /** The `offset` property: no offset on the first page, `(page - 1) * per_page` otherwise. */
  function Offset(p: Pagination): Option<int> {
    if p.page != 1 then Some((p.page - 1) * p.perPage) else None
  }

  /** `pagination.offset or 0`, as the repository applies it. */
  function OffsetOrZero(p: Pagination): (n: int)
    ensures p.page >= 1 && p.perPage >= 1 ==> n >= 0
  {
    if p.page >= 2 && p.perPage >= 1 then
      LaterPageOffsetIsPositiveMultiple(p);
      Offset(p).value
    else
      match Offset(p)
      case None => 0
      case Some(n) => n
  }

  lemma FirstPageHasNoOffset(p: Pagination)
    ensures Offset(p).None? <==> p.page == 1
    ensures p.page != 1 ==> Offset(p) == Some((p.page - 1) * p.perPage)
  {
  }

  lemma ThirdPageOfTenStartsAtTwenty()
    ensures Offset(Pagination(3, 10, Asc)) == Some(20)
  {
  }

  /** From the second page on, the offset is a positive whole number of pages, so never 0. */
  lemma {:induction false} LaterPageOffsetIsPositiveMultiple(p: Pagination)
    requires p.page >= 2 && p.perPage >= 1
    ensures Offset(p).Some?
    ensures Offset(p).value > 0
    ensures Offset(p).value % p.perPage == 0
    ensures Offset(p).value / p.perPage == p.page - 1
  {
    var k := p.page - 1;
    assert k >= 1;
    assert Offset(p).value == k * p.perPage;
    MulPositive(k, p.perPage);
    MulDivMod(k, p.perPage);
  }

  lemma {:induction false} MulPositive(k: int, n: int)
    requires k >= 1 && n >= 1
    ensures k * n >= n
  {
    if k > 1 {
      MulPositive(k - 1, n);
      assert k * n == (k - 1) * n + n;
    }
  }

  lemma MulDivMod(k: int, n: int)
    requires n >= 1
    ensures (k * n) % n == 0 && (k * n) / n == k
  {
    var q, m := (k * n) / n, (k * n) % n;
    assert k * n == q * n + m && 0 <= m < n;
    assert (k - q) * n == m;
    if k - q >= 1 {
      MulPositive(k - q, n);
    } else if k - q <= -1 {
      MulPositive(q - k, n);
    }
  }

  /** Consecutive pages start exactly one page size apart, reading `None` as 0. */
  lemma SuccessivePagesDifferByPageSize(p: Pagination)
    requires p.page >= 1
    ensures OffsetOrZero(p.(page := p.page + 1)) == OffsetOrZero(p) + p.perPage
  {
    if p.page == 1 {
      assert OffsetOrZero(p.(page := 2)) == p.perPage;
    } else {
      assert (p.page + 1 - 1) * p.perPage == (p.page - 1) * p.perPage + p.perPage;
    }
  }

  /** The record alone does not forbid pages below 1: they give a negative offset. */
  lemma NonPositivePageGivesNegativeOffset(p: Pagination)
    requires p.page <= 0 && p.perPage >= 1
    ensures Offset(p).Some? && Offset(p).value < 0
  {
    assert (p.page - 1) * p.perPage <= (p.page - 1) * 1;
  }

  /** What the dependency accepts: `page >= 1` and `1 <= per_page <= 1000`. */
  predicate AcceptedPage(page: int) {
    page >= MinPage
  }

  predicate AcceptedPerPage(perPage: int) {
    MinPerPage <= perPage <= MaxPerPage
  }

  /**
    `generate_pagination_query_params`: each query parameter is optional and
    falls back to its default; a value outside its bounds (or an order name
    other than `asc`/`desc`) is a 422 on that parameter. The framework reports
    every bad field at once; this model names the first in declaration order.
  */
  function GeneratePaginationQueryParams(page: Option<int>, perPage: Option<int>, order: Option<string>): (r: Result<Pagination>)
    ensures r.Ok? <==>
      AcceptedPage(page.GetOr(DefaultPage)) &&
      AcceptedPerPage(perPage.GetOr(DefaultPerPage)) &&
      (order.None? || ParseOrder(order.value).Some?)
    ensures r.Ok? ==>
      r.value.page == page.GetOr(DefaultPage) &&
      r.value.perPage == perPage.GetOr(DefaultPerPage) &&
      (order.None? ==> r.value.order == DefaultOrder) &&
      (order.Some? ==> OrderValue(r.value.order) == order.value)
    ensures r.Err? ==> r.error.ValidationError?
    ensures !AcceptedPage(page.GetOr(DefaultPage)) ==> r == Err(ValidationError("page"))
  {
    var pg := page.GetOr(DefaultPage);
    var pp := perPage.GetOr(DefaultPerPage);
    if !AcceptedPage(pg) then Err(ValidationError("page"))
    else if !AcceptedPerPage(pp) then Err(ValidationError("per_page"))
    else match order
      case None => Ok(Pagination(pg, pp, DefaultOrder))
      case Some(name) =>
        match ParseOrder(name)
        case None => Err(ValidationError("order"))
        case Some(o) => Ok(Pagination(pg, pp, o))
  }

  lemma DefaultsArePageOneFiftyAscending()
    ensures GeneratePaginationQueryParams(None, None, None) == Ok(Pagination(1, 50, Asc))
  {
  }

  /** Every request the dependency lets through starts at a non-negative offset and has a usable page size. */
  lemma AcceptedRequestIsUsable(page: Option<int>, perPage: Option<int>, order: Option<string>)
    requires GeneratePaginationQueryParams(page, perPage, order).Ok?
    ensures var p := GeneratePaginationQueryParams(page, perPage, order).value;
      p.page >= 1 && 1 <= p.perPage <= 1000 && OffsetOrZero(p) >= 0
  {
    var p := GeneratePaginationQueryParams(page, perPage, order).value;
    if p.page > 1 {
      LaterPageOffsetIsPositiveMultiple(p);
    }
  }
}
