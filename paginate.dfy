/**
 * pkg/paginate: page/limit normalisation, page-count arithmetic and the gin
 * middleware that parses the query string.
 */
module Paginate {
  import opened Wrappers
  import opened Text

  const DefaultLimit: int := 10
  const MaxLimit: int := 1000
  const DefaultPage: int := 1
  const ErrInvalidLimit: string := "limit must be between 1 and 1000"

  datatype Pagination = Pagination(
    limit: int, page: int, totalItems: int, totalPages: int,
    nextPage: int, prevPage: int, hasNext: bool, hasPrev: bool)

  /** Options: what the middleware stores in the contexts. */
  datatype Options = Options(page: int, limit: int, orderBy: string)

  /** math.Ceil(float64(a) / float64(b)) for b > 0, read as exact integer ceiling division. */
  function CeilDiv(a: int, b: int): (q: int)
    requires b > 0
    ensures (q - 1) * b < a <= q * b
  {
    var f := (-a) / b;
    assert f * b <= -a < f * b + b;
    -f
  }

  /** Ceiling division is the unique integer with that bracketing property. */
  lemma CeilDivUnique(a: int, b: int, q: int)
    requires b > 0 && (q - 1) * b < a <= q * b
    ensures q == CeilDiv(a, b)
  {
  }

  function NewPagination(page: int, limit: int, totalItems: int): (p: Pagination)
    ensures page >= 1 ==> p.page == page
    ensures page < 1 ==> p.page == DefaultPage
    ensures 1 <= limit <= MaxLimit ==> p.limit == limit
    ensures !(1 <= limit <= MaxLimit) ==> p.limit == DefaultLimit
    ensures p.totalItems == totalItems
    ensures totalItems <= 0 ==> p.totalPages == 1
    ensures totalItems > 0 ==> (p.totalPages - 1) * p.limit < totalItems <= p.totalPages * p.limit
    ensures p.hasNext <==> p.page < p.totalPages
    ensures p.hasPrev <==> p.page > 1
    ensures p.nextPage == (if p.hasNext then p.page + 1 else 0)
    ensures p.prevPage == (if p.hasPrev then p.page - 1 else 0)
  {
    var pg := if page < 1 then DefaultPage else page;
    var lim := if limit < 1 || limit > MaxLimit then DefaultLimit else limit;
    var total := if totalItems > 0 then CeilDiv(totalItems, lim) else 1;
    var hasNext := pg < total;
    var hasPrev := pg > 1;
    Pagination(lim, pg, totalItems, total,
      if hasNext then pg + 1 else 0, if hasPrev then pg - 1 else 0, hasNext, hasPrev)
  }

  /** GetOffset: the rows skipped before a page, computed in Go's 64-bit int. */
  function GetOffset(page: int, limit: int): (offset: int)
    ensures InInt64(offset)
    ensures page >= 1 && limit >= 1 && (page - 1) * limit <= MaxInt64 ==> offset == (page - 1) * limit
    ensures page < 1 || limit < 1 ==> offset == 0
    ensures page >= 1 && limit >= 1 ==> (offset - (page - 1) * limit) % TwoTo64 == 0
  {
    if page < 1 || limit < 1 then 0 else WrapInt64((page - 1) * limit)
  }

  /** Any int64 congruent to (page-1)*limit modulo 2^64 is the offset Go computes. */
  lemma GetOffsetUnique(page: int, limit: int, o: int)
    requires page >= 1 && limit >= 1
    requires InInt64(o) && (o - (page - 1) * limit) % TwoTo64 == 0
    ensures o == GetOffset(page, limit)
  {
    WrapUnique((page - 1) * limit, o);
  }

  /** The package's offset table. */
  lemma OffsetExamples()
    ensures GetOffset(1, 10) == 0 && GetOffset(2, 10) == 10 && GetOffset(3, 25) == 50
    ensures GetOffset(0, 10) == 0 && GetOffset(-1, 10) == 0 && GetOffset(1, 0) == 0 && GetOffset(1, -5) == 0
  {
  }

  /**
   * A page that GinPagination accepts but whose offset leaves the int range:
   * the product wraps and the offset handed to the query is negative.
   */
  lemma OffsetWrapsPastInt64()
    ensures GinPagination(map["page" := "9223372036854775807"]).Continue?
    ensures GetOffset(MaxInt64, DefaultLimit) == -20
  {
    assert MaxInt64 - 1 > 0;
    assert (MaxInt64 - 1) * DefaultLimit == 5 * TwoTo64 - 20;
  }

  /** Every page of a non-empty listing starts inside it, and the last page reaches its end. */
  lemma {:induction false} PagesCoverItems(page: int, limit: int, totalItems: int, k: int)
    requires 0 < totalItems <= MaxInt64
    requires 1 <= k <= NewPagination(page, limit, totalItems).totalPages
    ensures var p := NewPagination(page, limit, totalItems);
      GetOffset(k, p.limit) < totalItems
      && GetOffset(p.totalPages, p.limit) + p.limit >= totalItems
  {
    var p := NewPagination(page, limit, totalItems);
    OffsetsWithin(k, p.totalPages, p.limit, totalItems);
  }

  /** With n pages of lim items covering total, every page's offset is exact and inside the listing. */
  lemma OffsetsWithin(k: int, n: int, lim: int, total: int)
    requires 1 <= k <= n && lim >= 1 && (n - 1) * lim < total <= n * lim && total <= MaxInt64
    ensures GetOffset(k, lim) < total && GetOffset(n, lim) + lim >= total
  {
    MulMonotone(k - 1, n - 1, lim);
    assert GetOffset(k, lim) == (k - 1) * lim;
    assert GetOffset(n, lim) == (n - 1) * lim;
  }

  lemma MulMonotone(x: int, y: int, m: int)
    requires 0 <= x <= y && m >= 1
    ensures 0 <= x * m <= y * m
  {
  }

  /** The page count of NewPagination is CalculateTotalPages for the normalised limit. */
  lemma NewPaginationTotalPages(page: int, limit: int, totalItems: int)
    requires totalItems > 0
    ensures NewPagination(page, limit, totalItems).totalPages
         == CalculateTotalPages(totalItems, NewPagination(page, limit, totalItems).limit)
  {
    var p := NewPagination(page, limit, totalItems);
    CeilDivUnique(totalItems, p.limit, p.totalPages);
  }

  /** ValidateOptions: (page, limit) or ErrInvalidLimit. */
  function ValidateOptions(page: int, limit: int): (r: Result<(int, int), string>)
    ensures r.Ok? <==> 1 <= limit <= MaxLimit
    ensures r.Err? ==> r.error == ErrInvalidLimit
    ensures r.Ok? ==> r.value.1 == limit && r.value.0 == (if page < 1 then DefaultPage else page)
  {
    if limit < 1 || limit > MaxLimit then Err(ErrInvalidLimit)
    else Ok((if page < 1 then DefaultPage else page, limit))
  }

  /** On the limits it accepts, ValidateOptions normalises exactly as NewPagination does. */
  lemma ValidateAgreesWithNewPagination(page: int, limit: int, totalItems: int)
    requires ValidateOptions(page, limit).Ok?
    ensures ValidateOptions(page, limit).value
         == (NewPagination(page, limit, totalItems).page, NewPagination(page, limit, totalItems).limit)
  {
  }

  function CalculateTotalPages(totalItems: int, itemsPerPage: int): (n: int)
    ensures itemsPerPage <= 0 ==> n == 0
    ensures itemsPerPage > 0 ==> (n - 1) * itemsPerPage < totalItems <= n * itemsPerPage
  {
    if itemsPerPage <= 0 then 0 else CeilDiv(totalItems, itemsPerPage)
  }

  /** IsValidPage: pages are numbered from 1; a count of 0 means unknown and caps nothing. */
  predicate IsValidPage(page: int, totalPages: int)
    ensures totalPages != 0 ==> (IsValidPage(page, totalPages) <==> 1 <= page <= totalPages)
    ensures totalPages == 0 ==> (IsValidPage(page, totalPages) <==> 1 <= page)
  {
    page >= 1 && (totalPages == 0 || page <= totalPages)
  }

  /** The cases of the package's table test. */
  lemma IsValidPageExamples()
    ensures IsValidPage(1, 10) && IsValidPage(10, 10) && IsValidPage(1, 0)
    ensures !IsValidPage(11, 10) && !IsValidPage(0, 10) && !IsValidPage(-1, 5)
  {
  }

  /** The page counts the package's tests check. */
  lemma TotalPagesExamples()
    ensures CalculateTotalPages(100, 10) == 10 && CalculateTotalPages(101, 10) == 11
    ensures CalculateTotalPages(0, 10) == 0 && CalculateTotalPages(10, 0) == 0
    ensures CalculateTotalPages(1, 1) == 1 && CalculateTotalPages(99, 100) == 1
  {
  }

  /** The first and last page of 95 items, ten per page, as the package's tests check them. */
  lemma NewPaginationExamples()
    ensures NewPagination(1, 10, 95) == Pagination(10, 1, 95, 10, 2, 0, true, false)
    ensures NewPagination(10, 10, 95) == Pagination(10, 10, 95, 10, 0, 9, false, true)
  {
  }

  /** A page NewPagination reports is a valid page of its own page count when it is not past the end. */
  lemma NormalisedPageIsValid(page: int, limit: int, totalItems: int)
    requires page <= NewPagination(page, limit, totalItems).totalPages
    ensures IsValidPage(NewPagination(page, limit, totalItems).page, NewPagination(page, limit, totalItems).totalPages)
  {
  }

  /** What the request's query string holds: the first value of each parameter. */
  type Query = map<string, string>

  /** gin's c.DefaultQuery: the parameter's value when present (even empty), else the default. */
  function DefaultQuery(q: Query, key: string, default: string): string
  {
    if key in q then q[key] else default
  }

  /** The effect of GinPagination on one request. */
  datatype GinDecision =
    | AbortBadRequest(error: string)   // 400 with {"error": ...}, the chain stops
    | Continue(opts: Options)          // "pagination" (and the request context) now hold opts

  /** The default limit, rendered by strconv.Itoa and parsed back by strconv.Atoi. */
  lemma DefaultLimitRoundTrip()
    ensures AtoiValue(IntToString(DefaultLimit)) == DefaultLimit
  {
    ParseIntOfIntToString(DefaultLimit);
  }

  /** The default page, rendered by strconv.Itoa: the query text "1". */
  lemma DefaultPageRendered()
    ensures IntToString(DefaultPage) == "1"
  {
  }

  function GinPagination(q: Query): (d: GinDecision)
    ensures d.AbortBadRequest? <==> !(1 <= AtoiValue(DefaultQuery(q, "limit", "10")) <= MaxLimit)
    ensures d.AbortBadRequest? ==> d.error == ErrInvalidLimit
    ensures d.Continue? ==> d.opts.page >= 1 && 1 <= d.opts.limit <= MaxLimit
    ensures d.Continue? ==> d.opts.limit == AtoiValue(DefaultQuery(q, "limit", "10"))
    ensures d.Continue? ==> var page := AtoiValue(DefaultQuery(q, "page", "1"));
      d.opts.page == (if page < 1 then DefaultPage else page)
    ensures d.Continue? ==> d.opts.orderBy == DefaultQuery(q, "order_by", "")
    ensures "limit" !in q ==> d.Continue?
  {
    DefaultLimitRoundTrip();
    DefaultPageRendered();
    var page := AtoiValue(DefaultQuery(q, "page", IntToString(DefaultPage)));
    var limit := AtoiValue(DefaultQuery(q, "limit", IntToString(DefaultLimit)));
    var orderBy := DefaultQuery(q, "order_by", "");
    match ValidateOptions(page, limit)
    case Err(e) => AbortBadRequest(e)
    case Ok((p, l)) => Continue(Options(p, l, orderBy))
  }

  /** The query of the package's middleware test. */
  lemma GinPaginationExample()
    ensures GinPagination(map["page" := "3", "limit" := "25", "order_by" := "name"]) == Continue(Options(3, 25, "name"))
  {
    assert DigitsValue("3") == 3;
    assert DigitsValue("25") == 25 by { assert "25"[..1] == "2"; }
  }

  /** A limit over the maximum and a limit that is not a number are both rejected. */
  lemma GinPaginationRejects()
    ensures GinPagination(map["limit" := "5000"]).AbortBadRequest?
    ensures GinPagination(map["limit" := "ten"]).AbortBadRequest?
  {
    assert DigitsValue("5000") == 5000 by {
      assert "5000"[..3] == "500"; assert "500"[..2] == "50"; assert "50"[..1] == "5";
    }
    assert !AllDigits("ten") by { assert !IsDigit("ten"[0]); }
  }

  /** An empty query gets the defaults. */
  lemma GinPaginationDefaults()
    ensures GinPagination(map[]) == Continue(Options(1, 10, ""))
  {
    ParseIntOfIntToString(DefaultPage);
    DefaultLimitRoundTrip();
  }

  /** A context value under the pagination key: the stored *Options (possibly nil) or a value of another type. */
  datatype StoredValue = StoredOptions(opts: Option<Options>) | OtherValue

  /** FromGinContext / FromContext: the stored options, or the defaults (1, 10, ""). */
  function FromContext(v: Option<StoredValue>): (r: (int, int, string))
    ensures (v.Some? && v.value.StoredOptions? && v.value.opts.Some?) ==>
      r == (v.value.opts.value.page, v.value.opts.value.limit, v.value.opts.value.orderBy)
    ensures !(v.Some? && v.value.StoredOptions? && v.value.opts.Some?) ==> r == (DefaultPage, DefaultLimit, "")
  {
    match v
    case Some(StoredOptions(Some(o))) => (o.page, o.limit, o.orderBy)
    case _ => (DefaultPage, DefaultLimit, "")
  }

  /** What GinPagination stores reads back unchanged through FromContext. */
  lemma GinPaginationReadBack(q: Query)
    requires GinPagination(q).Continue?
    ensures var o := GinPagination(q).opts;
      FromContext(Some(StoredOptions(Some(o)))) == (o.page, o.limit, o.orderBy)
  {
  }
}
