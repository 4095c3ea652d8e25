/**
 * pagy: a pagination query read from a request's query parameters, and the
 * generic response envelope built around one page of results.
 */
module Pagy {
  import opened Wrappers
  import opened Strconv
  import opened Strings
  import opened GoArith

  /** The page size used when the request names none. */
  const DefaultSize: int := 10

  // ---------------------------------------------------------------------
  // Order clause
  // ---------------------------------------------------------------------

  datatype Direction = Asc | Desc

  /** The sort field: the raw value, or "id" when it is empty. */
  function OrderField(orderByQuery: string): string {
    if orderByQuery == "" then "id" else orderByQuery
  }

  /** Empty or case-insensitively "asc" sorts ascending; anything else descending. */
  function OrderDirection(orderDirQuery: string): Direction {
    if orderDirQuery == "" || EqualFold(orderDirQuery, "asc") then Asc else Desc
  }

  function Keyword(d: Direction): string {
    match d
    case Asc => "ASC"
    case Desc => "DESC"
  }

  /** The combined `<field> <ASC|DESC>` string that SetOrderBy stores. */
  function OrderClause(orderByQuery: string, orderDirQuery: string): string {
    OrderField(orderByQuery) + " " + Keyword(OrderDirection(orderDirQuery))
  }

  /** Which raw direction values sort ascending. */
  lemma OrderDirectionAsc(orderDirQuery: string)
    ensures OrderDirection(orderDirQuery) == Asc <==>
      orderDirQuery == "" ||
      (|orderDirQuery| == 3 && orderDirQuery[0] in {'a', 'A'} &&
       orderDirQuery[1] in {'s', 'S', '\U{017F}'} && orderDirQuery[2] in {'c', 'C'})
  {
    EqualFoldAsc(orderDirQuery);
  }

  /** The combined clause loses nothing: it determines both the field and the direction. */
  lemma OrderClauseInjective(by1: string, dir1: string, by2: string, dir2: string)
    requires OrderClause(by1, dir1) == OrderClause(by2, dir2)
    ensures OrderField(by1) == OrderField(by2)
    ensures OrderDirection(dir1) == OrderDirection(dir2)
  {
    var c := OrderClause(by1, dir1);
    var f1, f2 := OrderField(by1), OrderField(by2);
    var d1, d2 := OrderDirection(dir1), OrderDirection(dir2);
    ClauseMarker(f1, d1);
    ClauseMarker(f2, d2);
    assert d1 == d2;
    assert |f1| == |f2|;
    assert f1 == c[..|f1|] == f2;
  }

  /** Four characters from its end, a clause holds ' ' if ascending and 'D' if descending. */
  lemma ClauseMarker(field: string, d: Direction)
    ensures var c := field + " " + Keyword(d);
      |c| >= 4 && c[|c| - 4] == (if d == Asc then ' ' else 'D')
  {
    var c := field + " " + Keyword(d);
    if d == Asc {
      assert c[|c| - 4] == c[|field|];
    } else {
      assert c[|c| - 4] == Keyword(d)[0];
    }
  }

  // ---------------------------------------------------------------------
  // Offsets
  // ---------------------------------------------------------------------

  /** The rows on pages 1 .. page-1 of `size` rows each. */
  function RowsBefore(page: int, size: int): (n: int)
    ensures page >= 1 ==> n == (page - 1) * size
    decreases page
  {
    if page <= 1 then 0 else RowsBefore(page - 1, size) + size
  }

  /** With a positive size, every row lies on exactly one page, page `row / size + 1`. */
  lemma RowOnOnePage(row: int, size: int, page: int)
    requires size > 0 && row >= 0 && page >= 1
    ensures RowsBefore(page, size) <= row < RowsBefore(page, size) + size <==> page == row / size + 1
  {
    assert RowsBefore(page, size) + size == page * size;
    WindowOfQuotient(row, size, page);
  }

  lemma WindowOfQuotient(row: int, size: int, page: int)
    requires size > 0 && row >= 0 && page >= 1
    ensures (page - 1) * size <= row < page * size <==> page == row / size + 1
  {
    var p := row / size + 1;
    assert (p - 1) * size + row % size == row;
    assert (p - 1) * size + size == p * size;
    if (page - 1) * size <= row < page * size {
      LessByPositiveFactor(p - 1, page, size);
      LessByPositiveFactor(page - 1, p, size);
    }
  }

  // ---------------------------------------------------------------------
  // Query
  // ---------------------------------------------------------------------

  /** The query parameters of one request, as mutated by the setters. */
  class PaginationQuery {
    var size: int
    var page: int
    var orderBy: string
    var orderDir: string

    /** The zero value `PaginationQuery{}`. */
    constructor ()
      ensures size == 0 && page == 0 && orderBy == "" && orderDir == ""
    {
      size, page, orderBy, orderDir := 0, 0, "", "";
    }

    /**
     * Empty input selects the default size; otherwise the input must parse as
     * an integer (any value, no lower bound) or the error is returned and
     * nothing changes.
     */
    method SetSize(sizeQuery: string) returns (err: Option<NumError>)
      modifies this
      ensures sizeQuery == "" ==> err == None && size == DefaultSize
      ensures sizeQuery != "" && Atoi(sizeQuery).Success? ==> err == None && size == Atoi(sizeQuery).value
      ensures sizeQuery != "" && Atoi(sizeQuery).Failure? ==>
                err == Some(SyntaxError(sizeQuery)) && size == old(size)
      ensures err.Some? <==> sizeQuery != "" && !IsIntegerLiteral(sizeQuery)
      ensures page == old(page) && orderBy == old(orderBy) && orderDir == old(orderDir)
    {
      if sizeQuery == "" {
        size := DefaultSize;
        return None;
      }
      var n := Atoi(sizeQuery);
      if n.Failure? {
        return Some(n.error);
      }
      size := n.value;
      return None;
    }

    /**
     * As written, empty input resets the SIZE to 0 and leaves the page alone;
     * otherwise the input must parse as an integer, which becomes the page,
     * or the error is returned and nothing changes.
     */
    method SetPage(pageQuery: string) returns (err: Option<NumError>)
      modifies this
      ensures pageQuery == "" ==> err == None && size == 0 && page == old(page)
      ensures pageQuery != "" && Atoi(pageQuery).Success? ==>
                err == None && page == Atoi(pageQuery).value && size == old(size)
      ensures pageQuery != "" && Atoi(pageQuery).Failure? ==>
                err == Some(SyntaxError(pageQuery)) && page == old(page) && size == old(size)
      ensures err.Some? <==> pageQuery != "" && !IsIntegerLiteral(pageQuery)
      ensures orderBy == old(orderBy) && orderDir == old(orderDir)
    {
      if pageQuery == "" {
        size := 0;
        return None;
      }
      var n := Atoi(pageQuery);
      if n.Failure? {
        return Some(n.error);
      }
      page := n.value;
      return None;
    }

    /** Stores the combined order clause in `orderBy`; never fails. */
    method SetOrderBy(orderByQuery: string, orderDirQuery: string)
      modifies this
      ensures orderBy == OrderClause(orderByQuery, orderDirQuery)
      ensures size == old(size) && page == old(page) && orderDir == old(orderDir)
    {
      if orderByQuery == "" {
        orderBy := "id";
      } else {
        orderBy := orderByQuery;
      }
      if orderDirQuery == "" || EqualFold(orderDirQuery, "asc") {
        orderBy := orderBy + " " + "ASC";
      } else {
        orderBy := orderBy + " " + "DESC";
      }
    }

    /**
     * The index of the first row of the page: the rows on the earlier pages
     * for a 1-based page, 0 for page 0, and that many rows before the start
     * for a negative page.
     */
    function GetOffset(): (r: int)
      reads this
      ensures page == 0 ==> r == 0
      ensures page >= 1 ==> r == RowsBefore(page, size)
      ensures page >= 1 && size >= 0 ==> r >= 0
      ensures page < 0 ==> r == -RowsBefore(2 - page, size)
    {
      if page == 0 then 0 else (page - 1) * size
    }

    function GetLimit(): int
      reads this
    {
      size
    }

    function GetOrderBy(): string
      reads this
    {
      orderBy
    }

    function GetPage(): int
      reads this
    {
      page
    }

    function GetSize(): int
      reads this
    {
      size
    }

    /** An example query string, `page=<p>&size=<s>&orderBy=<clause>`. */
    function GetQueryString(): string
      reads this
    {
      "page=" + FormatInt(GetPage()) + "&size=" + FormatInt(GetSize()) + "&orderBy=" + GetOrderBy()
    }
  }

  /** A page's window of `GetLimit()` rows from `GetOffset()` ends where the next page's begins. */
  lemma NextPageFollowsLimit(q: PaginationQuery)
    requires q.page >= 1
    ensures q.GetOffset() + q.GetLimit() == RowsBefore(q.page + 1, q.size)
  {
  }

  /**
   * In the example query string, page and size are written as decimal
   * numerals free of '&' that read back, through Atoi, as the query's values.
   */
  lemma QueryStringFields(q: PaginationQuery)
    ensures var p, z := FormatInt(q.GetPage()), FormatInt(q.GetSize());
      q.GetQueryString() == "page=" + p + "&size=" + z + "&orderBy=" + q.GetOrderBy() &&
      '&' !in p && '&' !in z &&
      Atoi(p) == Success(q.GetPage()) && Atoi(z) == Success(q.GetSize())
  {
    AtoiFormatInt(q.GetPage());
    AtoiFormatInt(q.GetSize());
    CanonicalHasNoAmpersand(FormatInt(q.GetPage()));
    CanonicalHasNoAmpersand(FormatInt(q.GetSize()));
  }

  lemma CanonicalHasNoAmpersand(s: string)
    requires IsCanonical(s)
    ensures '&' !in s
  {
    var digits := if s[0] == '-' then s[1..] else s;
    forall i | 0 <= i < |s|
      ensures s[i] != '&'
    {
      if i > 0 || s[0] != '-' {
        var j := if s[0] == '-' then i - 1 else i;
        assert s[i] == digits[j];
      }
    }
  }

  // ---------------------------------------------------------------------
  // Request
  // ---------------------------------------------------------------------

  /** A request's query parameters; a missing key reads as "". */
  type Request = map<string, string>

  function QueryValue(r: Request, key: string): string {
    if key in r then r[key] else ""
  }

  /**
   * Runs SetPage, SetSize and SetOrderBy on a zero query, returning the first
   * parse error (page before size). SetSize runs after SetPage, so the size
   * SetPage resets on an empty page is always overwritten.
   */
  method GetPaginationFromRequest(r: Request) returns (res: Result<PaginationQuery, NumError>)
    ensures var page, size := QueryValue(r, "page"), QueryValue(r, "size");
      if page != "" && !IsIntegerLiteral(page) then res == Failure(SyntaxError(page))
      else if size != "" && !IsIntegerLiteral(size) then res == Failure(SyntaxError(size))
      else
        res.Success? && fresh(res.value) &&
        res.value.page == (if page == "" then 0 else Atoi(page).value) &&
        res.value.size == (if size == "" then DefaultSize else Atoi(size).value) &&
        res.value.orderBy == OrderClause(QueryValue(r, "orderBy"), QueryValue(r, "orderDir")) &&
        res.value.orderDir == ""
  {
    var q := new PaginationQuery();
    var err := q.SetPage(QueryValue(r, "page"));
    if err.Some? {
      return Failure(err.value);
    }
    err := q.SetSize(QueryValue(r, "size"));
    if err.Some? {
      return Failure(err.value);
    }
    q.SetOrderBy(QueryValue(r, "orderBy"), QueryValue(r, "orderDir"));
    return Success(q);
  }

  /** The parsed values of the request `page=1&size=10&orderBy=first_name&orderDir=desc`. */
  lemma BaseRequestValues()
    ensures Atoi("1") == Success(1) && Atoi("10") == Success(10)
    ensures OrderClause("first_name", "desc") == "first_name DESC"
  {
    assert "1"[..0] == [] && "10"[..1] == "1";
    AtoiOfDigits("1", "1");
    AtoiOfDigits("10", "10");
    OrderDirectionAsc("desc");
  }

  /** The request `page=1&size=10&orderBy=first_name&orderDir=desc`. */
  method BaseRequestExample() returns (q: PaginationQuery)
    ensures q.page == 1 && q.size == 10 && q.orderBy == "first_name DESC" && q.orderDir == ""
  {
    var r := map["page" := "1", "size" := "10", "orderBy" := "first_name", "orderDir" := "desc"];
    assert QueryValue(r, "page") == "1" && QueryValue(r, "size") == "10";
    assert QueryValue(r, "orderBy") == "first_name" && QueryValue(r, "orderDir") == "desc";
    BaseRequestValues();
    var res := GetPaginationFromRequest(r);
    q := res.value;
  }

  // ---------------------------------------------------------------------
  // Response
  // ---------------------------------------------------------------------

  datatype PaginationResponse<T> = PaginationResponse(
    totalCount: int,
    totalPages: int,
    page: int,
    size: int,
    hasMore: bool,
    values: seq<T>)

  /**
   * `int(math.Ceil(float64(totalCount) / float64(pageSize)))` on exact
   * rationals: the least page count whose pages hold `totalCount` rows.
   */
  function GetTotalPages(totalCount: int, pageSize: int): (n: int)
    requires pageSize != 0
    ensures pageSize > 0 ==> (n - 1) * pageSize < totalCount <= n * pageSize
    ensures pageSize < 0 ==> n * pageSize <= totalCount < (n - 1) * pageSize
    ensures totalCount == 0 ==> n == 0
  {
    if pageSize > 0 then
      CeilOfPositive(totalCount, pageSize);
      -((-totalCount) / pageSize)
    else
      CeilOfNegative(totalCount, pageSize);
      -(totalCount / (-pageSize))
  }

  /** For a positive `b`, minus the floor of `-a / b` is the ceiling of `a / b`. */
  lemma CeilOfPositive(a: int, b: int)
    requires b > 0
    ensures var n := -((-a) / b); (n - 1) * b < a <= n * b
  {
    var f, rem := (-a) / b, (-a) % b;
    assert -a == f * b + rem && 0 <= rem < b;
    assert (-f) * b == -(f * b);
    assert (-f - 1) * b == -(f * b) - b;
  }

  /** For a negative `b`, minus the floor of `a / -b` is the ceiling of `a / b`. */
  lemma CeilOfNegative(a: int, b: int)
    requires b < 0
    ensures var n := -(a / (-b)); n * b <= a < (n - 1) * b
  {
    var f, rem := a / (-b), a % (-b);
    assert a == f * (-b) + rem && 0 <= rem < -b;
    assert (-f) * b == f * (-b);
    assert (-f - 1) * b == f * (-b) - b;
  }

  /** No smaller page count holds `totalCount` rows. */
  lemma TotalPagesIsLeast(totalCount: int, pageSize: int, m: int)
    requires pageSize > 0 && m * pageSize >= totalCount
    ensures GetTotalPages(totalCount, pageSize) <= m
  {
    var n := GetTotalPages(totalCount, pageSize);
    LessByPositiveFactor(n - 1, m, pageSize);
  }

  /** The page count is never below Go's truncated quotient `totalCount / pageSize`. */
  lemma TotalPagesAtLeastQuotient(totalCount: int, pageSize: int)
    requires pageSize != 0
    ensures GetTotalPages(totalCount, pageSize) >= Quo(totalCount, pageSize)
  {
    var n, q := GetTotalPages(totalCount, pageSize), Quo(totalCount, pageSize);
    QuotientBelowCeiling(totalCount, pageSize, q, n);
  }

  /** Any `q` whose remainder is smaller than the divisor lies at or below the ceiling `n`. */
  lemma QuotientBelowCeiling(a: int, b: int, q: int, n: int)
    requires b != 0 && Abs(a - q * b) < Abs(b)
    requires b > 0 ==> a <= n * b
    requires b < 0 ==> n * b <= a
    ensures q <= n
  {
    assert (n + 1) * b == n * b + b;
    if b > 0 {
      LessByPositiveFactor(q, n + 1, b);
    } else {
      LessByNegativeFactor(q, n + 1, b);
    }
  }

  /** `currentPage < totalCount / pageSize` with Go's truncating division. */
  function GetHasMore(currentPage: int, totalCount: int, pageSize: int): (b: bool)
    requires pageSize != 0
    ensures totalCount == 0 ==> (b <==> currentPage < 0)
  {
    currentPage < Quo(totalCount, pageSize)
  }

  /** For a positive size, "has more" means the rows fill one page beyond `currentPage`. */
  lemma HasMoreMeansFullNextPage(currentPage: int, totalCount: int, pageSize: int)
    requires pageSize > 0 && totalCount >= 0
    ensures GetHasMore(currentPage, totalCount, pageSize) <==> (currentPage + 1) * pageSize <= totalCount
  {
    var q := Quo(totalCount, pageSize);
    assert q == totalCount / pageSize;
    var rem := totalCount - q * pageSize;
    assert rem == totalCount % pageSize;
    assert (q + 1) * pageSize == q * pageSize + pageSize;
    if currentPage < q {
      MulMonotone(currentPage + 1, q, pageSize);
    }
    if (currentPage + 1) * pageSize <= totalCount {
      LessByPositiveFactor(currentPage + 1, q + 1, pageSize);
    }
  }

  /** When there are more pages, the current page is not the last one. */
  lemma HasMoreBeforeLastPage(currentPage: int, totalCount: int, pageSize: int)
    requires pageSize != 0
    ensures GetHasMore(currentPage, totalCount, pageSize) ==> currentPage < GetTotalPages(totalCount, pageSize)
  {
    TotalPagesAtLeastQuotient(totalCount, pageSize);
  }

  /**
   * The converse fails when the last page is partial: with 155 rows of 10 there
   * are 16 pages, yet page 15 reports no more.
   */
  lemma HasMoreIgnoresPartialLastPage()
    ensures GetTotalPages(155, 10) == 16 && !GetHasMore(15, 155, 10)
  {
  }

  /** The derived fields of a response agree with its echoed ones. */
  predicate Consistent<T>(r: PaginationResponse<T>) {
    r.size != 0 &&
    r.totalPages == GetTotalPages(r.totalCount, r.size) &&
    r.hasMore == GetHasMore(r.page, r.totalCount, r.size)
  }

  /** The envelope around one page of results. */
  function PaginatedResponse<T>(count: int, pq: PaginationQuery, list: seq<T>): (r: PaginationResponse<T>)
    reads pq
    requires pq.size != 0
    ensures r.totalCount == count && r.page == pq.GetPage() && r.size == pq.GetSize() && r.values == list
    ensures Consistent(r)
    ensures r.hasMore ==> r.page < r.totalPages
    ensures pq.size > 0 && count >= 0 ==> 0 <= r.totalPages && (r.totalPages - 1) * r.size < count <= r.totalPages * r.size
  {
    HasMoreBeforeLastPage(pq.GetPage(), count, pq.GetSize());
    PaginationResponse(
      count,
      GetTotalPages(count, pq.GetSize()),
      pq.GetPage(),
      pq.GetSize(),
      GetHasMore(pq.GetPage(), count, pq.GetSize()),
      list)
  }

  /** The envelope for "no results": zero rows, zero pages, empty values. */
  function DefaultPaginationResponse<T>(pq: PaginationQuery): (r: PaginationResponse<T>)
    reads pq
    requires pq.size != 0
    ensures r == PaginatedResponse(0, pq, [])
    ensures r.totalCount == 0 && r.totalPages == 0 && r.values == []
    ensures r.page == pq.GetPage() && r.size == pq.GetSize()
    ensures r.hasMore <==> pq.GetPage() < 0
  {
    PaginationResponse(
      0,
      GetTotalPages(0, pq.GetSize()),
      pq.GetPage(),
      pq.GetSize(),
      GetHasMore(pq.GetPage(), 0, pq.GetSize()),
      [])
  }

  /** 150 rows, page 1 of size 10: fifteen pages and more to come. */
  method ResponseExample() returns (r: PaginationResponse<string>)
    ensures r == PaginationResponse(150, 15, 1, 10, true, ["John Wick"])
  {
    var pq := new PaginationQuery();
    pq.size, pq.page := 10, 1;
    r := PaginatedResponse(150, pq, ["John Wick"]);
  }

  /** A count equal to the page size, on page 1 of size 10: a single page, nothing more. */
  method CountOfOnePageExample() returns (r: PaginationResponse<string>)
    ensures r == PaginationResponse(10, 1, 1, 10, false, ["John Wick"])
  {
    var pq := new PaginationQuery();
    pq.size, pq.page := 10, 1;
    r := PaginatedResponse(pq.size, pq, ["John Wick"]);
  }

  /** The empty envelope for page 1 of size 10. */
  method DefaultResponseExample() returns (r: PaginationResponse<string>)
    ensures r.totalCount == 0 && r.totalPages == 0 && r.values == [] && !r.hasMore
  {
    var pq := new PaginationQuery();
    pq.size, pq.page := 10, 1;
    r := DefaultPaginationResponse(pq);
  }
}
