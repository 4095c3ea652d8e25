# pagy in Dafny

A model of the Go library pagy (`pagy/pagy.go`). It has two parts.

- The **query extractor** reads the `page`, `size`, `orderBy` and `orderDir` query parameters of a request into a `PaginationQuery`.
- The **response builder** wraps one page of results in a generic `PaginationResponse` envelope, with the total page count and a "has more" flag.

Files and modules:

- `wrappers.dfy` (`Wrappers`): `Option`, which models Go's nil/non-nil `error`, and `Result`, which models a `(value, error)` pair.
- `strconv.dfy` (`Strconv`): `strconv.Atoi` in base 10 as a pure parser, and the `%v` formatting of an `int`. Two round-trip lemmas link them.
- `strings.dfy` (`Strings`): `strings.EqualFold`, folding ASCII letters and the two non-ASCII runes that fold onto them.
- `goarith.dfy` (`GoArith`): Go's integer `/`, which truncates toward zero. Dafny's `/` is Euclidean, so this is written out by sign case.
- `pagy.dfy` (`Pagy`): everything declared in `pagy/pagy.go`.
  - `PaginationQuery` is a class. Its setters change its fields in place, and its getters are functions that read them.
  - `GetLimit`, `GetOrderBy`, `GetPage` and `GetSize` each return one field. `GetLimit` appears in the contract of `NextPageFollowsLimit`. `GetOrderBy`, `GetPage` and `GetSize` appear in that of `QueryStringFields` (through `GetQueryString`). `GetPage` and `GetSize` also appear in those of the two response builders.
  - The response is a datatype value.
  - `GetPaginationFromRequest` is a method. It builds a fresh query step by step and returns at the first error.

Behaviour kept exactly as written:

- `SetPage` with an empty value sets `size` to 0 and leaves `page` alone (pagy/pagy.go:84). This looks unintended, but the model follows the code. In `GetPaginationFromRequest` the slip has no visible effect, because `SetSize` runs later and always overwrites `size`. The contract of `GetPaginationFromRequest` states the resulting size without reference to the page input.
- `GetHasMore` compares against the truncated quotient `totalCount / pageSize`, not against the page count. When the last page is partial, the page before it reports no more pages (155 rows of 10: 16 pages, and page 15 has `hasMore == false`). `HasMoreIgnoresPartialLastPage` states this case.
- Sizes and pages are not range-checked. Negative values are accepted, and the offset and division contracts cover them.

## Model

| member | source | states |
|---|---|---|
| Strconv.Atoi | pagy/pagy.go:72-75 | Succeeds exactly when the text is an optional `+`/`-` followed by one or more decimal digits. On failure the error is the syntax error carrying the input text. |
| Strconv.FormatInt | pagy/pagy.go:141 | Returns the `%v` text of an int: a `-` for a negative value, then the decimal digits without leading zeros. No contract of its own; see `AtoiFormatInt` and `FormatIntAtoi`. |
| Strconv.AtoiFormatInt | pagy/pagy.go:141 | Formatting any int with `%v` gives canonical decimal text, and Atoi reads that text back as the same int. |
| Strconv.FormatIntAtoi | pagy/pagy.go:87 | On canonical text (no `+`, no leading zero, no `-0`), Atoi succeeds and formatting its value reproduces the text. |
| Strings.EqualFold | pagy/pagy.go:104 | Returns whether the two strings have the same length and agree rune by rune up to case folding. No contract of its own; see `EqualFoldAsc`. |
| Strings.EqualFoldAsc | pagy/pagy.go:104 | A string equals "asc" under case folding exactly when it has three runes: `a`/`A`, then `s`/`S`/U+017F, then `c`/`C`. |
| GoArith.Quo | pagy/pagy.go:166 | Go's truncating quotient. The remainder `a - q*b` is smaller than `b` in magnitude, and when it is not zero it has the sign of `a`. |
| Pagy.OrderDirectionAsc | pagy/pagy.go:104-108 | A direction value sorts ascending exactly when it is empty or one of the case-folded spellings of "asc". Every other value sorts descending. |
| Pagy.OrderClauseInjective | pagy/pagy.go:97-109 | Two equal combined clauses have the same field and the same direction, so the combined string loses nothing. |
| Pagy.RowsBefore | pagy/pagy.go:116 | The rows on the pages before a 1-based page, summed one page at a time, equal `(page-1)*size`. |
| Pagy.RowOnOnePage | pagy/pagy.go:112-117 | With a positive size, row `i` lies in the window of page `p` exactly when `p == i/size + 1`. So the pages tile the rows. |
| Pagy.PaginationQuery.constructor | pagy/pagy.go:146 | The zero query: size 0, page 0, empty order fields. |
| Pagy.PaginationQuery.SetSize | pagy/pagy.go:67-79 | Empty input sets size 10 with no error. Integer text sets size to its value, with no lower bound. Other text returns the syntax error and leaves size unchanged. An error occurs exactly on non-empty text that is not an integer literal. Page, orderBy and orderDir never change. |
| Pagy.PaginationQuery.SetPage | pagy/pagy.go:82-94 | Empty input returns no error, sets size to 0 and keeps page. Integer text sets page and keeps size. Other text returns the syntax error and changes nothing. orderBy and orderDir never change. |
| Pagy.PaginationQuery.SetOrderBy | pagy/pagy.go:97-109 | Never fails. Afterwards orderBy is the field ("id" if empty), a space, then "ASC" or "DESC" by the direction rule. size, page and orderDir are unchanged. |
| Pagy.PaginationQuery.GetOffset | pagy/pagy.go:112-117 | Page 0 gives offset 0. A page `p ≥ 1` gives the rows on pages 1..p-1, which is 0 for page 1 and non-negative when size ≥ 0. A negative page gives minus the rows before page `2-p`. |
| Pagy.PaginationQuery.GetLimit | pagy/pagy.go:119-122 | Returns the size field, the number of rows to fetch. No contract of its own; see `NextPageFollowsLimit`. |
| Pagy.PaginationQuery.GetOrderBy | pagy/pagy.go:124-127 | Returns the orderBy field. No contract of its own; see `QueryStringFields`. |
| Pagy.PaginationQuery.GetPage | pagy/pagy.go:129-132 | Returns the page field. No contract of its own; see `QueryStringFields` and the response builders. |
| Pagy.PaginationQuery.GetSize | pagy/pagy.go:134-137 | Returns the size field. No contract of its own; see `QueryStringFields` and the response builders. |
| Pagy.PaginationQuery.GetQueryString | pagy/pagy.go:139-142 | Returns `page=<page>&size=<size>&orderBy=<orderBy>` with both numbers in `%v` form. No contract of its own; see `QueryStringFields`. |
| Pagy.NextPageFollowsLimit | pagy/pagy.go:120-122 | For a page ≥ 1, offset plus limit is the next page's offset, so each step to the next page adds exactly the size. |
| Pagy.QueryStringFields | pagy/pagy.go:140-142 | The query string is `page=<p>&size=<s>&orderBy=<clause>`. The numerals `p` and `s` contain no `&`, and Atoi reads them back as the query's page and size. |
| Pagy.GetPaginationFromRequest | pagy/pagy.go:145-156 | A bad page gives that page's syntax error. Otherwise a bad size gives the size's syntax error. Otherwise the result is a fresh query with page = parsed page (0 if absent), size = parsed size (10 if absent), orderBy = the combined clause, and orderDir empty. |
| Pagy.BaseRequestExample | pagy_test.go:99-140 | The request `page=1&size=10&orderBy=first_name&orderDir=desc` yields page 1, size 10, orderBy "first_name DESC" and an empty orderDir. |
| Pagy.GetTotalPages | pagy/pagy.go:159-162 | The ceiling of `totalCount/pageSize`. For a positive size, `(n-1)*size < totalCount ≤ n*size`, and the mirror image holds for a negative size. Zero rows give zero pages. |
| Pagy.TotalPagesIsLeast | pagy/pagy.go:159-162 | For a positive size, every `m` with `m*size ≥ totalCount` is at least the page count. So the page count is the least such number. |
| Pagy.TotalPagesAtLeastQuotient | pagy/pagy.go:159-167 | The page count is never below Go's truncated quotient `totalCount / pageSize`. |
| Pagy.GetHasMore | pagy/pagy.go:165-167 | With zero rows, "has more" holds exactly for a negative current page. So it is false for every page ≥ 0. |
| Pagy.HasMoreMeansFullNextPage | pagy/pagy.go:165-167 | For a positive size and a count ≥ 0, "has more" holds exactly when `(currentPage+1)*size ≤ totalCount`. |
| Pagy.HasMoreBeforeLastPage | pagy/pagy.go:165-167 | When "has more" holds, the current page is below the total page count. |
| Pagy.HasMoreIgnoresPartialLastPage | pagy/pagy.go:166 | With 155 rows of 10 there are 16 pages, yet page 15 reports no more. |
| Pagy.PaginatedResponse | pagy/pagy.go:35-44 | Stores the count and the list unchanged and echoes page and size from the query. Its total pages and "has more" agree with the two helpers. "Has more" implies page < total pages. For a positive size and count ≥ 0, the pages hold all rows and no page is wasted. |
| Pagy.DefaultPaginationResponse | pagy/pagy.go:47-56 | Equals the paginated response for count 0 and an empty list: total count 0, total pages 0, empty values, page and size echoed. "Has more" holds exactly for a negative page. |
| Pagy.ResponseExample | pagy_test.go:24-45 | Building the response for 150 rows at page 1 of size 10 gives exactly the literal those lines write by hand (15 pages, "has more", the list kept as given); the cited lines supply only the expected values, not a call. |
| Pagy.CountOfOnePageExample | pagy_test.go:63-82 | The call with the count equal to the page size (10) at page 1 of size 10 gives 1 page, no more pages, page 1, size 10 and the list kept as given. |
| Pagy.DefaultResponseExample | pagy_test.go:84-97 | Page 1 of size 10 with no results: count 0, 0 pages, empty values, no more pages. |

## Left out

- The HTTP request and `URL.Query()` parsing: a request is a map from parameter name to value, and a missing name reads as "". Repeated parameters (Go's first-value rule) are not modelled.
- Strconv.Atoi: the range error for values outside 64-bit `int` is not modelled. Integers are unbounded, so Go's wrap-around in `(Page-1)*Size` is not modelled either.
- Pagy.GetTotalPages: the float64 division and `math.Ceil` are modelled as exact rational ceiling division. This differs from Go only where float64 rounds, which means where the count or the page size is 2^53 or more in magnitude (for example, Go gives -1 pages for a count of 2^53 and a size of -(2^53+1), the model gives 0).
- Pagy.GetTotalPages, Pagy.GetHasMore, Pagy.PaginatedResponse, Pagy.DefaultPaginationResponse: these require a non-zero page size. At size 0, Go's `GetHasMore` panics with an integer division by zero, and `GetTotalPages` converts an infinity or NaN to an implementation-defined int.
- Strings.EqualFold: case folding is modelled for ASCII runes and for the two non-ASCII runes that fold onto ASCII letters (U+017F, U+212A). For a pair of non-ASCII runes it is plain equality. This is exact whenever one side is ASCII, which covers its only use, the comparison with "asc".
- The `Func` and `Err` fields of `*strconv.NumError` are not modelled: an error is the syntax error with the rejected text.
- Go pointers and nil: the response builders return values, not pointers. A nil slice passed to `PaginatedResponse` is indistinguishable from an empty one, so the JSON difference between `null` and `[]` is not modelled.
- JSON struct tags and serialisation.
- Go strings are byte sequences, Dafny strings are sequences of Unicode scalar values, so text that is not valid UTF-8 has no counterpart. No modelled behaviour depends on it: `EqualFold` reads a bad byte as U+FFFD, which never matches "asc", and `Atoi` rejects every non-ASCII byte.
- `doc.go` holds only package documentation and is not part of this model.
