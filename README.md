# Pagination of the news-demo search handler

news-demo is a small Go web front-end. It takes a keyword and a page number
from the browser and asks a third-party news-search API for that page of
articles. It then renders the articles with "previous" and "next" links. The
only logic in it that decides anything is the pagination state of a search
request. This project models that state and the steps of the search handler
that produce it:

- `goint.dfy` (module `GoInt`): Go's 64-bit `int`. It gives the range, the
  two's-complement wrap-around and the truncating `/` operator.
- `strconv.dfy` (module `Strconv`): the parse of the `page` parameter
  (`strconv.Atoi`) and the `%d` formatting that writes the page number into
  the outbound URL. Both round trips between the two are proved.
- `news.dfy` (module `News`): the decoded payloads of the upstream API.
- `pagination.dfy` (module `Pagination`): the `Search` object. It holds the
  keyword, the next page, the page count and the results. It has the three
  getters and the pagination step, which is a method that updates the object
  in place.
- `handler.dfy` (module `Handler`): the search handler's decisions, from the
  query parameters to the `Search` handed to the template. The upstream call
  is a function parameter.

What the proofs show about the code as written:

- The page count is the number of FULL pages. `math.Ceil` is applied to an
  integer quotient that Go has already truncated. So 45 results give 2 pages,
  and the 5 trailing results are on no counted page (`FloorNotCeiling`).
- The step advances the next page only while it is below the page count. So
  the increment never overflows, and the next page never passes the count
  once it has been advanced.
- After the step, `IsLastPage` already holds on the page before the last one.
  Suppose the request is for page `p`. Then `IsLastPage` holds exactly when
  `p + 1 >= TotalPages`. For a page of 1 or more, that is exactly when
  `CurrentPage() + 1 >= TotalPages`.
- After the step, `CurrentPage` is the requested page in two cases: the
  request is for page 1, or it is for a page other than 0 below the count.
  A request for page 2 or more that is at or past the count is reported one
  page lower. For example, page 5 of 100 results is reported as page 4. A
  request for page 0 below a positive count is reported as page 1.
- A page text that does not parse stops the request. It never falls back to
  page 1. Signed texts such as `-3` and `+0` parse, so the next page can be
  zero or negative.

## Model

| member | source | states |
|---|---|---|
| `GoInt.Wrap` | main.go:141 | the value a Go `int` stores for an arithmetic result: in the 64-bit range, congruent modulo 2^64, and the result itself when it is in range |
| `GoInt.Quo` | main.go:138 | Go's integer `/`: the remainder is smaller than the divisor and has the dividend's sign, so the quotient is truncated toward zero |
| `Strconv.Atoi` | main.go:100-104 | a parse succeeds only on an optional sign followed by digits, and only with a value in the 64-bit range; a value is negative exactly when the text starts with `-` and its digits are not all zero; a range error only from a well-formed text; the converse, that every well-formed text is read as a number, is `Strconv.WellFormedParses` |
| `Strconv.Digits` | main.go:109 | the `%d` digits of a natural number are a non-empty digit run, with no leading zero, that denotes that number |
| `Strconv.FormatInt` | main.go:109 | `%d` output is never empty and starts with `-` exactly for negative numbers |
| `Strconv.ParseFormat` | main.go:100-109 | every 64-bit number written with `%d` is canonical and parses back to itself |
| `Strconv.OutOfRangeRejected` | main.go:100-104 | a number outside the 64-bit range written with `%d` is refused with a range error |
| `Strconv.FormatParse` | main.go:100-109 | every canonical text that parses is exactly the `%d` text of its value |
| `Strconv.StripZeros` | main.go:100 | the digits of a run without its redundant leading zeros: still a digit run, with no leading zero unless it is "0" |
| `Strconv.LeadingZero` | main.go:100 | a leading zero does not change the value of a run of digits |
| `Strconv.StripZerosValue` | main.go:100 | stripping leading zeros keeps the value, and the stripped run is the `%d` digits of that value |
| `Strconv.WellFormedParses` | main.go:100-104 | every text made of an optional sign and digits is never a syntax error; it parses exactly when its magnitude is at most 2^63 after a `-` and at most 2^63-1 otherwise; the parsed value's magnitude is written with the text's digits less leading zeros, and the value is negative exactly after a `-` with a non-zero magnitude |
| `Strconv.LeadingDigitBound` | main.go:100 | a digit run with a non-zero first digit denotes at least 1, and at least 10 when it has two digits or more |
| `Strconv.DigitsOfValue` | main.go:100-109 | a digit run with no leading zero is the `%d` digits of the number it denotes |
| `Strconv.NonNumericRejected` | main.go:100-104 | any character that is not a digit, other than a sign in first position, makes the parse a syntax error |
| `Strconv.AtoiSamples` | main.go:100-104 | "", "abc" and "+" are syntax errors; "-3", "+0", "007", "+5", "02", "-0" and "-05" parse to -3, 0, 7, 5, 2, 0 and -5 |
| `Pagination.TotalPagesFor` | main.go:138 | for a non-negative total, the count times 20 is at most the total and the next multiple of 20 is above it; a negative total gives a count rounded toward zero |
| `Pagination.FloorNotCeiling` | main.go:138 | the count is the ceiling of total/20 or one less, equal to it exactly when 20 divides the total; the total minus the counted pages' results is the remainder modulo 20 |
| `Pagination.PageCountSamples` | main.go:138 | 45, 40, 39, 0, 100 and -45 results give 2, 2, 1, 0, 5 and -2 pages |
| `Pagination.Search.constructor` | main.go:97-98 | a new search holds the keyword and Go zero values everywhere else |
| `Pagination.Search.IsLastPage` | main.go:53-55 | not the last page exactly when the next page is below the page count; while it is not the last page, the next page plus one is still a Go `int`, so the step's increment cannot overflow |
| `Pagination.Search.CurrentPage` | main.go:57-62 | equals the next page exactly when that is 1, and otherwise is one less, with Go wrap-around at the bottom of the range |
| `Pagination.Search.PreviousPage` | main.go:64-66 | is one less than the current page, except that for next page MinInt+1 (current page MinInt) Go's subtraction wraps it to MaxInt; above MinInt+1, in closed form 0 for next page 1 and next page minus 2 otherwise; for a positive next page it lies between 0 and the next page |
| `Pagination.Search.Paginate` | main.go:138-142 | sets the page count from the decoded total and advances the next page by exactly 1 only when it was below the count, without overflow; keyword and results unchanged; afterwards it is the last page exactly when the request was for the page before the count or later, which for a requested page of 1 or more is exactly when the current page plus one reaches the count; the current page is the requested one exactly when that was page 1, or a page other than 0 below the count; a requested page 0 below a positive count is shown as page 1; a requested page above 1 at or past the count is shown one lower |
| `Handler.Get` | main.go:88-89 | the first value given for the key when it has one, and "" when the key is missing or has no value |
| `Handler.RequestedPage` | main.go:89-104 | an empty or missing page is page 1; any other text is Atoi's verdict on it, so an error happens exactly when a non-empty text fails to parse |
| `Handler.PageArgument` | main.go:106-109 | the page text written into the outbound request is canonical and parses back to the page the handler holds |
| `Handler.HandleSearch` | main.go:80-142 | a bad page fails the request with the parse error and nothing else does; a search is rendered exactly when the page parses and the upstream answers 200 with a decodable body; the request sent upstream carries the keyword, page size 20 and the `%d` text of the parsed page; a transport failure, an API error message or a decode error is passed on as the failure; the rendered search holds the keyword, the decoded results, the page count of their total and the requested page advanced by one when it is below the count |

## Left out

- The HTTP routing, the static file server, the `apiKey` flag, the `PORT`
  setting and `log.Fatal` (main.go:150-168). These are process setup and I/O.
- The re-parse of the request URL (main.go:81-85) and the splitting of the
  raw query string into values. These are URL library calls. The model
  starts from the parsed values.
- Building the endpoint URL, `url.QueryEscape` and `http.Get`
  (main.go:109-116). The request sent upstream is the keyword, the page
  size and the page number's text (`Handler.PageArgument`). The call itself is the `upstream` parameter of
  `Handler.HandleSearch`.
- JSON decoding (main.go:118-136). A response is given as its status code
  and what its body decodes to under each schema. The text of decoding
  errors is not modelled.
- Template rendering (main.go:69, 76-78, 144-147) and the render failure
  after the pagination step.
- `FormatPublishedDate` (main.go:71-74). It depends on Go's calendar and
  month names. The publication instant is kept as the text the API sent.
- The diagnostic prints of the keyword and the page (main.go:94-95).
- The `float64` round trip inside `math.Ceil` (main.go:138). The model
  uses the integer quotient. It is the same whenever the quotient's magnitude
  is below 2^53, that is, for every total of magnitude below 20 * 2^53 results.
- `Strconv.Atoi`: when the digits after the optional sign begin with a
  prefix whose value is above 2^64 - 1 (18446744073709551615) and a later
  character is not a digit, as in `99999999999999999999x`, Go's unsigned
  accumulator overflows before it reaches that character and reports a
  range error; the model reports a syntax error. A smaller prefix, as in
  `9223372036854775808x`, is a syntax error in both. Both are failures, and
  the request fails either way. The
  error texts (`strconv.Atoi: parsing ...`) are not modelled; a bad page
  carries only the error kind.
- Go's `int` on 32-bit targets (GOARCH `386` or `arm`). The model fixes it
  at 64 bits; there `Strconv.Atoi` would accept only the 32-bit range and
  `GoInt.Wrap` would wrap modulo 2^32.
- `Source.id` is an arbitrary JSON value in Go. The model keeps it as an
  optional string.
