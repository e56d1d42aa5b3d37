/** The search handler as far as it decides anything: read the keyword and
    the page from the query, parse the page, ask the upstream API for that
    page, and on success fill in and paginate a Search for the template. The
    upstream call is a parameter: it stands for whatever the network and the
    API answer to the request the handler sends. */
module Handler {

  import opened GoInt
  import opened Strconv
  import opened News
  import opened Pagination

  /** A parsed query string: each key with its values in order. */
  type Values = map<string, seq<string>>

  /** The first value given for a key, or "" when there is none. */
  function Get(query: Values, key: string): (v: string)
    ensures key in query && |query[key]| > 0 ==> v == query[key][0]
    ensures !(key in query && |query[key]| > 0) ==> v == ""
  {
    if key in query && |query[key]| > 0 then query[key][0] else ""
  }

  /** The page the client asks for: "1" stands in for an empty or missing
      parameter, and any other text goes to Atoi unchanged, so text that does
      not parse is an error rather than a fall-back to page 1. */
  function RequestedPage(page: string): (r: ParseResult)
    ensures page == "" ==> r == Parsed(1)
    ensures page != "" ==> r == Atoi(page)
    ensures r.ParseFailed? <==> page != "" && Atoi(page).ParseFailed?
  {
    assert Unsigned("1") == "1";
    Atoi(if page == "" then "1" else page)
  }

  /** The request sent upstream: the keyword, the page size and the text of
      the page number in the URL, besides constant parameters (sort order,
      language, API key). */
  datatype Request = Request(keyword: string, pageSize: int, page: string)

  /** The text `%d` writes for the page number in the outbound URL. */
  function PageArgument(page: Int): (text: string)
    ensures Atoi(text) == Parsed(page)
    ensures IsCanonical(text)
  {
    ParseFormat(page);
    FormatInt(page)
  }

  /** The outcome of decoding a body as one schema. */
  datatype Decoded<T> = Decoded(value: T) | Undecodable(err: string)

  /** An upstream response: its status code and what its body decodes to
      under each of the two schemas. The handler decodes it under only one,
      chosen by the status. */
  datatype Response = Response(statusCode: int, asError: Decoded<NewsApiError>, asResults: Decoded<Results>)

  datatype Fetch = TransportFailed(err: string) | Received(response: Response)

  /** Why a request failed; every failure is answered with status 500 and
      the carried text (or, for a bad page, the parse error). */
  datatype Failure =
    | BadPage(numError: NumError)
    | Transport(err: string)
    | ApiError(message: string)
    | DecodeError(err: string)

  datatype Outcome = Rendered(search: Search) | Failed(failure: Failure)

  const StatusOK := 200

  /** The handler's decisions. A bad page stops it before any request is
      made; a transport failure, a status other than 200 or an undecodable
      body stop it after; otherwise the Search handed to the template holds
      the keyword, the decoded results, the page count of the decoded total
      and the requested page advanced by one unless it was the last. */
  method HandleSearch(query: Values, upstream: Request -> Fetch) returns (outcome: Outcome)
    ensures var page := RequestedPage(Get(query, "page"));
      page.ParseFailed? <==> outcome.Failed? && outcome.failure.BadPage?
    ensures var page := RequestedPage(Get(query, "page"));
      page.ParseFailed? ==> outcome == Failed(BadPage(page.err))
    ensures outcome.Rendered? <==>
      var page := RequestedPage(Get(query, "page"));
      page.Parsed? &&
      var fetch := upstream(Request(Get(query, "q"), PageSize, PageArgument(page.value)));
      fetch.Received? && fetch.response.statusCode == StatusOK && fetch.response.asResults.Decoded?
    ensures outcome.Rendered? ==>
      var requested := RequestedPage(Get(query, "page")).value;
      var fetch := upstream(Request(Get(query, "q"), PageSize, PageArgument(requested)));
      var s := outcome.search;
      s.searchKey == Get(query, "q")
      && s.results == fetch.response.asResults.value
      && s.totalPages == TotalPagesFor(s.results.totalResults)
      && s.nextPage == (if requested < s.totalPages then requested + 1 else requested)
    ensures outcome.Failed? && !outcome.failure.BadPage? ==>
      var requested := RequestedPage(Get(query, "page")).value;
      var fetch := upstream(Request(Get(query, "q"), PageSize, PageArgument(requested)));
      match fetch
      case TransportFailed(err) => outcome.failure == Transport(err)
      case Received(resp) =>
        if resp.statusCode != StatusOK then
          match resp.asError
          case Decoded(e) => outcome.failure == ApiError(e.message)
          case Undecodable(err) => outcome.failure == DecodeError(err)
        else outcome.failure == DecodeError(resp.asResults.err)
  {
    var searchKey := Get(query, "q");
    var page := Get(query, "page");
    var search := new Search(searchKey);
    var next := RequestedPage(page);
    if next.ParseFailed? {
      return Failed(BadPage(next.err));
    }
    search.nextPage := next.value;
    var fetch := upstream(Request(search.searchKey, PageSize, PageArgument(search.nextPage)));
    if fetch.TransportFailed? {
      return Failed(Transport(fetch.err));
    }
    var resp := fetch.response;
    if resp.statusCode != StatusOK {
      match resp.asError
      case Decoded(e) => return Failed(ApiError(e.message));
      case Undecodable(err) => return Failed(DecodeError(err));
    }
    if resp.asResults.Undecodable? {
      return Failed(DecodeError(resp.asResults.err));
    }
    search.results := resp.asResults.value;
    search.Paginate();
    return Rendered(search);
  }

  /** The API's answer to a bad key is passed on as the visible error text,
      and a page that is not a number never reaches the API. */
  method HandlerSamples() {
    var rejected := Response(401, Decoded(NewsApiError("error", "apiKeyInvalid", "Your API key is invalid")), Undecodable("wrong schema"));
    var query := map["q" := ["golang"], "page" := ["2"]];
    assert Get(query, "page") == "2";
    assert RequestedPage("2") == Parsed(2) by { assert Unsigned("2") == "2"; }
    var o := HandleSearch(query, _ => Received(rejected));
    assert o == Failed(ApiError("Your API key is invalid"));

    var bad := map["q" := ["golang"], "page" := ["abc"]];
    assert Get(bad, "page") == "abc";
    NonNumericRejected("abc", 0);
    o := HandleSearch(bad, _ => Received(rejected));
    assert o == Failed(BadPage(ErrSyntax));
  }
}
