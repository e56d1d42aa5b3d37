/** The payloads the upstream news-search API returns, as the handler holds
    them after JSON decoding. The decoding itself is not modelled: these are
    the values it yields. */
module News {

  import opened GoInt

  datatype Option<T> = None | Some(value: T)

  /** The publisher of an article. The identifier is a string or null in the
      payloads the API sends. */
  datatype Source = Source(id: Option<string>, name: string)

  /** One article. The publication instant is kept as the ISO-8601 text the
      API sent; formatting it for display is not part of this model. */
  datatype Article = Article(
    source: Source,
    author: string,
    title: string,
    description: string,
    url: string,
    urlToImage: string,
    publishedAt: string,
    content: string)

  /** The success payload: a status, the total number of matching articles
      (not just those on this page) and the articles of this page, in the
      order the API sent them. The total is a Go `int`: a number outside its
      range fails the decoding. */
  datatype Results = Results(status: string, totalResults: Int, articles: seq<Article>)

  /** The Go zero value of Results, which a new search starts from. */
  const NoResults := Results("", 0, [])

  /** The error payload the API sends with a status other than 200. */
  datatype NewsApiError = NewsApiError(status: string, code: string, message: string)
}
