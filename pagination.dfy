/** The pagination state of one search request: the keyword, the page the
    "next" link asks for, the number of pages, and the decoded results. The
    handler fills it in field by field and then runs the pagination step once,
    before the page is rendered. */
module Pagination {

  import opened GoInt
  import opened News

  /** The number of articles asked of the upstream API per page. */
  const PageSize: int := 20

  /** The page count the handler computes: the total number of results
      divided by the page size with Go's truncating `/`. The `math.Ceil` that
      surrounds it in the source is applied to that already-truncated
      quotient, so the count is the number of FULL pages. */
  function TotalPagesFor(totalResults: Int): (pages: Int)
    ensures totalResults >= 0 ==>
      pages >= 0 && pages * PageSize <= totalResults < pages * PageSize + PageSize
    ensures totalResults < 0 ==>
      pages <= 0 && totalResults <= pages * PageSize < totalResults + PageSize
  {
    Quo(totalResults, PageSize)
  }

  /** What the name "total pages" suggests: enough pages of PageSize to hold
      every result, the last one possibly partial. */
  function CeilPages(totalResults: nat): nat {
    (totalResults + PageSize - 1) / PageSize
  }

  /** The computed count is the rounded-down quotient: it misses one page
      exactly when the results do not fill a whole number of pages, and the
      results it leaves out are the remainder. */
  lemma FloorNotCeiling(totalResults: nat)
    requires totalResults <= MaxInt
    ensures CeilPages(totalResults) - 1 <= TotalPagesFor(totalResults) <= CeilPages(totalResults)
    ensures TotalPagesFor(totalResults) == CeilPages(totalResults) <==> totalResults % PageSize == 0
    ensures totalResults - TotalPagesFor(totalResults) * PageSize == totalResults % PageSize
  {
  }

  /** Sample page counts, including a negative total, which Go's truncating
      division rounds toward zero. */
  lemma PageCountSamples()
    ensures TotalPagesFor(45) == 2
    ensures TotalPagesFor(40) == 2
    ensures TotalPagesFor(39) == 1
    ensures TotalPagesFor(0) == 0
    ensures TotalPagesFor(100) == 5
    ensures TotalPagesFor(-45) == -2
  {
  }

  class Search {
    var searchKey: string
    /** The page the "next" link asks for. It holds the requested page until
        the pagination step, which advances it past the page being shown. */
    var nextPage: Int
    var totalPages: Int
    var results: Results

    /** A search with the Go zero value in every field but the keyword. */
    constructor (searchKey: string)
      ensures this.searchKey == searchKey
      ensures nextPage == 0 && totalPages == 0 && results == NoResults
    {
      this.searchKey := searchKey;
      nextPage := 0;
      totalPages := 0;
      results := NoResults;
    }

    /** Whether there is no page after the one the "next" link names. While
        there is one, the next page can be advanced by one without leaving
        the range of a Go `int`. */
    predicate IsLastPage()
      reads this
      ensures !IsLastPage() <==> nextPage < totalPages
      ensures !IsLastPage() ==> InIntRange(nextPage + 1)
    {
      nextPage >= totalPages
    }

    /** The page being shown, recovered from the stored next page: one
        behind it, except that page 1 is reported as itself. The subtraction
        is on a Go `int` and wraps at the bottom of the range. */
    function CurrentPage(): (r: Int)
      reads this
      ensures r == nextPage <==> nextPage == 1
      ensures r != nextPage && nextPage != MinInt ==> r == nextPage - 1
      ensures nextPage == MinInt ==> r == MaxInt
    {
      if nextPage == 1 then nextPage else Wrap(nextPage - 1)
    }

    /** The page before the one being shown. */
    function PreviousPage(): (r: Int)
      reads this
      ensures nextPage > MinInt + 1 ==> r == (if nextPage == 1 then 0 else nextPage - 2)
      ensures nextPage != MinInt + 1 ==> r + 1 == CurrentPage()
      // one above the bottom of the range, the current page is MinInt and
      // one less than it wraps
      ensures nextPage == MinInt + 1 ==> r == MaxInt
      ensures 1 <= nextPage ==> 0 <= r < nextPage
    {
      Wrap(CurrentPage() - 1)
    }

    /** The pagination step: compute the page count from the decoded total,
        then advance the next page by one unless the search is on its last
        page. Nothing else changes, and the increment never overflows. */
    method Paginate()
      modifies this
      ensures searchKey == old(searchKey) && results == old(results)
      ensures totalPages == TotalPagesFor(results.totalResults)
      ensures nextPage == if old(nextPage) < totalPages then old(nextPage) + 1 else old(nextPage)
      ensures old(nextPage) < totalPages ==> nextPage <= totalPages
      // the page before the last is already reported as the last one
      ensures IsLastPage() <==> old(nextPage) + 1 >= totalPages
      ensures old(nextPage) >= 1 ==> (IsLastPage() <==> CurrentPage() + 1 >= totalPages)
      // the shown page is the requested one, except for page 0 and for a page
      // past the first once nothing is left to advance to
      ensures CurrentPage() == old(nextPage) <==>
        old(nextPage) == 1 || (old(nextPage) != 0 && old(nextPage) < totalPages)
      ensures old(nextPage) == 0 && 0 < totalPages ==> CurrentPage() == 1
      ensures old(nextPage) > 1 && old(nextPage) >= totalPages ==> CurrentPage() == old(nextPage) - 1
    {
      totalPages := TotalPagesFor(results.totalResults);
      if !IsLastPage() {
        nextPage := Wrap(nextPage + 1);
      }
    }
  }

  /** Three requests followed through the step. */
  method PaginationSamples() {
    var s := new Search("golang");
    s.results := Results("ok", 100, []);
    s.nextPage := 1;
    s.Paginate();
    assert s.totalPages == 5 && s.nextPage == 2 && !s.IsLastPage();
    assert s.CurrentPage() == 1 && s.PreviousPage() == 0;

    var t := new Search("golang");
    t.results := Results("ok", 100, []);
    t.nextPage := 5;
    t.Paginate();
    assert t.nextPage == 5 && t.IsLastPage() && t.CurrentPage() == 4;

    var u := new Search("golang");
    u.results := Results("ok", 100, []);
    u.nextPage := 0;
    u.Paginate();
    assert u.nextPage == 1 && u.CurrentPage() == 1 && u.PreviousPage() == 0;
  }
}
