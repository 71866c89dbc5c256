/** "Load more" paging shared by the orders and reviews dashboards: page p asks for PageSize rows
    from offset (p - 1) * PageSize; page 1 replaces the list, later pages are appended to it. */
module Paging {

  const PageSize: nat := 10

  /** `(currentPage - 1) * itemsPerPage` */
  function Offset(page: int): int {
    (page - 1) * PageSize
  }

  /** The functional state update `prev => currentPage === 1 ? fetched : [...prev, ...fetched]`. */
  function Merge<T>(page: int, previous: seq<T>, fetched: seq<T>): seq<T> {
    if page == 1 then fetched else previous + fetched
  }

  /** The list after pages 1, 2, ..., |pages| have been fetched in turn, page i + 1 answering
      with pages[i]. */
  function LoadPages<T>(pages: seq<seq<T>>): seq<T> {
    if pages == [] then [] else Merge(|pages|, LoadPages(pages[..|pages| - 1]), pages[|pages| - 1])
  }

  function Concat<T>(pages: seq<seq<T>>): seq<T> {
    if pages == [] then [] else Concat(pages[..|pages| - 1]) + pages[|pages| - 1]
  }

  /** Consecutive offsets tile the result set: each page starts where the previous one ended. */
  lemma OffsetsAreContiguous(page: int)
    ensures Offset(1) == 0
    ensures Offset(page + 1) == Offset(page) + PageSize
  {
  }

  /** Loading pages one after another shows all their rows, in page order. */
  lemma {:induction false} LoadPagesConcatenates<T>(pages: seq<seq<T>>)
    ensures LoadPages(pages) == Concat(pages)
  {
    if |pages| > 1 {
      LoadPagesConcatenates(pages[..|pages| - 1]);
    }
  }

  /** While every page comes back full, the next request starts exactly after the rows shown. */
  lemma {:induction false} NextOffsetFollowsShownRows<T>(pages: seq<seq<T>>)
    requires forall i :: 0 <= i < |pages| ==> |pages[i]| == PageSize
    ensures |LoadPages(pages)| == Offset(|pages| + 1)
  {
    if pages != [] {
      NextOffsetFollowsShownRows(pages[..|pages| - 1]);
    }
  }
}
