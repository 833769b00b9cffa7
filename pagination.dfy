/**
 * The `usePagination` hook (src/hooks/usePagination.ts): the page count, the
 * window of at most `maxPages` page numbers around the current page, the item
 * range of the current page and the next/previous flags. The React state is
 * the `currentPage` parameter.
 */
module Pagination {

  /** `maxPages` when the caller leaves it out. */
  const DefaultMaxPages: nat := 5

  /** `Math.ceil(totalItems / pageSize)`. */
  function TotalPages(totalItems: nat, pageSize: nat): (t: nat)
    requires pageSize > 0
    ensures t <= totalItems
    ensures t == 0 <==> totalItems == 0
  {
    CeilingBounds(totalItems, pageSize);
    (totalItems + pageSize - 1) / pageSize
  }

  /** The rounded-up quotient is no more than the item count, and zero only for no items. */
  lemma CeilingBounds(n: nat, p: nat)
    requires p > 0
    ensures (n + p - 1) / p <= n
    ensures (n + p - 1) / p == 0 <==> n == 0
  {
    var m := n + p - 1;
    var q := m / p;
    assert m == q * p + m % p && 0 <= m % p < p;
    if q > n {
      MulMonotone(n + 1, q, p);
      MulMonotone(1, p, n);
      assert false;
    }
    if n == 0 && q > 0 {
      MulMonotone(1, q, p);
      assert false;
    }
    if n > 0 && q == 0 {
      assert false;
    }
  }


  lemma MulMonotone(a: int, b: int, k: nat)
    requires a <= b
    ensures a * k <= b * k
  {
  }

  /**
   * The page count is the least number of pages of `pageSize` items that hold
   * every item: the pages cover them, and one page fewer would not.
   */
  lemma TotalPagesIsCeiling(totalItems: nat, pageSize: nat)
    requires pageSize > 0
    ensures TotalPages(totalItems, pageSize) * pageSize >= totalItems
    ensures (TotalPages(totalItems, pageSize) - 1) * pageSize < totalItems || totalItems == 0
    ensures TotalPages(totalItems, pageSize) == 0 <==> totalItems == 0
  {
    var t := TotalPages(totalItems, pageSize);
    var r := (totalItems + pageSize - 1) % pageSize;
    assert totalItems + pageSize - 1 == t * pageSize + r;
  }

  function Max(a: int, b: int): int {
    if a >= b then a else b
  }

  function Min(a: int, b: int): int {
    if a <= b then a else b
  }

  /** `startPage` as the window first places it, centred on the current page. */
  function CentredStart(currentPage: int, maxPages: nat): int {
    Max(1, currentPage - maxPages / 2)
  }

  /** `endPage`. */
  function WindowEnd(currentPage: int, totalPages: nat, maxPages: nat): int {
    Min(totalPages, CentredStart(currentPage, maxPages) + maxPages - 1)
  }

  /** `startPage` after it is moved back when the window ran into the last page. */
  function WindowStart(currentPage: int, totalPages: nat, maxPages: nat): int {
    var start := CentredStart(currentPage, maxPages);
    var end := WindowEnd(currentPage, totalPages, maxPages);
    if end - start + 1 < maxPages then Max(1, end - maxPages + 1) else start
  }

  /** The consecutive ascending run `lo, lo + 1, …, hi` (empty when `hi < lo`). */
  function Run(lo: int, hi: int): (r: seq<int>)
    ensures |r| == Max(0, hi - lo + 1)
    ensures forall i :: 0 <= i < |r| ==> r[i] == lo + i
  {
    seq(Max(0, hi - lo + 1), i requires 0 <= i => lo + i)
  }

  /** The page numbers the hook shows. */
  function Window(currentPage: int, totalPages: nat, maxPages: nat): seq<int> {
    Run(WindowStart(currentPage, totalPages, maxPages), WindowEnd(currentPage, totalPages, maxPages))
  }

  /** `pageNumbers`: the loop that pushes `startPage … endPage`. */
  method PageNumbers(currentPage: int, totalPages: nat, maxPages: nat) returns (pages: seq<int>)
    ensures pages == Window(currentPage, totalPages, maxPages)
    ensures forall i :: 0 <= i < |pages| ==> 1 <= pages[i] <= totalPages
    ensures forall i, j :: 0 <= i < j < |pages| ==> pages[i] < pages[j]
    ensures totalPages == 0 ==> pages == []
    ensures |pages| <= maxPages
    ensures totalPages >= maxPages ==> |pages| == maxPages
    ensures 1 <= currentPage <= totalPages && maxPages >= 1 ==> currentPage in pages
  {
    pages := [];
    var startPage := Max(1, currentPage - maxPages / 2);
    var endPage := Min(totalPages, startPage + maxPages - 1);
    if endPage - startPage + 1 < maxPages {
      startPage := Max(1, endPage - maxPages + 1);
    }
    var i := startPage;
    while i <= endPage
      invariant startPage <= i <= Max(startPage, endPage + 1)
      invariant pages == Run(startPage, i - 1)
      decreases endPage - i
    {
      pages := pages + [i];
      i := i + 1;
    }
    if 1 <= currentPage <= totalPages && maxPages >= 1 {
      WindowContainsCurrent(currentPage, totalPages, maxPages);
    }
  }

  /** A current page that exists is always among the page numbers shown. */
  lemma WindowContainsCurrent(currentPage: int, totalPages: nat, maxPages: nat)
    requires 1 <= currentPage <= totalPages && maxPages >= 1
    ensures currentPage in Window(currentPage, totalPages, maxPages)
  {
    var w := Window(currentPage, totalPages, maxPages);
    var start := WindowStart(currentPage, totalPages, maxPages);
    assert w[currentPage - start] == currentPage;
  }

  /** `pageItems`: the half-open item range `[start, end)` of the current page. */
  datatype ItemRange = ItemRange(start: int, end: int)

  function PageItems(currentPage: int, pageSize: nat): (r: ItemRange)
    ensures r.end - r.start == pageSize
  {
    var start := (currentPage - 1) * pageSize;
    ItemRange(start, start + pageSize)
  }

  /** The last page holds the last item. */
  lemma LastPageHoldsLastItem(totalItems: nat, pageSize: nat)
    requires pageSize > 0 && totalItems > 0
    ensures var r := PageItems(TotalPages(totalItems, pageSize), pageSize);
      r.start < totalItems <= r.end
  {
    TotalPagesIsCeiling(totalItems, pageSize);
  }

  /** `hasNextPage`. */
  predicate HasNextPage(currentPage: int, totalPages: nat) {
    currentPage < totalPages
  }

  /** `hasPrevPage`. */
  predicate HasPrevPage(currentPage: int) {
    currentPage > 1
  }

  /** There is a next page exactly when the next page's range starts before the last item. */
  lemma NextPageHasItems(totalItems: nat, pageSize: nat, currentPage: int)
    requires pageSize > 0 && currentPage >= 1
    ensures HasNextPage(currentPage, TotalPages(totalItems, pageSize)) <==>
      PageItems(currentPage + 1, pageSize).start < totalItems
  {
    var t := TotalPages(totalItems, pageSize);
    TotalPagesIsCeiling(totalItems, pageSize);
    if currentPage < t {
      MulMonotone(currentPage, t - 1, pageSize);
    } else {
      MulMonotone(t, currentPage, pageSize);
    }
  }

  /** There is a previous page exactly when items come before the current page's range. */
  lemma PrevPageHasItems(pageSize: nat, currentPage: int)
    requires pageSize > 0 && currentPage >= 1
    ensures HasPrevPage(currentPage) <==> PageItems(currentPage, pageSize).start > 0
  {
    if currentPage > 1 {
      MulMonotone(1, currentPage - 1, pageSize);
    }
  }
}
