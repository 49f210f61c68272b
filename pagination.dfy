/**
 * src/components/Pagination.jsx: the window of page numbers shown around the
 * current page, with '...' where numbers are skipped, and the navigation
 * guards that decide whether `onPageChange` is called and with which page.
 * `window.innerWidth` is a parameter; the callback is modelled by returning
 * the page it would receive (None when it is not called).
 */
module Pagination {
  import opened Js

  /** One entry of `visiblePages`: a page number or the '...' marker. */
  datatype PageEntry = Page(n: int) | Gap

  function Max(a: int, b: int): int { if a < b then b else a }
  function Min(a: int, b: int): int { if a < b then a else b }

  /** `window.innerWidth < 640 ? 3 : 5` */
  function MaxVisiblePages(innerWidth: int): (m: int)
    ensures m == 3 || m == 5
    ensures m == 3 <==> innerWidth < 640
  {
    if innerWidth < 640 then 3 else 5
  }

  /** The numbers `a..b`, empty when `b < a`. */
  function Ints(a: int, b: int): (r: seq<int>)
    ensures |r| == if b < a then 0 else b - a + 1
    ensures forall k :: 0 <= k < |r| ==> r[k] == a + k
  {
    seq(if b < a then 0 else b - a + 1, k => a + k)
  }

  /** Page entries for `a..b`. */
  function Range(a: int, b: int): (r: seq<PageEntry>)
    ensures |r| == if b < a then 0 else b - a + 1
    ensures forall k :: 0 <= k < |r| ==> r[k] == Page(a + k)
  {
    seq(if b < a then 0 else b - a + 1, k => Page(a + k))
  }

  /**
   * `start` and `end` of the middle run (src/components/Pagination.jsx:23-34):
   * `Math.floor((maxVisiblePages - 3) / 2)` siblings on each side of the
   * current page, moved inwards at either edge. Dafny's `/` by a positive
   * divisor rounds down, as `Math.floor` does.
   */
  function Window(current: int, total: int, maxVisiblePages: int): (w: (int, int))
    ensures 3 <= maxVisiblePages < total ==> 1 < w.0 <= w.1 < total
    ensures 3 <= maxVisiblePages < total && 1 < current < total ==> w.0 <= current <= w.1
    ensures 3 <= maxVisiblePages < total && maxVisiblePages % 2 == 1 ==> w.1 - w.0 + 1 == maxVisiblePages - 2
  {
    var siblings := (maxVisiblePages - 3) / 2;
    var start := Max(2, current - siblings);
    var end := Min(total - 1, current + siblings);
    if current <= siblings + 1 then (start, maxVisiblePages - 1)
    else if current >= total - siblings then (total - maxVisiblePages + 2, end)
    else (start, end)
  }

  /** The list `calculateVisiblePages` stores (specification of `CalculateVisiblePages`). */
  function VisiblePages(current: int, total: int, maxVisiblePages: int): (r: seq<PageEntry>)
    ensures total >= 1 && maxVisiblePages >= 3 ==> |r| > 0 && r[0] == Page(1) && r[|r| - 1] == Page(total)
  {
    if total <= maxVisiblePages then Range(1, total)
    else
      var (start, end) := Window(current, total, maxVisiblePages);
      [Page(1)] + (if start > 2 then [Gap] else []) + Range(start, end) +
      (if end < total - 1 then [Gap] else []) + [Page(total)]
  }

  /** The for loop of src/components/Pagination.jsx:40-42: pushes `start..end` in order. */
  method PushRun(pages: seq<PageEntry>, start: int, end: int) returns (r: seq<PageEntry>)
    ensures r == pages + Range(start, end)
  {
    r := pages;
    var i := start;
    while i <= end
      invariant start <= i && (i <= end + 1 || i == start)
      invariant r == pages + Range(start, i - 1)
    {
      assert Range(start, i) == Range(start, i - 1) + [Page(i)];
      r := r + [Page(i)];
      i := i + 1;
    }
    assert Range(start, i - 1) == Range(start, end);
  }

  /** `calculateVisiblePages(current, total)` with the width-dependent limit as a parameter (src/components/Pagination.jsx:14-49). */
  method CalculateVisiblePages(current: int, total: int, maxVisiblePages: int) returns (pages: seq<PageEntry>)
    ensures pages == VisiblePages(current, total, maxVisiblePages)
  {
    pages := [];
    if total <= maxVisiblePages {
      pages := Range(1, total);
    } else {
      var siblings := (maxVisiblePages - 3) / 2;
      var start := Max(2, current - siblings);
      var end := Min(total - 1, current + siblings);
      if current <= siblings + 1 {
        end := maxVisiblePages - 1;
      } else if current >= total - siblings {
        start := total - maxVisiblePages + 2;
      }
      assert (start, end) == Window(current, total, maxVisiblePages);
      ghost var head := [Page(1)] + (if start > 2 then [Gap] else []);
      ghost var tail := (if end < total - 1 then [Gap] else []) + [Page(total)];
      pages := pages + [Page(1)];
      if start > 2 {
        pages := pages + [Gap];
      }
      assert pages == head;
      pages := PushRun(pages, start, end);
      ghost var body := pages;
      if end < total - 1 {
        pages := pages + [Gap];
      }
      pages := pages + [Page(total)];
      assert pages == body + tail;
    }
  }

  // ------------------------------------------------------------------ meaning

  /** The reference rendering of a list of page numbers: '...' between two numbers exactly when they are not consecutive. */
  function WithGaps(ns: seq<int>): (r: seq<PageEntry>)
    ensures |ns| > 0 ==> |r| > 0 && r[0] == Page(ns[0]) && r[|r| - 1] == Page(ns[|ns| - 1])
    ensures |ns| <= |r| <= 2 * |ns|
    decreases |ns|
  {
    if |ns| == 0 then []
    else if |ns| == 1 then [Page(ns[0])]
    else [Page(ns[0])] + (if ns[1] > ns[0] + 1 then [Gap] else []) + WithGaps(ns[1..])
  }

  predicate StrictlyIncreasing(ns: seq<int>) {
    forall i, j :: 0 <= i < j < |ns| ==> ns[i] < ns[j]
  }

  lemma {:induction false} WithGapsRun(s: int, e: int, total: int)
    requires s <= e < total
    ensures WithGaps(Ints(s, e) + [total]) == Range(s, e) + (if total > e + 1 then [Gap] else []) + [Page(total)]
    decreases e - s
  {
    var ns := Ints(s, e) + [total];
    assert ns[0] == s;
    if s == e {
      assert ns == [s, total];
      assert ns[1..] == [total];
      assert Range(s, e) == [Page(s)];
    } else {
      assert ns[1] == s + 1;
      assert ns[1..] == Ints(s + 1, e) + [total];
      WithGapsRun(s + 1, e, total);
      assert Range(s, e) == [Page(s)] + Range(s + 1, e);
    }
  }

  /**
   * With more pages than fit, the list is the numbers 1, `start..end` and
   * `total` (strictly increasing, so within 1..total) rendered with '...'
   * exactly where consecutive numbers skip.
   */
  lemma ManyPagesShape(current: int, total: int, maxVisiblePages: int)
    requires 3 <= maxVisiblePages < total
    ensures var (start, end) := Window(current, total, maxVisiblePages);
            var ns := [1] + Ints(start, end) + [total];
            && 1 < start <= end < total
            && StrictlyIncreasing(ns) && ns[0] == 1 && ns[|ns| - 1] == total
            && VisiblePages(current, total, maxVisiblePages) == WithGaps(ns)
  {
    var (start, end) := Window(current, total, maxVisiblePages);
    var ns := [1] + Ints(start, end) + [total];
    assert ns[1..] == Ints(start, end) + [total];
    assert ns[1] == start;
    WithGapsRun(start, end, total);
  }

  /** With few pages, every page from 1 to `total` is listed and there is no '...'. */
  lemma FewPagesAllShown(current: int, total: int, maxVisiblePages: int)
    requires total <= maxVisiblePages
    ensures var pages := VisiblePages(current, total, maxVisiblePages);
            |pages| == (if total < 0 then 0 else total) && Gap !in pages &&
            forall k :: 0 <= k < |pages| ==> pages[k] == Page(k + 1)
  {
  }

  /** With an odd limit of at least 3 and more pages than that, exactly `maxVisiblePages` numbers are listed. */
  lemma ManyPagesCount(current: int, total: int, maxVisiblePages: int)
    requires 3 <= maxVisiblePages < total && maxVisiblePages % 2 == 1
    ensures var (start, end) := Window(current, total, maxVisiblePages);
            |[1] + Ints(start, end) + [total]| == maxVisiblePages
  {
  }

  /** A current page within 1..total is always listed. */
  lemma CurrentPageShown(current: int, total: int, maxVisiblePages: int)
    requires 3 <= maxVisiblePages && 1 <= current <= total
    ensures Page(current) in VisiblePages(current, total, maxVisiblePages)
  {
    var pages := VisiblePages(current, total, maxVisiblePages);
    if total <= maxVisiblePages {
      assert pages[current - 1] == Page(current);
    } else {
      var (start, end) := Window(current, total, maxVisiblePages);
      var head := [Page(1)] + (if start > 2 then [Gap] else []);
      var mid := Range(start, end);
      var tail := (if end < total - 1 then [Gap] else []) + [Page(total)];
      assert pages == head + mid + tail;
      if current == 1 {
        assert pages[0] == Page(1);
      } else if current == total {
        assert pages[|pages| - 1] == Page(total);
      } else {
        assert start <= current <= end;
        assert mid[current - start] == Page(current);
        assert pages[|head| + (current - start)] == Page(current);
      }
    }
  }

  // -------------------------------------------------------------- navigation

  /** `handlePageClick(page)`: '...' and the current page do nothing (src/components/Pagination.jsx:51-55). */
  function PageClick(page: PageEntry, currentPage: int): (r: Option<int>)
    ensures r.Some? <==> page.Page? && page.n != currentPage
    ensures r.Some? ==> r.value == page.n
  {
    if page.Page? && page.n != currentPage then Some(page.n) else None
  }

  /** `goToFirstPage` (src/components/Pagination.jsx:57-59). */
  function GoToFirstPage(currentPage: int): (r: Option<int>)
    ensures r.Some? <==> currentPage != 1
    ensures r.Some? ==> r.value == 1
  {
    if currentPage != 1 then Some(1) else None
  }

  /** `goToLastPage` (src/components/Pagination.jsx:61-63). */
  function GoToLastPage(currentPage: int, totalPages: int): (r: Option<int>)
    ensures r.Some? <==> currentPage != totalPages
    ensures r.Some? ==> r.value == totalPages
  {
    if currentPage != totalPages then Some(totalPages) else None
  }

  /** `goToPrevPage` (src/components/Pagination.jsx:65-67). */
  function GoToPrevPage(currentPage: int): (r: Option<int>)
    ensures r.Some? <==> currentPage > 1
    ensures r.Some? ==> r.value == currentPage - 1
  {
    if currentPage > 1 then Some(currentPage - 1) else None
  }

  /** `goToNextPage` (src/components/Pagination.jsx:69-71). */
  function GoToNextPage(currentPage: int, totalPages: int): (r: Option<int>)
    ensures r.Some? <==> currentPage < totalPages
    ensures r.Some? ==> r.value == currentPage + 1
  {
    if currentPage < totalPages then Some(currentPage + 1) else None
  }

  /**
   * From a page within 1..total, every navigation button either does nothing
   * or moves to a different page that is still within 1..total; prev and next
   * move by exactly one, and each is disabled only at its own edge.
   */
  lemma NavigationStaysInRange(currentPage: int, totalPages: int)
    requires 1 <= currentPage <= totalPages
    ensures forall r :: r in [GoToFirstPage(currentPage), GoToLastPage(currentPage, totalPages),
                              GoToPrevPage(currentPage), GoToNextPage(currentPage, totalPages)] && r.Some? ==>
              1 <= r.value <= totalPages && r.value != currentPage
    ensures GoToPrevPage(currentPage) == (if currentPage == 1 then None else Some(currentPage - 1))
    ensures GoToNextPage(currentPage, totalPages) == (if currentPage == totalPages then None else Some(currentPage + 1))
    ensures GoToFirstPage(currentPage).None? <==> currentPage == 1
    ensures GoToLastPage(currentPage, totalPages).None? <==> currentPage == totalPages
  {
  }

  /** Clicking any listed number moves to a different page within 1..total. */
  lemma ClickStaysInRange(page: PageEntry, current: int, total: int, maxVisiblePages: int)
    requires 3 <= maxVisiblePages && page in VisiblePages(current, total, maxVisiblePages)
    ensures PageClick(page, current).Some? ==> 1 <= PageClick(page, current).value <= total
  {
    var pages := VisiblePages(current, total, maxVisiblePages);
    var k :| 0 <= k < |pages| && pages[k] == page;
    if total > maxVisiblePages {
      var (start, end) := Window(current, total, maxVisiblePages);
      ManyPagesShape(current, total, maxVisiblePages);
      var head := [Page(1)] + (if start > 2 then [Gap] else []);
      var mid := Range(start, end);
      var tail := (if end < total - 1 then [Gap] else []) + [Page(total)];
      assert pages == head + mid + tail;
      if |head| <= k < |head| + |mid| {
        assert page == mid[k - |head|];
      }
    }
  }

  /** `if (totalPages <= 1) return null`: the pager is rendered only with at least two pages (src/components/Pagination.jsx:74). */
  function Renders(totalPages: int): (r: bool)
    ensures r <==> totalPages >= 2
  {
    !(totalPages <= 1)
  }
}
