/** The pagination bar: hidden for a single page, the "showing X to Y of N"
    bounds, the page-number window with ellipses, and the disabled state of
    the previous / next buttons. */
module Pagination {
  import opened Common
  import AppList

  datatype PaginationState = PaginationState(currentPage: int, itemsPerPage: int, totalItems: int, totalPages: int)

  datatype PageItem = Num(n: int) | Ellipsis

  const MaxVisible: int := 7

  // ---------------------------------------------------------------------------
  // The page-number window.

  function Max(a: int, b: int): int {
    if a >= b then a else b
  }

  function Min(a: int, b: int): int {
    if a <= b then a else b
  }

  /** The page numbers `lo..hi`, inclusive (empty when `hi < lo`). */
  function Nums(lo: int, hi: int): (r: seq<PageItem>)
    ensures |r| == Max(0, hi - lo + 1)
    ensures forall k :: 0 <= k < |r| ==> r[k] == Num(lo + k)
    decreases hi - lo
  {
    if hi < lo then [] else Nums(lo, hi - 1) + [Num(hi)]
  }

  /** The entries shown between the previous and next buttons. */
  function PageWindow(currentPage: int, totalPages: int): (w: seq<PageItem>)
    ensures |w| <= MaxVisible
    ensures totalPages >= 1 ==> 0 < |w| && w[0] == Num(1) && w[|w| - 1] == Num(totalPages)
    ensures forall k :: 0 <= k < |w| && w[k].Num? ==> 1 <= w[k].n <= totalPages
  {
    if totalPages <= MaxVisible then Nums(1, totalPages)
    else
      [Num(1)]
      + (if currentPage > 3 then [Ellipsis] else [])
      + Nums(Max(2, currentPage - 1), Min(totalPages - 1, currentPage + 1))
      + (if currentPage < totalPages - 2 then [Ellipsis] else [])
      + [Num(totalPages)]
  }

  /** One `for (let i = lo; i <= hi; i++) pages.push(i)` loop. */
  method PushRange(pages: seq<PageItem>, lo: int, hi: int) returns (r: seq<PageItem>)
    ensures r == pages + Nums(lo, hi)
  {
    r := pages;
    var i := lo;
    while i <= hi
      invariant lo <= i <= Max(lo, hi + 1)
      invariant r == pages + Nums(lo, i - 1)
      decreases hi - i
    {
      r := r + [Num(i)];
      i := i + 1;
    }
  }

  /** `getPageNumbers`. */
  method GetPageNumbers(currentPage: int, totalPages: int) returns (pages: seq<PageItem>)
    ensures pages == PageWindow(currentPage, totalPages)
  {
    pages := [];
    if totalPages <= MaxVisible {
      pages := PushRange(pages, 1, totalPages);
    } else {
      pages := pages + [Num(1)];
      if currentPage > 3 {
        pages := pages + [Ellipsis];
      }
      assert pages == [Num(1)] + (if currentPage > 3 then [Ellipsis] else []);
      var start := Max(2, currentPage - 1);
      var end := Min(totalPages - 1, currentPage + 1);
      pages := PushRange(pages, start, end);
      ghost var middle := pages;
      if currentPage < totalPages - 2 {
        pages := pages + [Ellipsis];
      }
      assert pages == middle + (if currentPage < totalPages - 2 then [Ellipsis] else []);
      pages := pages + [Num(totalPages)];
    }
  }

  /** Up to seven pages, every page is listed, in order, with no ellipsis. */
  lemma SmallWindowListsAll(currentPage: int, totalPages: int)
    requires 0 <= totalPages <= MaxVisible
    ensures |PageWindow(currentPage, totalPages)| == totalPages
    ensures forall k :: 0 <= k < totalPages ==> PageWindow(currentPage, totalPages)[k] == Num(k + 1)
  {
  }

  /** The layout of the window for more than seven pages. */
  lemma LargeWindowLayout(cur: int, tp: int)
    requires tp > MaxVisible && 1 <= cur <= tp
    ensures var p := PageWindow(cur, tp);
      var a := if cur > 3 then 1 else 0;
      var s := Max(2, cur - 1);
      var m := Min(tp - 1, cur + 1) - s + 1;
      var b := if cur < tp - 2 then 1 else 0;
      && 1 <= m <= 3
      && |p| == 2 + a + m + b
      && p[0] == Num(1)
      && (a == 1 ==> p[1] == Ellipsis)
      && (forall k :: 1 + a <= k < 1 + a + m ==> p[k] == Num(s + k - 1 - a))
      && (b == 1 ==> p[1 + a + m] == Ellipsis)
      && p[|p| - 1] == Num(tp)
  {
    var a := if cur > 3 then 1 else 0;
    var s := Max(2, cur - 1);
    var e := Min(tp - 1, cur + 1);
    var head := [Num(1)] + (if cur > 3 then [Ellipsis] else []);
    var mid := Nums(s, e);
    var tail := (if cur < tp - 2 then [Ellipsis] else []) + [Num(tp)];
    assert PageWindow(cur, tp) == head + mid + tail;
    assert |head| == 1 + a;
    forall k | 1 + a <= k < 1 + a + |mid| ensures (head + mid + tail)[k] == Num(s + k - 1 - a) {
      assert (head + mid + tail)[k] == mid[k - 1 - a];
    }
  }

  /** For more than seven pages and a page in range: the window starts at 1,
      ends at the last page, holds the pages around the current one, shows
      an ellipsis after 1 exactly when the current page is past 3 and one
      before the last exactly when it is more than two from the end, and has
      at most seven entries. */
  lemma LargeWindowShape(cur: int, tp: int)
    requires tp > MaxVisible && 1 <= cur <= tp
    ensures var p := PageWindow(cur, tp);
      && |p| <= MaxVisible
      && p[0] == Num(1) && p[|p| - 1] == Num(tp)
      && (p[1] == Ellipsis <==> cur > 3)
      && (p[|p| - 2] == Ellipsis <==> cur < tp - 2)
      && Num(cur) in p
      && (forall q :: Max(2, cur - 1) <= q <= Min(tp - 1, cur + 1) ==> Num(q) in p)
  {
    LargeWindowLayout(cur, tp);
    var p := PageWindow(cur, tp);
    var a := if cur > 3 then 1 else 0;
    var s := Max(2, cur - 1);
    forall q | Max(2, cur - 1) <= q <= Min(tp - 1, cur + 1) ensures Num(q) in p {
      var k := 1 + a + (q - s);
      assert p[k] == Num(q);
    }
  }

  /** Every page number in the window is a real page, the numbers strictly
      increase, and two adjacent numbers with no ellipsis between them are
      consecutive pages; an ellipsis always stands for at least one hidden
      page. */
  lemma {:induction false} LargeWindowOrdered(cur: int, tp: int)
    requires tp > MaxVisible && 1 <= cur <= tp
    ensures var p := PageWindow(cur, tp);
      && (forall k :: 0 <= k < |p| && p[k].Num? ==> 1 <= p[k].n <= tp)
      && (forall i, j :: 0 <= i < j < |p| && p[i].Num? && p[j].Num? ==> p[i].n < p[j].n)
      && (forall k :: 0 <= k < |p| - 1 && p[k].Num? && p[k + 1].Num? ==> p[k + 1].n == p[k].n + 1)
      && (forall k :: 0 < k < |p| - 1 && p[k].Ellipsis? ==>
            p[k - 1].Num? && p[k + 1].Num? && p[k + 1].n > p[k - 1].n + 1)
  {
    LargeWindowLayout(cur, tp);
  }

  // ---------------------------------------------------------------------------
  // The bar as rendered.

  datatype Bar =
    | Hidden
    | Shown(startItem: int, endItem: int, totalItems: int, pages: seq<PageItem>,
            prevDisabled: bool, nextDisabled: bool)

  function StartItem(currentPage: int, itemsPerPage: int): int {
    (currentPage - 1) * itemsPerPage + 1
  }

  function EndItem(currentPage: int, itemsPerPage: int, totalItems: int): int {
    Min(currentPage * itemsPerPage, totalItems)
  }

  /** The component's output for a pagination state. */
  function Render(s: PaginationState): (r: Bar)
    ensures r.Hidden? <==> s.totalPages <= 1
    ensures r.Shown? ==> r.pages == PageWindow(s.currentPage, s.totalPages)
    ensures r.Shown? ==> (r.prevDisabled <==> s.currentPage == 1) && (r.nextDisabled <==> s.currentPage == s.totalPages)
    ensures r.Shown? ==> r.startItem == StartItem(s.currentPage, s.itemsPerPage)
    ensures r.Shown? ==> r.endItem == EndItem(s.currentPage, s.itemsPerPage, s.totalItems)
  {
    if s.totalPages <= 1 then Hidden
    else Shown(StartItem(s.currentPage, s.itemsPerPage), EndItem(s.currentPage, s.itemsPerPage, s.totalItems),
               s.totalItems, PageWindow(s.currentPage, s.totalPages),
               s.currentPage == 1, s.currentPage == s.totalPages)
  }

  /** `totalPages` is the ceiling of `totalItems / itemsPerPage`. */
  predicate Consistent(s: PaginationState) {
    s.itemsPerPage > 0 && s.totalItems >= 0
    && s.totalPages == (s.totalItems + s.itemsPerPage - 1) / s.itemsPerPage
  }

  lemma CeilingBound(total: int, per: int, tp: int)
    requires per > 0 && total >= 0 && tp == (total + per - 1) / per
    ensures (tp - 1) * per < total || tp == 0
    ensures total <= tp * per
  {
    var r := (total + per - 1) % per;
    assert total + per - 1 == tp * per + r;
    assert (tp - 1) * per == tp * per - per;
  }

  lemma MulMono(a: int, b: int, per: int)
    requires per > 0 && a <= b
    ensures a * per <= b * per
  {
    assert b * per - a * per == (b - a) * per;
  }

  /** For a consistent state showing a page in range, the first item shown is
      at least 1, the last is at most the total, and the first does not pass
      the last. */
  lemma ShownRangeBounds(s: PaginationState)
    requires Consistent(s) && s.totalPages >= 2 && 1 <= s.currentPage <= s.totalPages
    ensures var r := Render(s);
      1 <= r.startItem <= r.endItem <= s.totalItems
  {
    var cur, per, total, tp := s.currentPage, s.itemsPerPage, s.totalItems, s.totalPages;
    CeilingBound(total, per, tp);
    MulMono(cur - 1, tp - 1, per);
    MulMono(0, cur - 1, per);
    assert cur * per == (cur - 1) * per + per;
  }

  /** The previous and next buttons, when enabled, lead to pages in range. */
  lemma ButtonsStayInRange(s: PaginationState)
    requires s.totalPages >= 2 && 1 <= s.currentPage <= s.totalPages
    ensures var r := Render(s);
      && (!r.prevDisabled ==> 1 <= s.currentPage - 1 <= s.totalPages)
      && (!r.nextDisabled ==> 1 <= s.currentPage + 1 <= s.totalPages)
  {
  }

  /** With the page's 24 items per page, the bar's "X to Y" counts exactly the
      games on the current page. */
  lemma ShownCountMatchesPage<T>(items: seq<T>, currentPage: int)
    requires 1 <= currentPage <= AppList.TotalPages(|items|)
    ensures EndItem(currentPage, 24, |items|) - StartItem(currentPage, 24) + 1 == |AppList.PageSlice(items, currentPage)|
  {
  }
}
