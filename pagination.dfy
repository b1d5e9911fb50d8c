// The pagination bar: the page count, the clamping `go`, the window of page
// numbers around the current page, and which of the first/last buttons,
// ellipses and arrows are shown.

module Pagination {
  import opened Common

  /** What the bar renders: the arrows' disabled flags, the first-page button
      and its ellipsis, the page numbers, the last-page button and its
      ellipsis. */
  datatype Bar = Bar(
    prevDisabled: bool, first: bool, firstEllipsis: bool, numbers: seq<int>,
    lastEllipsis: bool, last: bool, nextDisabled: bool, pages: nat)

  /** `go`: the page a click asks for, clamped into `1..pages`. */
  function Go(pages: nat, p: int): (r: int)
    requires pages >= 1
    ensures 1 <= r <= pages
    ensures 1 <= p <= pages ==> r == p
    ensures p < 1 ==> r == 1
    ensures p > pages ==> r == pages
  {
    Min(pages, Max(1, p))
  }

  /** The first page number of the window (`Math.floor(maxNumbers / 2)` is
      Dafny's `/` by a positive divisor). */
  function WindowStart(page: int, pages: nat, maxNumbers: int): int {
    var start := Max(1, page - maxNumbers / 2);
    var end := Min(pages, start + maxNumbers - 1);
    Max(1, end - maxNumbers + 1)
  }

  /** The last page number of the window. */
  function WindowEnd(page: int, pages: nat, maxNumbers: int): int {
    Min(pages, Max(1, page - maxNumbers / 2) + maxNumbers - 1)
  }

  /** The window holds `min(maxNumbers, pages)` consecutive pages inside
      `1..pages`, whatever the current page, and contains the current page
      when that page exists. */
  lemma WindowBounds(page: int, pages: nat, maxNumbers: int)
    requires pages >= 1 && maxNumbers >= 1
    ensures var start, end := WindowStart(page, pages, maxNumbers), WindowEnd(page, pages, maxNumbers);
      && 1 <= start <= end <= pages
      && end - start + 1 == Min(maxNumbers, pages)
      && (1 <= page <= pages ==> start <= page <= end)
  {
  }

  /** The component: nothing when there is a single page, the bar
      otherwise. `pageSize` is positive for every caller. */
  function Render(page: int, pageSize: nat, total: nat, maxNumbers: int): (r: Option<Bar>)
    requires pageSize >= 1
    ensures r.None? <==> PageCount(total, pageSize) <= 1
    ensures r.Some? ==> r.value.pages == PageCount(total, pageSize)
  {
    var pages := PageCount(total, pageSize);
    if pages <= 1 then None
    else
      var start := WindowStart(page, pages, maxNumbers);
      var end := WindowEnd(page, pages, maxNumbers);
      Some(Bar(
        prevDisabled := page == 1,
        first := start > 1,
        firstEllipsis := start > 1 && start > 2,
        numbers := seq(Max(0, end - start + 1), i => start + i),
        lastEllipsis := end < pages && end < pages - 1,
        last := end < pages,
        nextDisabled := page == pages,
        pages := pages))
  }

  /** The bar is hidden exactly when everything fits on one page. */
  lemma HiddenIffOnePage(pageSize: nat, total: nat)
    requires pageSize >= 1
    ensures PageCount(total, pageSize) <= 1 <==> total <= pageSize
  {
    var r := CeilDiv(total, pageSize);
    if total <= pageSize && r >= 2 {
      MulMonotone(1, r - 1, pageSize);
      assert false;
    }
    if total > pageSize && r <= 1 {
      MulMonotone(r, 1, pageSize);
      assert false;
    }
  }

  /** With a default-sized window around an existing page: the numbers are
      consecutive pages of `1..pages` including the current one, the first
      page is reachable by its number or the first-page button, the last page
      likewise, an ellipsis stands exactly for a gap, and the arrows are
      disabled exactly at the ends. */
  lemma RenderedBar(page: int, pageSize: nat, total: nat, maxNumbers: int)
    requires pageSize >= 1 && maxNumbers >= 1
    requires Render(page, pageSize, total, maxNumbers).Some?
    requires 1 <= page <= PageCount(total, pageSize)
    ensures var b := Render(page, pageSize, total, maxNumbers).value;
      && b.pages == PageCount(total, pageSize) >= 2
      && |b.numbers| == Min(maxNumbers, b.pages)
      && (forall i :: 0 <= i < |b.numbers| ==> 1 <= b.numbers[i] <= b.pages)
      && (forall i :: 0 < i < |b.numbers| ==> b.numbers[i] == b.numbers[i - 1] + 1)
      && page in b.numbers
      && (b.first <==> 1 !in b.numbers)
      && (b.firstEllipsis <==> b.first && 2 !in b.numbers)
      && (b.last <==> b.pages !in b.numbers)
      && (b.lastEllipsis <==> b.last && b.pages - 1 !in b.numbers)
      && (b.prevDisabled <==> page == 1)
      && (b.nextDisabled <==> page == b.pages)
  {
    var pages := PageCount(total, pageSize);
    var start := WindowStart(page, pages, maxNumbers);
    var end := WindowEnd(page, pages, maxNumbers);
    WindowBounds(page, pages, maxNumbers);
    var b := Render(page, pageSize, total, maxNumbers).value;
    assert b.numbers == seq(end - start + 1, i => start + i);
    assert b.numbers[page - start] == page;
    assert forall n :: n in b.numbers <==> start <= n <= end by {
      forall n ensures n in b.numbers <==> start <= n <= end {
        if start <= n <= end {
          assert b.numbers[n - start] == n;
        }
      }
    }
  }
}
