// The product listing pages: the page number read from the URL, the page of
// products shown, and the pagination bar they feed.

module ProductsPage {
  import opened Common
  import Pagination

  const PageSize: nat := 20

  /** `Math.max(1, Number(search.get("page")) || 1)`, given the value of
      `Number(...)`; `None` is NaN. */
  function PageOf(number: Option<real>): (page: real)
    ensures page >= 1.0
    ensures number.None? || number == Some(0.0) ==> page == 1.0
    ensures number.Some? && number.value >= 1.0 ==> page == number.value
    ensures number.Some? && number.value < 1.0 ==> page == 1.0
  {
    var n := if number.None? || number.value == 0.0 then 1.0 else number.value;
    if n >= 1.0 then n else 1.0
  }

  /** `paginate`: `arr.slice((page - 1) * size, (page - 1) * size + size)`;
      a fractional bound is truncated by `slice`. */
  function Paginate<T>(arr: seq<T>, page: real, size: nat): (r: seq<T>)
    requires page >= 1.0
  {
    var start := (page - 1.0) * size as real;
    JsSlice(arr, start.Floor, (start + size as real).Floor)
  }

  /** A page holds at most `size` items, and for a whole page number it is
      the run of items from `(page - 1) * size` on. */
  lemma PaginateWindow<T>(arr: seq<T>, page: int, size: nat)
    requires page >= 1
    ensures var r := Paginate(arr, page as real, size);
      && |r| <= size
      && var start := (page - 1) * size;
         r == if start < |arr| then arr[start..Min(start + size, |arr|)] else []
  {
    var start := (page - 1) * size;
    MulMonotone(0, page - 1, size);
    assert ((page as real - 1.0) * size as real).Floor == start;
    assert ((page as real - 1.0) * size as real + size as real).Floor == start + size;
    JsSliceInRange(arr, start, start + size);
  }

  /** Any page, whole or not, holds at most `size` items. */
  lemma PaginateSize<T>(arr: seq<T>, page: real, size: nat)
    requires page >= 1.0
    ensures |Paginate(arr, page, size)| <= size
  {
    var start := (page - 1.0) * size as real;
    assert start >= 0.0 by {
      MulRealNonNegative(page - 1.0, size as real);
    }
    assert (start + size as real).Floor == start.Floor + size;
  }

  lemma MulRealNonNegative(a: real, b: real)
    requires a >= 0.0 && b >= 0.0
    ensures a * b >= 0.0
  {
  }

  /** Pages `1..k` one after the other. */
  function FirstPages<T>(arr: seq<T>, size: nat, k: nat): seq<T> {
    if k == 0 then [] else FirstPages(arr, size, k - 1) + Paginate(arr, k as real, size)
  }

  /** Pages `1..k` together are the first `k * size` items. */
  lemma {:induction false} FirstPagesPrefix<T>(arr: seq<T>, size: nat, k: nat)
    ensures FirstPages(arr, size, k) == arr[..Min(k * size, |arr|)]
  {
    if k > 0 {
      FirstPagesPrefix(arr, size, k - 1);
      PaginateWindow(arr, k, size);
      var start := (k - 1) * size;
      assert k * size == start + size;
      MulMonotone(0, k - 1, size);
      if start < |arr| {
        assert arr[..start] + arr[start..Min(start + size, |arr|)] == arr[..Min(start + size, |arr|)];
      }
    }
  }

  /** Pages `1..⌈n/size⌉` together are exactly the list. */
  lemma PagesCoverList<T>(arr: seq<T>, size: nat)
    requires size >= 1
    ensures FirstPages(arr, size, CeilDiv(|arr|, size)) == arr
  {
    FirstPagesPrefix(arr, size, CeilDiv(|arr|, size));
    assert arr[..|arr|] == arr;
  }

  /** The bar under the grid counts the whole list in pages of twenty, and
      every page it offers shows at least one product. */
  lemma OfferedPagesNonEmpty<T>(arr: seq<T>, page: int)
    requires 1 <= page <= PageCount(|arr|, PageSize) && |arr| > 0
    ensures |Paginate(arr, page as real, PageSize)| >= 1
    ensures Pagination.Render(page, PageSize, |arr|, 5).Some? ==>
      Pagination.Render(page, PageSize, |arr|, 5).value.pages == PageCount(|arr|, PageSize)
  {
    PaginateWindow(arr, page, PageSize);
    var c := CeilDiv(|arr|, PageSize);
    assert c >= 1;
    if page > 1 {
      assert page <= c;
      MulMonotone(page - 1, c - 1, PageSize);
    }
  }
}
