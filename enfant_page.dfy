// The children's listing page: the children's products paginated like the
// main listing, and the quick-view modal opened by a click on a card.

module EnfantPage {
  import opened Common
  import opened MockProducts
  import ProductsPage

  /** The listing asks for the products of this gender. */
  const GenderSlug: string := "enfant"

  /** The products shown for the page number read from the URL: the page
      of the main listing's pagination. */
  function PageItems(list: seq<Product>, number: Option<real>): (r: seq<Product>)
    ensures r == ProductsPage.Paginate(list, ProductsPage.PageOf(number), ProductsPage.PageSize)
    ensures |r| <= ProductsPage.PageSize
    ensures forall k :: 0 <= k < |r| ==> r[k] in list
  {
    var page := ProductsPage.PageOf(number);
    ProductsPage.PaginateSize(list, page, ProductsPage.PageSize);
    var r := ProductsPage.Paginate(list, page, ProductsPage.PageSize);
    SliceMembers(list, page);
    r
  }

  /** For a whole page number `n` the page is the run of products from
      `(n - 1) * 20` on; a missing, zero or smaller number shows the first
      twenty. */
  lemma PageItemsWindow(list: seq<Product>, number: Option<real>)
    ensures number.None? || number.value < 1.0 ==>
      PageItems(list, number) == list[..Min(ProductsPage.PageSize, |list|)]
    ensures number.Some? && number.value >= 1.0 && number.value.Floor as real == number.value ==>
      var start := (number.value.Floor - 1) * ProductsPage.PageSize;
      PageItems(list, number) == if start < |list| then list[start..Min(start + ProductsPage.PageSize, |list|)] else []
  {
    if number.None? || number.value < 1.0 {
      assert ProductsPage.PageOf(number) == 1 as real;
      ProductsPage.PaginateWindow(list, 1, ProductsPage.PageSize);
    } else if number.value.Floor as real == number.value {
      var n := number.value.Floor;
      assert ProductsPage.PageOf(number) == n as real;
      ProductsPage.PaginateWindow(list, n, ProductsPage.PageSize);
    }
  }

  lemma SliceMembers(list: seq<Product>, page: real)
    requires page >= 1.0
    ensures var r := ProductsPage.Paginate(list, page, ProductsPage.PageSize);
      forall k :: 0 <= k < |r| ==> r[k] in list
  {
    var start := (page - 1.0) * ProductsPage.PageSize as real;
    var a := SliceBound(start.Floor, |list|);
    var b := SliceBound((start + ProductsPage.PageSize as real).Floor, |list|);
    var r := ProductsPage.Paginate(list, page, ProductsPage.PageSize);
    if a < b {
      forall k | 0 <= k < |r| ensures r[k] in list {
        assert r[k] == list[a + k];
      }
    }
  }

  /** The quick-view state of the page. */
  class QuickView {
    var selected: Option<Product>
    var open: bool

    constructor()
      ensures selected.None? && !open
    {
      selected := None;
      open := false;
    }

    /** `openModal`: a click on a card selects that product and opens the
        modal. */
    method OpenModal(p: Product)
      modifies this
      ensures selected == Some(p) && open
    {
      selected := Some(p);
      open := true;
    }

    /** The modal's close handler hides it and keeps the selection. */
    method Close()
      modifies this
      ensures !open && selected == old(selected)
    {
      open := false;
    }
  }
}
