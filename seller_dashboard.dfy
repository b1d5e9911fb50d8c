// The seller's inventory table: the search, category and stock filters, the
// pages of twenty rows, the page buttons, and how each row shows its sizes.

module SellerDashboard {
  import opened Common
  import opened SellerService
  import Store

  const PageSize: nat := 20

  /** The category select: "Toutes" or one category. */
  datatype CategoryFilter = AllCategories | OnlyCategory(category: InventoryCategory)

  /** The stock select: "Tous" or one status. */
  datatype StockFilter = AllStock | OnlyStatus(status: InventoryStatus)

  datatype ChipClass = ChipOut | ChipLow | ChipOk

  /** `CATEGORY_LABELS`. */
  function CategoryLabel(c: InventoryCategory): string {
    match c
    case Homme => "Homme"
    case Femme => "Femme"
    case Enfant => "Enfant"
    case Mixte => "Mixte"
  }

  /** `STATUS_LABELS`. */
  function StatusLabel(s: InventoryStatus): string {
    match s
    case InStock => "En stock"
    case LowStock => "Stock faible"
    case OutOfStock => "Rupture"
  }

  /** The search filter. */
  predicate MatchesQuery(p: InventoryProduct, q: string) {
    var term := ToLower(Trim(q));
    IsBlank(q)
    || Includes(ToLower(p.name), term) || Includes(ToLower(p.sku), term)
    || Includes(ToLower(CategoryLabel(p.category)), term)
  }

  /** The category filter compares labels. */
  predicate MatchesCategory(p: InventoryProduct, cat: CategoryFilter) {
    cat.AllCategories? || CategoryLabel(p.category) == CategoryLabel(cat.category)
  }

  /** The stock filter compares labels. */
  predicate MatchesStock(p: InventoryProduct, stock: StockFilter) {
    stock.AllStock? || StatusLabel(p.status) == StatusLabel(stock.status)
  }

  /** `filtered`: the three filters, one after the other. */
  function Filtered(products: seq<InventoryProduct>, q: string, cat: CategoryFilter, stock: StockFilter)
    : seq<InventoryProduct>
  {
    Filter(Filter(Filter(products, p => MatchesQuery(p, q)), p => MatchesCategory(p, cat)), p => MatchesStock(p, stock))
  }

  /** A product is listed exactly when it matches the search, has the chosen
      category and the chosen status. */
  lemma FilteredSpec(products: seq<InventoryProduct>, q: string, cat: CategoryFilter, stock: StockFilter)
    ensures forall p :: p in Filtered(products, q, cat, stock) <==>
      p in products && MatchesQuery(p, q)
      && (cat.AllCategories? || p.category == cat.category)
      && (stock.AllStock? || p.status == stock.status)
  {
    var a := Filter(products, p => MatchesQuery(p, q));
    var b := Filter(a, p => MatchesCategory(p, cat));
    FilterSpec(products, p => MatchesQuery(p, q));
    FilterSpec(a, p => MatchesCategory(p, cat));
    FilterSpec(b, p => MatchesStock(p, stock));
    forall p ensures MatchesCategory(p, cat) <==> cat.AllCategories? || p.category == cat.category {
      if cat.OnlyCategory? { CategoryLabelInjective(p.category, cat.category); }
    }
    forall p ensures MatchesStock(p, stock) <==> stock.AllStock? || p.status == stock.status {
      if stock.OnlyStatus? { StatusLabelInjective(p.status, stock.status); }
    }
  }

  /** With a blank search and both selects on "all", every product is
      listed, in its order. */
  lemma FilteredAll(products: seq<InventoryProduct>, q: string)
    requires IsBlank(q)
    ensures Filtered(products, q, AllCategories, AllStock) == products
  {
    var a := Filter(products, p => MatchesQuery(p, q));
    FilterSpec(products, p => MatchesQuery(p, q));
    FilterSpec(a, p => MatchesCategory(p, AllCategories));
    FilterSpec(a, p => MatchesStock(p, AllStock));
  }

  lemma CategoryLabelInjective(a: InventoryCategory, b: InventoryCategory)
    ensures CategoryLabel(a) == CategoryLabel(b) <==> a == b
  {
  }

  lemma StatusLabelInjective(a: InventoryStatus, b: InventoryStatus)
    ensures StatusLabel(a) == StatusLabel(b) <==> a == b
  {
  }

  /** `totalPages`. */
  function TotalPages(filtered: nat): (r: nat)
    ensures r >= 1 && filtered <= r * PageSize && (r == 1 || (r - 1) * PageSize < filtered)
  {
    PageCount(filtered, PageSize)
  }

  /** `pageItems`. */
  function PageItems(filtered: seq<InventoryProduct>, page: int): seq<InventoryProduct> {
    JsSlice(filtered, (page - 1) * PageSize, (page - 1) * PageSize + PageSize)
  }

  /** A page shows the twenty rows from `(page - 1) * 20` on, fewer on the
      last page, and every page up to `totalPages` of a non-empty list shows
      at least one row. */
  lemma PageItemsWindow(filtered: seq<InventoryProduct>, page: int)
    requires page >= 1
    ensures PageItems(filtered, page) == Window(filtered, (page - 1) * PageSize, PageSize)
    ensures |filtered| > 0 && page <= TotalPages(|filtered|) ==> |PageItems(filtered, page)| >= 1
  {
    var start := (page - 1) * PageSize;
    MulMonotone(0, page - 1, PageSize);
    JsSliceInRange(filtered, start, start + PageSize);
    if |filtered| > 0 && page <= TotalPages(|filtered|) && page > 1 {
      MulMonotone(page - 1, TotalPages(|filtered|) - 1, PageSize);
    }
  }

  /** The variants a row lists: the product's own, or one "Unique" size
      carrying the product's total stock. */
  function ShownVariants(p: InventoryProduct): (r: seq<InventoryVariant>)
    ensures |r| >= 1
    ensures |p.variants| > 0 ==> r == p.variants
    ensures |p.variants| == 0 ==> r == [InventoryVariant("unique", "Unique", p.totalStock)]
  {
    if |p.variants| > 0 then p.variants else [InventoryVariant("unique", "Unique", p.totalStock)]
  }

  function VariantStocks(vs: seq<InventoryVariant>): (r: seq<int>)
    ensures |r| == |vs| && forall i :: 0 <= i < |vs| ==> r[i] == vs[i].stock
  {
    seq(|vs|, i requires 0 <= i < |vs| => vs[i].stock)
  }

  /** For a row of the inventory the server builds, the stocks of the listed
      sizes are exactly the stocks its total and status come from, so the
      chips add up to the total stock. */
  lemma ShownStocksAddUp(id: Store.Id, p: Store.Product, sizes: Store.SizeTable, genders: map<Store.Id, string>)
    ensures var r := InventoryItem(id, p, sizes, genders);
      VariantStocks(ShownVariants(r)) == StockSource(p)
      && Sum(VariantStocks(ShownVariants(r))) == r.totalStock
  {
    var r := InventoryItem(id, p, sizes, genders);
    if |p.variants| > 0 {
      assert forall i :: 0 <= i < |p.variants| ==> r.variants[i] == InventoryVariant(p.variants[i].sizeValue, SizeLabel(p.variants[i], sizes), p.variants[i].stock);
    }
  }

  /** The chip of one size. */
  function Chip(stock: int): (c: ChipClass)
    ensures c == ChipOut <==> stock == 0
    ensures c == ChipLow <==> stock != 0 && stock <= 3
  {
    if stock == 0 then ChipOut else if stock <= 3 then ChipLow else ChipOk
  }

  /** For a stock of zero or more the chip agrees with the server's class of
      the size; a negative stock shows as low where the server says out of
      stock. */
  lemma ChipAgreesWithServer(stock: int)
    ensures stock >= 0 ==>
      (Chip(stock) == ChipOut <==> ClassifyVariantStock(stock) == OutOfStock)
      && (Chip(stock) == ChipLow <==> ClassifyVariantStock(stock) == LowStock)
      && (Chip(stock) == ChipOk <==> ClassifyVariantStock(stock) == InStock)
    ensures stock < 0 ==> Chip(stock) == ChipLow && ClassifyVariantStock(stock) == OutOfStock
  {
  }

  class Dashboard {
    var products: seq<InventoryProduct>
    var q: string
    var cat: CategoryFilter
    var stock: StockFilter
    var page: int

    function Shown(): seq<InventoryProduct>
      reads this
    {
      Filtered(products, q, cat, stock)
    }

    function Pages(): nat
      reads this
    {
      TotalPages(|Shown()|)
    }

    /** The rows on screen. */
    function Rows(): seq<InventoryProduct>
      reads this
    {
      PageItems(Shown(), page)
    }

    constructor(products: seq<InventoryProduct>)
      ensures this.products == products && q == "" && cat == AllCategories && stock == AllStock && page == 1
      ensures Shown() == products
    {
      this.products := products;
      q := "";
      cat := AllCategories;
      stock := AllStock;
      page := 1;
      new;
      FilteredAll(products, "");
    }

    /** Typing in the search box goes back to page 1. */
    method SetQuery(text: string)
      modifies this
      ensures q == text && page == 1 && products == old(products) && cat == old(cat) && stock == old(stock)
    {
      page := 1;
      q := text;
    }

    /** Choosing a category goes back to page 1. */
    method SetCategory(c: CategoryFilter)
      modifies this
      ensures cat == c && page == 1 && products == old(products) && q == old(q) && stock == old(stock)
    {
      page := 1;
      cat := c;
    }

    /** Choosing a stock status goes back to page 1. */
    method SetStock(s: StockFilter)
      modifies this
      ensures stock == s && page == 1 && products == old(products) && q == old(q) && cat == old(cat)
    {
      page := 1;
      stock := s;
    }

    /** The effect that pulls the page back when the list shrinks. */
    method ClampPage()
      modifies this
      ensures page == Min(old(page), Pages())
      ensures products == old(products) && q == old(q) && cat == old(cat) && stock == old(stock)
      ensures old(page) >= 1 ==> 1 <= page <= Pages()
    {
      var maxPage := TotalPages(|Shown()|);
      if page > maxPage {
        page := maxPage;
      }
    }

    /** `handlePrev`. */
    method Prev()
      modifies this
      ensures page == Max(1, old(page) - 1)
      ensures products == old(products) && q == old(q) && cat == old(cat) && stock == old(stock)
      ensures old(page) <= Pages() ==> 1 <= page <= Pages()
    {
      page := Max(1, page - 1);
    }

    /** `handleNext`. */
    method Next()
      modifies this
      ensures page == Min(Pages(), old(page) + 1)
      ensures products == old(products) && q == old(q) && cat == old(cat) && stock == old(stock)
      ensures old(page) >= 1 ==> 1 <= page <= Pages()
    {
      page := Min(TotalPages(|Shown()|), page + 1);
    }
  }
}
