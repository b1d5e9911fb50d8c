/**
 * The seller inventory view: per-variant stock classes, the worst-case
 * product status, the gender category and the inventory statistics.
 */
module SellerService {
  import opened Common
  import opened Store

  datatype InventoryCategory = Homme | Femme | Enfant | Mixte

  datatype InventoryStatus = InStock | LowStock | OutOfStock

  datatype InventoryVariant = InventoryVariant(sizeValue: string, sizeLabel: string, stock: int)

  datatype InventoryProduct = InventoryProduct(
    id: Id, sku: string, name: string, price: int, imageUrl: Option<string>,
    category: InventoryCategory, totalStock: int, status: InventoryStatus,
    variants: seq<InventoryVariant>)

  datatype InventoryStats = InventoryStats(
    totalProducts: int, totalStock: int, inStockProducts: int,
    lowStockProducts: int, outOfStockProducts: int)

  /** `classifyVariantStock`. */
  function ClassifyVariantStock(stock: int): (s: InventoryStatus)
    ensures s == OutOfStock <==> stock <= 0
    ensures s == LowStock <==> 1 <= stock <= 3
    ensures s == InStock <==> stock >= 4
  {
    if stock <= 0 then OutOfStock else if stock <= 3 then LowStock else InStock
  }

  /** The status a list of stocks should report: the worst class among
      them, out of stock for an empty list. */
  function WorstStatus(stocks: seq<int>): InventoryStatus {
    if |stocks| == 0 || exists i :: 0 <= i < |stocks| && stocks[i] <= 0 then OutOfStock
    else if exists i :: 0 <= i < |stocks| && stocks[i] <= 3 then LowStock
    else InStock
  }

  /** `mapStockToStatus`: the loop with its early return. */
  method MapStockToStatus(stocks: seq<int>) returns (s: InventoryStatus)
    ensures s == WorstStatus(stocks)
  {
    if |stocks| == 0 {
      return OutOfStock;
    }
    var aggregated := InStock;
    var i := 0;
    while i < |stocks|
      invariant 0 <= i <= |stocks|
      invariant forall j :: 0 <= j < i ==> stocks[j] > 0
      invariant aggregated == LowStock <==> exists j :: 0 <= j < i && stocks[j] <= 3
      invariant aggregated != OutOfStock
    {
      var status := ClassifyVariantStock(stocks[i]);
      if status == OutOfStock {
        return OutOfStock;
      }
      if status == LowStock && aggregated == InStock {
        aggregated := LowStock;
      }
      i := i + 1;
    }
    return aggregated;
  }

  /** The status does not depend on the order of the stocks. */
  lemma WorstStatusOrderFree(a: seq<int>, b: seq<int>)
    requires multiset(a) == multiset(b)
    ensures WorstStatus(a) == WorstStatus(b)
  {
    assert |a| == |multiset(a)| == |multiset(b)| == |b|;
    assert forall x :: x in a <==> x in b by {
      forall x ensures x in a <==> x in b {
        assert x in a <==> x in multiset(a);
        assert x in b <==> x in multiset(b);
      }
    }
    assert (exists i :: 0 <= i < |a| && a[i] <= 0) <==> (exists i :: 0 <= i < |b| && b[i] <= 0) by {
      if exists i :: 0 <= i < |a| && a[i] <= 0 {
        var i :| 0 <= i < |a| && a[i] <= 0;
        assert a[i] in b;
      }
      if exists i :: 0 <= i < |b| && b[i] <= 0 {
        var i :| 0 <= i < |b| && b[i] <= 0;
        assert b[i] in a;
      }
    }
    assert (exists i :: 0 <= i < |a| && a[i] <= 3) <==> (exists i :: 0 <= i < |b| && b[i] <= 3) by {
      if exists i :: 0 <= i < |a| && a[i] <= 3 {
        var i :| 0 <= i < |a| && a[i] <= 3;
        assert a[i] in b;
      }
      if exists i :: 0 <= i < |b| && b[i] <= 3 {
        var i :| 0 <= i < |b| && b[i] <= 3;
        assert b[i] in a;
      }
    }
  }

  /** A list's status is the class of one of its members, and no member is
      in a worse class. */
  lemma WorstStatusIsAttained(stocks: seq<int>)
    requires |stocks| > 0
    ensures exists i :: 0 <= i < |stocks| && ClassifyVariantStock(stocks[i]) == WorstStatus(stocks)
    ensures WorstStatus(stocks) == InStock ==> forall i :: 0 <= i < |stocks| ==> ClassifyVariantStock(stocks[i]) == InStock
    ensures WorstStatus(stocks) == LowStock ==> forall i :: 0 <= i < |stocks| ==> ClassifyVariantStock(stocks[i]) != OutOfStock
  {
    if WorstStatus(stocks) == InStock {
      assert ClassifyVariantStock(stocks[0]) == InStock;
    }
  }

  /** `mapGenderToCategory` on the accent-stripped, lower-cased name; a
      missing name is the empty string. */
  function MapGenderToCategory(name: Option<string>): (c: InventoryCategory)
    ensures var n := ToLower(name.GetOr(""));
      && (c == Homme <==> Includes(n, "homme"))
      && (c == Femme <==> !Includes(n, "homme") && Includes(n, "femme"))
      && (c == Enfant <==> (!Includes(n, "homme") && !Includes(n, "femme")
                            && (Includes(n, "junior") || Includes(n, "enfant"))))
  {
    var n := ToLower(name.GetOr(""));
    if Includes(n, "homme") then Homme
    else if Includes(n, "femme") then Femme
    else if Includes(n, "junior") || Includes(n, "enfant") then Enfant
    else Mixte
  }

  /** A name is mixte exactly when it holds none of the four words. */
  lemma MixteMeansNoKeyword(name: Option<string>)
    ensures var n := ToLower(name.GetOr(""));
      MapGenderToCategory(name) == Mixte <==>
        !Includes(n, "homme") && !Includes(n, "femme") && !Includes(n, "junior") && !Includes(n, "enfant")
  {
  }

  /** The label shown for a variant: its size row's label, else
      "<sizeValue> EU". */
  function SizeLabel(v: Variant, sizes: SizeTable): (l: string)
    ensures v.sizeKey.Some? && v.sizeKey.value in sizes.labels ==> l == sizes.labels[v.sizeKey.value]
    ensures !(v.sizeKey.Some? && v.sizeKey.value in sizes.labels) ==> l == v.sizeValue + " EU"
  {
    if v.sizeKey.Some? && v.sizeKey.value in sizes.labels then sizes.labels[v.sizeKey.value] else v.sizeValue + " EU"
  }

  function InventoryVariants(vs: seq<Variant>, sizes: SizeTable): (r: seq<InventoryVariant>)
    ensures |r| == |vs|
    ensures forall i :: 0 <= i < |vs| ==>
      r[i] == InventoryVariant(vs[i].sizeValue, SizeLabel(vs[i], sizes), vs[i].stock)
  {
    seq(|vs|, i requires 0 <= i < |vs| => InventoryVariant(vs[i].sizeValue, SizeLabel(vs[i], sizes), vs[i].stock))
  }

  /** The stocks a product's status and total are computed from: its
      variants' stocks, or the product stock when it has none. */
  function StockSource(p: Product): (r: seq<int>)
    ensures |r| >= 1
    ensures |p.variants| > 0 ==> |r| == |p.variants| && forall i :: 0 <= i < |r| ==> r[i] == p.variants[i].stock
    ensures |p.variants| == 0 ==> r == [p.stock]
  {
    if |p.variants| > 0 then seq(|p.variants|, i requires 0 <= i < |p.variants| => p.variants[i].stock)
    else [p.stock]
  }

  function GenderName(p: Product, genders: map<Id, string>): Option<string> {
    if p.genderId.Some? && p.genderId.value in genders then Some(genders[p.genderId.value]) else None
  }

  /** One product of the inventory view. */
  function InventoryItem(id: Id, p: Product, sizes: SizeTable, genders: map<Id, string>): (r: InventoryProduct)
    ensures r.id == id && r.sku == p.sku && r.name == p.name && r.price == p.price && r.imageUrl == p.imageUrl
    ensures r.totalStock == Sum(StockSource(p)) && r.status == WorstStatus(StockSource(p))
    ensures |p.variants| == 0 ==> r.totalStock == p.stock && r.status == ClassifyVariantStock(p.stock)
    ensures r.category == MapGenderToCategory(GenderName(p, genders))
    ensures |r.variants| == |p.variants|
  {
    var source := StockSource(p);
    assert |p.variants| == 0 ==> Sum(source) == Sum([] + [p.stock]);
    InventoryProduct(id, p.sku, p.name, p.price, p.imageUrl, MapGenderToCategory(GenderName(p, genders)),
                     Sum(source), WorstStatus(source), InventoryVariants(p.variants, sizes))
  }

  function Totals(items: seq<InventoryProduct>): (r: seq<int>)
    ensures |r| == |items| && forall i :: 0 <= i < |items| ==> r[i] == items[i].totalStock
  {
    seq(|items|, i requires 0 <= i < |items| => items[i].totalStock)
  }

  function CountStatus(items: seq<InventoryProduct>, s: InventoryStatus): (n: nat)
    ensures n <= |items|
  {
    if |items| == 0 then 0
    else CountStatus(items[..|items| - 1], s) + (if items[|items| - 1].status == s then 1 else 0)
  }

  /** Every product is counted under exactly one status. */
  lemma {:induction false} CountsPartition(items: seq<InventoryProduct>)
    ensures CountStatus(items, InStock) + CountStatus(items, LowStock) + CountStatus(items, OutOfStock) == |items|
  {
    if |items| > 0 {
      CountsPartition(items[..|items| - 1]);
    }
  }

  /** The stats reduce, with its mutable accumulator. */
  method ComputeStats(items: seq<InventoryProduct>) returns (acc: InventoryStats)
    ensures acc.totalProducts == |items|
    ensures acc.totalStock == Sum(Totals(items))
    ensures acc.inStockProducts == CountStatus(items, InStock)
    ensures acc.lowStockProducts == CountStatus(items, LowStock)
    ensures acc.outOfStockProducts == CountStatus(items, OutOfStock)
    ensures acc.inStockProducts + acc.lowStockProducts + acc.outOfStockProducts == acc.totalProducts
  {
    acc := InventoryStats(0, 0, 0, 0, 0);
    var i := 0;
    while i < |items|
      invariant 0 <= i <= |items|
      invariant acc.totalProducts == i
      invariant acc.totalStock == Sum(Totals(items[..i]))
      invariant acc.inStockProducts == CountStatus(items[..i], InStock)
      invariant acc.lowStockProducts == CountStatus(items[..i], LowStock)
      invariant acc.outOfStockProducts == CountStatus(items[..i], OutOfStock)
    {
      var product := items[i];
      assert items[..i + 1][..i] == items[..i];
      assert Totals(items[..i + 1]) == Totals(items[..i]) + [product.totalStock];
      SumAppend(Totals(items[..i]), [product.totalStock]);
      acc := acc.(totalProducts := acc.totalProducts + 1, totalStock := acc.totalStock + product.totalStock);
      if product.status == OutOfStock {
        acc := acc.(outOfStockProducts := acc.outOfStockProducts + 1);
      } else if product.status == LowStock {
        acc := acc.(lowStockProducts := acc.lowStockProducts + 1);
      } else {
        acc := acc.(inStockProducts := acc.inStockProducts + 1);
      }
      i := i + 1;
    }
    assert items[..i] == items;
    CountsPartition(items);
  }

  /** `getSellerInventory` over the catalogue in its listing order. */
  method GetSellerInventory(catalog: seq<(Id, Product)>, sizes: SizeTable, genders: map<Id, string>)
    returns (products: seq<InventoryProduct>, stats: InventoryStats)
    ensures |products| == |catalog|
    ensures forall i :: 0 <= i < |catalog| ==> products[i] == InventoryItem(catalog[i].0, catalog[i].1, sizes, genders)
    ensures stats.totalProducts == |catalog| && stats.totalStock == Sum(Totals(products))
    ensures stats.inStockProducts == CountStatus(products, InStock)
    ensures stats.lowStockProducts == CountStatus(products, LowStock)
    ensures stats.outOfStockProducts == CountStatus(products, OutOfStock)
    ensures stats.inStockProducts + stats.lowStockProducts + stats.outOfStockProducts == |catalog|
  {
    products := seq(|catalog|, i requires 0 <= i < |catalog| => InventoryItem(catalog[i].0, catalog[i].1, sizes, genders));
    stats := ComputeStats(products);
  }
}
