// The mock product catalogue of the storefront: eighty-four demo sneakers
// cycling through the three categories. Prices are integer cents.

module MockProducts {
  import opened Common

  datatype Category = Homme | Femme | EnfantCategory

  /** `CATEGORIES`, in order. */
  const Categories: seq<Category> := [Homme, Femme, EnfantCategory]

  datatype Product = Product(id: string, name: string, category: Category, price: int, image: Option<string>)

  const CatalogueSize: nat := 84

  /** The demo product at 0-based position `i`. */
  function DemoProduct(i: nat): Product {
    var n := NatToString(i + 1);
    Product("P" + n, "Sneaker " + n, Categories[i % |Categories|], 7999 + (i % 9) * 1000, None)
  }

  /** `fetchAllProducts`, without its delay: eighty-four products, the i-th
      numbered `i + 1`, in category `CATEGORIES[i % 3]`, without image and
      priced from 79.99 in steps of 10.00. */
  function FetchAllProducts(): (r: seq<Product>)
    ensures |r| == CatalogueSize
    ensures forall i :: 0 <= i < |r| ==>
      && r[i].id == "P" + NatToString(i + 1)
      && r[i].name == "Sneaker " + NatToString(i + 1)
      && r[i].category == Categories[i % 3]
      && r[i].image.None?
      && r[i].price == 7999 + (i % 9) * 1000
      && 7999 <= r[i].price <= 15999
  {
    seq(CatalogueSize, i requires 0 <= i < CatalogueSize => DemoProduct(i))
  }

  /** The demo ids are pairwise distinct. */
  lemma DemoIdsDistinct()
    ensures forall i, j :: 0 <= i < j < CatalogueSize ==> FetchAllProducts()[i].id != FetchAllProducts()[j].id
  {
    var r := FetchAllProducts();
    forall i, j | 0 <= i < j < CatalogueSize ensures r[i].id != r[j].id {
      if r[i].id == r[j].id {
        assert r[i].id[1..] == NatToString(i + 1);
        assert r[j].id[1..] == NatToString(j + 1);
        NatToStringInjective(i + 1, j + 1);
      }
    }
  }

  function CategoryIndex(c: Category): (k: nat)
    ensures k < 3 && Categories[k] == c
  {
    match c
    case Homme => 0
    case Femme => 1
    case EnfantCategory => 2
  }

  /** Each category holds a third of the catalogue. */
  lemma CategoriesBalanced(c: Category)
    ensures |set i | 0 <= i < CatalogueSize && FetchAllProducts()[i].category == c| == CatalogueSize / 3
  {
    var r := FetchAllProducts();
    var k := CategoryIndex(c);
    var s := set i | 0 <= i < CatalogueSize && r[i].category == c;
    assert s == set i | 0 <= i < 3 * 28 && i % 3 == k;
    ResidueCount(28, k);
  }

  /** Among `0..3n-1`, each residue modulo 3 occurs `n` times. */
  lemma {:induction false} ResidueCount(n: nat, k: nat)
    requires k < 3
    ensures |set i | 0 <= i < 3 * n && i % 3 == k| == n
  {
    var b := set i | 0 <= i < 3 * n && i % 3 == k;
    if n > 0 {
      ResidueCount(n - 1, k);
      var a := set i | 0 <= i < 3 * (n - 1) && i % 3 == k;
      var x := 3 * (n - 1) + k;
      assert x % 3 == k;
      forall i | i in b ensures i in a || i == x {
        if i >= 3 * (n - 1) {
          assert i - 3 * (n - 1) < 3;
          assert (i - 3 * (n - 1)) % 3 == k;
        }
      }
      assert b == a + {x};
    } else {
      assert b == {};
    }
  }
}
