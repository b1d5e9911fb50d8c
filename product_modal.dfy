// The product quick-view: the sizes offered for the product's category, the
// size and quantity the visitor picks, and the cart line it adds. The cart
// is the reducer's list; prices are integer cents.

module ProductModal {
  import opened Common
  import MockProducts
  import opened CartContext

  /** `sizesForCategory`. */
  function SizesForCategory(c: MockProducts.Category): seq<int> {
    match c
    case Homme => [40, 41, 42, 43, 44, 45, 46]
    case Femme => [36, 37, 38, 39, 40, 41]
    case EnfantCategory => [27, 28, 29, 30, 31, 32, 33, 34]
  }

  /** The first and last size of a category. */
  function SizeRange(c: MockProducts.Category): (int, int) {
    match c
    case Homme => (40, 46)
    case Femme => (36, 41)
    case EnfantCategory => (27, 34)
  }

  /** Every category offers the run of consecutive sizes from its first to
      its last, smallest first. */
  lemma SizesAreRuns(c: MockProducts.Category)
    ensures var (lo, hi) := SizeRange(c);
      |SizesForCategory(c)| == hi - lo + 1
      && forall i :: 0 <= i < |SizesForCategory(c)| ==> SizesForCategory(c)[i] == lo + i
  {
  }

  /** The sizes shown: none without a product. */
  function Sizes(product: Option<MockProducts.Product>): (r: seq<int>)
    ensures product.None? ==> r == []
    ensures product.Some? ==> |r| > 0 && r == SizesForCategory(product.value.category)
  {
    if product.Some? then SizesForCategory(product.value.category) else []
  }

  /** The line `handleAdd` puts in the cart. */
  function LineOf(p: MockProducts.Product, size: Option<int>, qty: int): CartItem {
    CartItem(p.id, p.name, p.price, p.image, if size.Some? then NumSize(size.value) else NoSize, qty)
  }

  class Modal {
    var open: bool
    var size: Option<int>
    var qty: int

    /** The quantity is one of the ten options of the select. */
    predicate Valid()
      reads this
    {
      1 <= qty <= 10
    }

    /** `disabled` of the add button: a size must be picked when sizes are
        offered. */
    function AddDisabled(product: Option<MockProducts.Product>): bool
      reads this
    {
      |Sizes(product)| > 0 && size.None?
    }

    constructor()
      ensures !open && size.None? && qty == 1 && Valid()
    {
      open := false;
      size := None;
      qty := 1;
    }

    /** Opening resets the quantity to 1 and clears the size. */
    method Open()
      modifies this
      ensures open && size.None? && qty == 1 && Valid()
    {
      open := true;
      qty := 1;
      size := None;
    }

    /** A size button. */
    method PickSize(s: int)
      modifies this`size
      ensures size == Some(s)
    {
      size := Some(s);
    }

    /** The quantity select offers 1 to 10. */
    method PickQty(q: int)
      requires 1 <= q <= 10
      modifies this`qty
      ensures qty == q && Valid()
    {
      qty := q;
    }

    /** `handleAdd`, reachable only through the enabled button: the line goes
        to the cart reducer as an ADD, then the modal closes. With sizes
        always offered, the line carries the picked size. */
    method HandleAdd(product: MockProducts.Product, cart: seq<CartItem>) returns (newCart: seq<CartItem>)
      requires !AddDisabled(Some(product))
      modifies this`open
      ensures size.Some?
      ensures newCart == Reduce(cart, Add(LineOf(product, size, qty)))
      ensures KeysUnique(cart) ==> Count(newCart) == Count(cart) + qty && KeysUnique(newCart)
      ensures !open
    {
      var line := LineOf(product, size, qty);
      newCart := Reduce(cart, Add(line));
      if KeysUnique(cart) {
        AddCount(cart, line);
        ReduceKeepsKeysUnique(cart, Add(line));
      }
      open := false;
    }
  }

  /** Opening the modal, picking a size and a quantity, and adding: the cart
      gains that many pairs of the product in that size. */
  method OpenPickAdd(m: Modal, product: MockProducts.Product, s: int, q: int, cart: seq<CartItem>)
    returns (newCart: seq<CartItem>)
    requires 1 <= q <= 10 && KeysUnique(cart)
    modifies m
    ensures newCart == Reduce(cart, Add(CartItem(product.id, product.name, product.price, product.image, NumSize(s), q)))
    ensures Count(newCart) == Count(cart) + q
    ensures !m.open && m.Valid()
  {
    m.Open();
    m.PickSize(s);
    m.PickQty(q);
    newCart := m.HandleAdd(product, cart);
  }
}
