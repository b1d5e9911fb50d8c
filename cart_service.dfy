/**
 * The server-side cart: one cart per user, holding at most one line per
 * product (the line table is unique on cart and product), so a cart is a map
 * from product id to quantity.
 */
module CartService {
  import opened Common
  import opened Store

  type Cart = map<Id, int>

  /** `getCart`. */
  function GetCart(carts: map<Id, Cart>, userId: Id): (r: Option<Cart>)
    ensures r.Some? <==> userId in carts
    ensures r.Some? ==> r.value == carts[userId]
  {
    if userId in carts then Some(carts[userId]) else None
  }

  /** The cart after an add: an existing line grows by `quantity`, a new
      line starts at `quantity`. */
  function AddedLine(cart: Cart, productId: Id, quantity: int): (r: Cart)
    ensures r.Keys == cart.Keys + {productId}
    ensures productId in cart ==> r[productId] == cart[productId] + quantity
    ensures productId !in cart ==> r[productId] == quantity
    ensures forall p :: p in cart && p != productId ==> r[p] == cart[p]
  {
    if productId in cart then cart[productId := cart[productId] + quantity]
    else cart[productId := quantity]
  }

  /** Adding twice is adding the sum once. */
  lemma AddTwice(cart: Cart, productId: Id, q1: int, q2: int)
    ensures AddedLine(AddedLine(cart, productId, q1), productId, q2) == AddedLine(cart, productId, q1 + q2)
  {
    var a := AddedLine(AddedLine(cart, productId, q1), productId, q2);
    var b := AddedLine(cart, productId, q1 + q2);
    assert a.Keys == b.Keys;
    assert forall p :: p in a ==> a[p] == b[p];
  }

  /** Adds for different products commute. */
  lemma AddsCommute(cart: Cart, p1: Id, q1: int, p2: Id, q2: int)
    ensures AddedLine(AddedLine(cart, p1, q1), p2, q2) == AddedLine(AddedLine(cart, p2, q2), p1, q1)
  {
    var a := AddedLine(AddedLine(cart, p1, q1), p2, q2);
    var b := AddedLine(AddedLine(cart, p2, q2), p1, q1);
    assert a.Keys == b.Keys;
    assert forall p :: p in a ==> a[p] == b[p];
  }

  /** `addItemToCart`: the cart is created when the user has none, then the
      line is upserted. */
  method AddItemToCart(db: Db, userId: Id, productId: Id, quantity: int) returns (r: Cart)
    modifies db`carts
    ensures var before := if userId in old(db.carts) then old(db.carts)[userId] else map[];
      r == AddedLine(before, productId, quantity)
    ensures db.carts == old(db.carts)[userId := r]
  {
    if userId !in db.carts {
      db.carts := db.carts[userId := map[]];
    }
    var cart := db.carts[userId];
    var updated := if productId in cart then cart[productId := cart[productId] + quantity]
                   else cart[productId := quantity];
    db.carts := db.carts[userId := updated];
    return updated;
  }

  /** The cart after `updateCartItem` on an existing line: a quantity of zero
      or less deletes the line, any other quantity replaces it. */
  function UpdatedLine(cart: Cart, productId: Id, quantity: int): (r: Cart)
    requires productId in cart
    ensures quantity <= 0 ==> r.Keys == cart.Keys - {productId}
    ensures quantity > 0 ==> r.Keys == cart.Keys && r[productId] == quantity
    ensures forall p :: p in cart && p != productId ==> p in r && r[p] == cart[p]
  {
    if quantity <= 0 then cart - {productId} else cart[productId := quantity]
  }

  /** Setting a line to its own quantity leaves the cart as it was. */
  lemma UpdateToSameQuantity(cart: Cart, productId: Id)
    requires productId in cart && cart[productId] > 0
    ensures UpdatedLine(cart, productId, cart[productId]) == cart
  {
  }

  /** `updateCartItem`. No cart gives 404; a missing line is a missing
      record for the database. */
  method UpdateCartItem(db: Db, userId: Id, productId: Id, quantity: int) returns (r: Result<Cart>)
    modifies db`carts
    ensures userId !in old(db.carts) ==> r == Failure(Http(404, "Cart not found")) && unchanged(db)
    ensures userId in old(db.carts) && productId !in old(db.carts)[userId] ==>
      r == Failure(RecordNotFound) && unchanged(db)
    ensures userId in old(db.carts) && productId in old(db.carts)[userId] ==>
      r == Success(UpdatedLine(old(db.carts)[userId], productId, quantity))
      && db.carts == old(db.carts)[userId := r.value]
  {
    if userId !in db.carts {
      return Failure(Http(404, "Cart not found"));
    }
    var cart := db.carts[userId];
    if productId !in cart {
      return Failure(RecordNotFound);
    }
    if quantity <= 0 {
      db.carts := db.carts[userId := cart - {productId}];
    } else {
      db.carts := db.carts[userId := cart[productId := quantity]];
    }
    return Success(db.carts[userId]);
  }

  /** `removeItemFromCart`: only that product's line goes. */
  method RemoveItemFromCart(db: Db, userId: Id, productId: Id) returns (r: Result<Cart>)
    modifies db`carts
    ensures userId !in old(db.carts) ==> r == Failure(Http(404, "Cart not found")) && unchanged(db)
    ensures userId in old(db.carts) && productId !in old(db.carts)[userId] ==>
      r == Failure(RecordNotFound) && unchanged(db)
    ensures userId in old(db.carts) && productId in old(db.carts)[userId] ==>
      r == Success(old(db.carts)[userId] - {productId})
      && db.carts == old(db.carts)[userId := r.value]
  {
    if userId !in db.carts {
      return Failure(Http(404, "Cart not found"));
    }
    var cart := db.carts[userId];
    if productId !in cart {
      return Failure(RecordNotFound);
    }
    db.carts := db.carts[userId := cart - {productId}];
    return Success(db.carts[userId]);
  }

  /** Removing a line just added to a cart without it restores the cart. */
  lemma AddThenRemove(cart: Cart, productId: Id, quantity: int)
    requires productId !in cart
    ensures AddedLine(cart, productId, quantity) - {productId} == cart
  {
  }

  /** Updating a line to zero is removing it. */
  lemma UpdateToZeroRemoves(cart: Cart, productId: Id, quantity: int)
    requires productId in cart && quantity <= 0
    ensures UpdatedLine(cart, productId, quantity) == cart - {productId}
  {
  }

  /** `clearCart`: every line of the user's cart goes and the cart remains;
      without a cart nothing happens and there is no cart to return. */
  method ClearCart(db: Db, userId: Id) returns (r: Option<Cart>)
    modifies db`carts
    ensures userId !in old(db.carts) ==> r == None && unchanged(db)
    ensures userId in old(db.carts) ==> r == Some(map[]) && db.carts == old(db.carts)[userId := map[]]
  {
    if userId in db.carts {
      db.carts := db.carts[userId := map[]];
    }
    return GetCart(db.carts, userId);
  }
}
