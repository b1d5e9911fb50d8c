/**
 * The checkout engine (`createOrder`) and the order queries and status
 * update. Checkout runs sequentially: the checks, then one atomic step that
 * writes the order, the stock and the cart, then the payment.
 */
module OrderService {
  import opened Common
  import opened Store
  import opened OrderDto
  import opened PaymentService

  datatype CheckoutResult = CheckoutResult(orderId: Id, orderStatus: OrderStatus, payment: Payment)

  // ---------------------------------------------------------------------------
  // Checks
  // ---------------------------------------------------------------------------

  function ProductIds(items: seq<OrderItemInput>): (ids: seq<Id>)
    ensures |ids| == |items| && forall i :: 0 <= i < |items| ==> ids[i] == items[i].productId
  {
    seq(|items|, i requires 0 <= i < |items| => items[i].productId)
  }

  function Elems(ids: seq<Id>): set<Id> {
    set x | x in ids
  }

  /** How many rows `findMany({ where: { id: { in: ids } } })` returns: one per
      distinct id that names a product. */
  function FoundCount(ids: seq<Id>, products: map<Id, Product>): nat {
    |set x | x in ids && x in products|
  }

  lemma {:induction false} ElemsCard(ids: seq<Id>)
    ensures |Elems(ids)| <= |ids|
    ensures |Elems(ids)| == |ids| <==> Distinct(ids)
    decreases |ids|
  {
    if |ids| > 0 {
      var rest := ids[1..];
      ElemsCard(rest);
      assert Elems(ids) == Elems(rest) + {ids[0]};
      if ids[0] in rest {
        assert Elems(ids) == Elems(rest);
        var k :| 0 <= k < |rest| && rest[k] == ids[0];
        assert ids[k + 1] == ids[0];
      } else {
        assert |Elems(ids)| == |Elems(rest)| + 1;
        if Distinct(rest) {
          forall i, j | 0 <= i < j < |ids| ensures ids[i] != ids[j] {
            if i > 0 { assert ids[i] == rest[i - 1] && ids[j] == rest[j - 1]; }
            else { assert ids[j] == rest[j - 1]; }
          }
        } else {
          var i, j :| 0 <= i < j < |rest| && rest[i] == rest[j];
          assert ids[i + 1] == ids[j + 1];
        }
      }
    }
  }

  /** The 404 check passes exactly when the requested ids are pairwise
      distinct and all name products; a request listing a product twice is
      rejected like one naming a missing product. */
  lemma FoundAllIff(ids: seq<Id>, products: map<Id, Product>)
    ensures FoundCount(ids, products) == |ids| <==>
      Distinct(ids) && forall i :: 0 <= i < |ids| ==> ids[i] in products
  {
    var found := set x | x in ids && x in products;
    var all := Elems(ids);
    ElemsCard(ids);
    assert found <= all;
    assert |all| == |found| + |all - found| by {
      assert all == found + (all - found);
      assert found * (all - found) == {};
    }
    if FoundCount(ids, products) == |ids| {
      assert |all - found| == 0;
      assert all - found == {};
      forall i | 0 <= i < |ids| ensures ids[i] in products {
        assert ids[i] in all;
      }
    }
    if Distinct(ids) && forall i :: 0 <= i < |ids| ==> ids[i] in products {
      assert found == all;
    }
  }

  /** Every line names an existing product. */
  predicate Covers(items: seq<OrderItemInput>, products: map<Id, Product>) {
    forall i :: 0 <= i < |items| ==> items[i].productId in products
  }

  /** No line asks for more than its product's stock (lines whose product is
      missing are skipped, as the loop's `continue` does). */
  predicate StockSufficient(items: seq<OrderItemInput>, products: map<Id, Product>) {
    forall i :: 0 <= i < |items| && items[i].productId in products ==>
      products[items[i].productId].stock >= items[i].quantity
  }

  function ShortageError(p: Product): Error {
    Http(422, "Insufficient stock for product " + p.name)
  }

  /** The stock loop: the first line whose quantity exceeds its product's
      stock gives 422 naming that product. */
  method CheckStock(items: seq<OrderItemInput>, products: map<Id, Product>) returns (err: Option<Error>)
    ensures err.None? <==> StockSufficient(items, products)
    ensures err.Some? ==> exists k :: (0 <= k < |items| && items[k].productId in products
      && products[items[k].productId].stock < items[k].quantity
      && err.value == ShortageError(products[items[k].productId])
      && StockSufficient(items[..k], products))
  {
    var i := 0;
    while i < |items|
      invariant 0 <= i <= |items|
      invariant StockSufficient(items[..i], products)
    {
      var item := items[i];
      if item.productId in products {
        var product := products[item.productId];
        if product.stock < item.quantity {
          return Some(ShortageError(product));
        }
      }
      i := i + 1;
      assert items[..i] == items[..i - 1] + [item];
    }
    assert items[..i] == items;
    return None;
  }

  // ---------------------------------------------------------------------------
  // Pricing and the payment summary
  // ---------------------------------------------------------------------------

  /** The lines written to the order, each with the product's current price. */
  function OrderLines(items: seq<OrderItemInput>, products: map<Id, Product>): (lines: seq<OrderLine>)
    requires Covers(items, products)
    ensures |lines| == |items|
    ensures forall i :: 0 <= i < |items| ==>
      lines[i] == OrderLine(items[i].productId, items[i].quantity, products[items[i].productId].price)
  {
    seq(|items|, i requires 0 <= i < |items| && Covers(items, products) =>
      OrderLine(items[i].productId, items[i].quantity, products[items[i].productId].price))
  }

  /** `items.reduce((acc, item) => acc + price × quantity, 0)`, exact. */
  function OrderTotal(items: seq<OrderItemInput>, products: map<Id, Product>): int
    requires Covers(items, products)
  {
    if |items| == 0 then 0
    else
      var last := items[|items| - 1];
      OrderTotal(items[..|items| - 1], products) + products[last.productId].price * last.quantity
  }

  /** The sum of price × quantity over stored order lines. */
  function LinesTotal(lines: seq<OrderLine>): int {
    if |lines| == 0 then 0
    else LinesTotal(lines[..|lines| - 1]) + lines[|lines| - 1].unitPrice * lines[|lines| - 1].quantity
  }

  /** The order's total equals the total of its own price-snapshot lines. */
  lemma {:induction false} TotalMatchesLines(items: seq<OrderItemInput>, products: map<Id, Product>)
    requires Covers(items, products)
    ensures OrderTotal(items, products) == LinesTotal(OrderLines(items, products))
    decreases |items|
  {
    if |items| > 0 {
      var init := items[..|items| - 1];
      TotalMatchesLines(init, products);
      assert OrderLines(items, products)[..|items| - 1] == OrderLines(init, products);
    }
  }

  /** With non-negative prices and quantities the total is non-negative, and
      it is at least the amount of any single line. */
  lemma {:induction false} TotalBounds(items: seq<OrderItemInput>, products: map<Id, Product>)
    requires Covers(items, products)
    requires forall i :: 0 <= i < |items| ==> items[i].quantity >= 0 && products[items[i].productId].price >= 0
    ensures OrderTotal(items, products) >= 0
    ensures forall i :: 0 <= i < |items| ==>
      OrderTotal(items, products) >= products[items[i].productId].price * items[i].quantity
    decreases |items|
  {
    if |items| > 0 {
      var init := items[..|items| - 1];
      var last := items[|items| - 1];
      TotalBounds(init, products);
      assert products[last.productId].price * last.quantity >= 0;
      forall i | 0 <= i < |items|
        ensures OrderTotal(items, products) >= products[items[i].productId].price * items[i].quantity
      {
        if i < |items| - 1 { assert items[i] == init[i]; }
      }
    }
  }

  /** `cardNumber.replace(/\s+/g, '')`. */
  function RemoveWhitespace(s: string): (r: string)
    ensures |r| <= |s|
    ensures forall i :: 0 <= i < |r| ==> !IsSpace(r[i])
    ensures forall c :: c in r ==> c in s
    ensures (forall i :: 0 <= i < |s| ==> !IsSpace(s[i])) ==> r == s
  {
    if |s| == 0 then ""
    else if IsSpace(s[|s| - 1]) then RemoveWhitespace(s[..|s| - 1])
    else RemoveWhitespace(s[..|s| - 1]) + [s[|s| - 1]]
  }

  /** `normalized.slice(-4)`: the last four characters, or all of them when
      there are fewer. */
  function CardLast4(cardNumber: string): (r: string)
    ensures var n := RemoveWhitespace(cardNumber);
      |r| == Min(4, |n|) && r == n[|n| - |r|..]
  {
    var n := RemoveWhitespace(cardNumber);
    JsSlice(n, -4, |n|)
  }

  /** The summary stored with the order; the card number is reduced to its
      last four characters and the security code is not kept. */
  function Summary(provider: string, m: PaymentMethodInput): (s: PaymentSummary)
    ensures s.provider == provider && s.cardholderName == m.cardholderName
    ensures s.expMonth == m.expMonth && s.expYear == m.expYear
    ensures |s.cardLast4| <= 4
  {
    PaymentSummary(provider, m.cardholderName, CardLast4(m.cardNumber), m.expMonth, m.expYear)
  }

  /** A card number the schema accepts leaves only digits in its summary. */
  lemma ValidCardLast4Digits(cardNumber: string)
    requires ValidCardNumber(cardNumber)
    ensures AllDigits(CardLast4(cardNumber))
  {
    var n := RemoveWhitespace(cardNumber);
    var r := CardLast4(cardNumber);
    forall i | 0 <= i < |r| ensures IsDigit(r[i]) {
      assert r[i] == n[|n| - |r| + i];
      assert r[i] in cardNumber;
    }
  }

  lemma {:induction false} RemoveWhitespaceAllSpace(s: string)
    requires AllSpace(s)
    ensures RemoveWhitespace(s) == ""
    decreases |s|
  {
    if |s| > 0 {
      RemoveWhitespaceAllSpace(s[..|s| - 1]);
    }
  }

  /** The schema admits a card number made only of spaces, whose stored last
      four digits are then empty. */
  lemma AllSpaceCardNumberAccepted()
    ensures ValidCardNumber("            ")
    ensures CardLast4("            ") == ""
  {
    RemoveWhitespaceAllSpace("            ");
  }

  /** `{ ...paymentSummary }` passed to the payment as details. */
  function SummaryDetails(s: PaymentSummary): (d: map<string, string>)
    ensures d.Keys == {"provider", "cardholderName", "cardLast4", "expMonth", "expYear"}
    ensures d["cardLast4"] == s.cardLast4 && d["provider"] == s.provider
  {
    map["provider" := s.provider, "cardholderName" := s.cardholderName,
        "cardLast4" := s.cardLast4, "expMonth" := s.expMonth, "expYear" := s.expYear]
  }

  /** The order row created in the transaction. */
  function NewOrder(userId: Id, input: CreateOrderInput, products: map<Id, Product>): (o: Order)
    requires Covers(input.items, products)
    ensures o.status == Pending && o.userId == userId
    ensures o.total == OrderTotal(input.items, products)
    ensures o.items == OrderLines(input.items, products)
    ensures o.shippingAddress == input.shippingAddress
    ensures o.billingAddress == if input.billingAddress.Some? then input.billingAddress.value else input.shippingAddress
    ensures o.paymentSummary == Summary(input.paymentProvider, input.paymentMethod)
  {
    Order(userId, Pending, OrderTotal(input.items, products),
          input.shippingAddress, input.billingAddress.GetOr(input.shippingAddress),
          Summary(input.paymentProvider, input.paymentMethod), OrderLines(input.items, products))
  }

  // ---------------------------------------------------------------------------
  // Stock and cart effects of the transaction
  // ---------------------------------------------------------------------------

  /** The stock decrements applied line by line. */
  function DecrementStock(products: map<Id, Product>, items: seq<OrderItemInput>): (r: map<Id, Product>)
    requires Covers(items, products)
    ensures r.Keys == products.Keys
    decreases |items|
  {
    if |items| == 0 then products
    else
      var last := items[|items| - 1];
      var p := DecrementStock(products, items[..|items| - 1]);
      p[last.productId := p[last.productId].(stock := p[last.productId].stock - last.quantity)]
  }

  /** The total quantity the lines ask of one product. */
  function QuantityOf(items: seq<OrderItemInput>, id: Id): int {
    if |items| == 0 then 0
    else QuantityOf(items[..|items| - 1], id)
         + (if items[|items| - 1].productId == id then items[|items| - 1].quantity else 0)
  }

  /** Each product loses exactly the quantity ordered of it; nothing else in
      any product row changes. */
  lemma {:induction false} DecrementStockEffect(products: map<Id, Product>, items: seq<OrderItemInput>)
    requires Covers(items, products)
    ensures forall id :: id in products ==>
      DecrementStock(products, items)[id] == products[id].(stock := products[id].stock - QuantityOf(items, id))
    decreases |items|
  {
    if |items| > 0 {
      DecrementStockEffect(products, items[..|items| - 1]);
    }
  }

  lemma {:induction false} QuantityOfDistinct(items: seq<OrderItemInput>, id: Id)
    requires Distinct(ProductIds(items))
    ensures id !in ProductIds(items) ==> QuantityOf(items, id) == 0
    ensures forall k :: 0 <= k < |items| && items[k].productId == id ==> QuantityOf(items, id) == items[k].quantity
    decreases |items|
  {
    if |items| > 0 {
      var n := |items| - 1;
      var init := items[..n];
      assert ProductIds(init) == ProductIds(items)[..n];
      QuantityOfDistinct(init, id);
      if items[n].productId == id {
        forall j | 0 <= j < n ensures ProductIds(init)[j] != id {
          assert ProductIds(items)[j] != ProductIds(items)[n];
        }
        forall k | 0 <= k < n ensures items[k].productId != id {
          assert ProductIds(items)[k] != ProductIds(items)[n];
        }
      } else {
        forall k | 0 <= k < n && items[k].productId == id
          ensures QuantityOf(items, id) == items[k].quantity
        {
          assert init[k] == items[k];
        }
        if id !in ProductIds(items) {
          forall j | 0 <= j < n ensures ProductIds(init)[j] != id {
            assert ProductIds(init)[j] == ProductIds(items)[j];
          }
        }
      }
    }
  }

  /** After a checkout that passed both checks, each ordered product's stock
      is lower by exactly its line's quantity, every other product is as it
      was, and no stock has gone negative. */
  lemma StockAfterCheckout(products: map<Id, Product>, items: seq<OrderItemInput>)
    requires FoundCount(ProductIds(items), products) == |items|
    requires StockSufficient(items, products)
    ensures Covers(items, products)
    ensures var after := DecrementStock(products, items);
      (forall k :: 0 <= k < |items| ==>
         after[items[k].productId].stock == products[items[k].productId].stock - items[k].quantity
         && after[items[k].productId].stock >= 0)
      && (forall id :: id in products && id !in ProductIds(items) ==> after[id] == products[id])
  {
    FoundAllIff(ProductIds(items), products);
    DecrementStockEffect(products, items);
    forall k | 0 <= k < |items|
      ensures QuantityOf(items, items[k].productId) == items[k].quantity
    {
      QuantityOfDistinct(items, items[k].productId);
    }
    forall id | id in products && id !in ProductIds(items)
      ensures QuantityOf(items, id) == 0
    {
      QuantityOfDistinct(items, id);
    }
  }

  /** The stock never goes negative in a checkout that passed the checks. */
  lemma CheckoutKeepsStockNonNegative(products: map<Id, Product>, items: seq<OrderItemInput>)
    requires forall id :: id in products ==> products[id].stock >= 0
    requires FoundCount(ProductIds(items), products) == |items|
    requires StockSufficient(items, products)
    ensures Covers(items, products)
    ensures forall id :: id in products ==> DecrementStock(products, items)[id].stock >= 0
  {
    StockAfterCheckout(products, items);
  }

  /** `cartItem.deleteMany({ where: { cart: { userId }, productId: { in: ids } } })`. */
  function RemoveCartLines(carts: map<Id, map<Id, int>>, userId: Id, ids: set<Id>): (r: map<Id, map<Id, int>>)
    ensures r.Keys == carts.Keys
    ensures userId in carts ==>
      (r[userId].Keys == carts[userId].Keys - ids
       && forall p :: p in r[userId] ==> r[userId][p] == carts[userId][p])
    ensures forall u :: u in carts && u != userId ==> r[u] == carts[u]
  {
    if userId in carts
    then carts[userId := map p | p in carts[userId] && p !in ids :: carts[userId][p]]
    else carts
  }

  // ---------------------------------------------------------------------------
  // The operations
  // ---------------------------------------------------------------------------

  /** The per-line stock decrements, in line order. */
  method DecrementStocks(db: Db, items: seq<OrderItemInput>)
    requires Covers(items, db.products)
    modifies db`products
    ensures db.products == DecrementStock(old(db.products), items)
  {
    var i := 0;
    while i < |items|
      invariant 0 <= i <= |items|
      invariant Covers(items[..i], old(db.products))
      invariant db.products == DecrementStock(old(db.products), items[..i])
    {
      var item := items[i];
      assert items[..i + 1][..i] == items[..i];
      db.products := db.products[item.productId :=
        db.products[item.productId].(stock := db.products[item.productId].stock - item.quantity)];
      i := i + 1;
    }
    assert items[..i] == items;
  }

  /** The transaction: a PENDING order, the stock decrements and the removal
      of the ordered products from the user's cart, as one step. */
  method PlaceOrder(db: Db, userId: Id, orderId: Id, input: CreateOrderInput) returns (order: Order)
    requires orderId !in db.orders
    requires Covers(input.items, db.products)
    modifies db`orders, db`products, db`carts
    ensures order == NewOrder(userId, input, old(db.products))
    ensures db.orders == old(db.orders)[orderId := order]
    ensures db.products == DecrementStock(old(db.products), input.items)
    ensures db.carts == RemoveCartLines(old(db.carts), userId, Elems(ProductIds(input.items)))
  {
    var items := input.items;
    order := Order(userId, Pending, OrderTotal(items, db.products), input.shippingAddress,
                   input.billingAddress.GetOr(input.shippingAddress),
                   Summary(input.paymentProvider, input.paymentMethod), OrderLines(items, db.products));
    db.orders := db.orders[orderId := order];
    DecrementStocks(db, items);
    var ids := Elems(ProductIds(items));
    if userId in db.carts {
      var cart := db.carts[userId];
      db.carts := db.carts[userId := map p | p in cart && p !in ids :: cart[p]];
    }
  }

  /** The checks `createOrder` makes before writing anything: 404 unless the
      lines name distinct existing products, then 422 for the first line that
      exceeds its product's stock. */
  method CheckOrder(items: seq<OrderItemInput>, products: map<Id, Product>) returns (err: Option<Error>)
    ensures FoundCount(ProductIds(items), products) != |items| ==>
      err == Some(Http(404, "One or more products not found"))
    ensures FoundCount(ProductIds(items), products) == |items| ==>
      (err.None? <==> StockSufficient(items, products))
      && (err.Some? ==> err.value.Http? && err.value.status == 422)
    ensures err.None? ==> Covers(items, products) && Distinct(ProductIds(items))
  {
    var productIds := ProductIds(items);
    var found := set x | x in productIds && x in products;
    if |found| != |productIds| {
      return Some(Http(404, "One or more products not found"));
    }
    FoundAllIff(productIds, products);
    err := CheckStock(items, products);
  }

  /** The writes of a checkout that passed the checks: the transaction, then
      the payment, which overwrites the PENDING status with PAID or FAILED. */
  method Fulfil(db: Db, userId: Id, input: CreateOrderInput, orderId: Id, success: bool, now: nat)
    returns (result: CheckoutResult)
    requires orderId !in db.orders
    requires Covers(input.items, db.products)
    modifies db`orders, db`products, db`carts, db`payments
    ensures var order := NewOrder(userId, input, old(db.products));
      var row := PaymentRow(input.paymentProvider, SummaryDetails(order.paymentSummary),
                            SimulateProviderPayment(success, now));
      && result == CheckoutResult(orderId, OrderStatusFor(success), row)
      && db.orders == old(db.orders)[orderId := order.(status := OrderStatusFor(success))]
      && db.payments == old(db.payments)[orderId := row]
      && db.products == DecrementStock(old(db.products), input.items)
      && db.carts == RemoveCartLines(old(db.carts), userId, Elems(ProductIds(input.items)))
  {
    ghost var ordersBefore := db.orders;
    ghost var paymentsBefore := db.payments;
    ghost var expected := NewOrder(userId, input, db.products);
    var order := PlaceOrder(db, userId, orderId, input);
    assert order == expected;
    ghost var ordersPlaced := db.orders;
    var paid := ProcessPayment(db, orderId, input.paymentProvider, SummaryDetails(order.paymentSummary), success, now);
    assert paid.Success?;
    ghost var paidOrder := order.(status := OrderStatusFor(success));
    assert db.orders == ordersPlaced[orderId := paidOrder] by {
      assert ordersPlaced[orderId] == order;
    }
    UpdateTwice(ordersBefore, orderId, order, paidOrder);
    assert db.payments == paymentsBefore[orderId := paid.value.payment];
    result := CheckoutResult(orderId, paid.value.orderStatus, paid.value.payment);
  }

  /** Writing a key twice keeps the second value only. */
  lemma UpdateTwice<K, V>(m: map<K, V>, k: K, a: V, b: V)
    ensures m[k := a][k := b] == m[k := b]
  {
  }

  /** `createOrder`: the checks, and when they pass, the writes. A failed check
      writes nothing. */
  method CreateOrder(db: Db, userId: Id, input: CreateOrderInput, orderId: Id, success: bool, now: nat)
    returns (r: Result<CheckoutResult>)
    requires orderId !in db.orders
    modifies db`orders, db`products, db`carts, db`payments
    ensures FoundCount(ProductIds(input.items), old(db.products)) != |input.items| ==>
      r == Failure(Http(404, "One or more products not found")) && unchanged(db)
    ensures (FoundCount(ProductIds(input.items), old(db.products)) == |input.items|
      && !StockSufficient(input.items, old(db.products))) ==>
      r.Failure? && r.error.Http? && r.error.status == 422 && unchanged(db)
    ensures (FoundCount(ProductIds(input.items), old(db.products)) == |input.items|
      && StockSufficient(input.items, old(db.products))) ==>
      Covers(input.items, old(db.products))
      && var order := NewOrder(userId, input, old(db.products));
      var row := PaymentRow(input.paymentProvider, SummaryDetails(order.paymentSummary),
                            SimulateProviderPayment(success, now));
      && r == Success(CheckoutResult(orderId, OrderStatusFor(success), row))
      && db.orders == old(db.orders)[orderId := order.(status := OrderStatusFor(success))]
      && db.payments == old(db.payments)[orderId := row]
      && db.products == DecrementStock(old(db.products), input.items)
      && db.carts == RemoveCartLines(old(db.carts), userId, Elems(ProductIds(input.items)))
  {
    var err := CheckOrder(input.items, db.products);
    if err.Some? {
      return Failure(err.value);
    }
    var result := Fulfil(db, userId, input, orderId, success, now);
    return Success(result);
  }

  /** `getOrderById`: 404 for an unknown order, 403 unless the caller is an
      ADMIN or a SELLER or owns the order. */
  function GetOrderById(orders: map<Id, Order>, orderId: Id, userId: Id, role: Role): (r: Result<Order>)
    ensures orderId !in orders ==> r == Failure(Http(404, "Order not found"))
    ensures orderId in orders ==>
      (r.Success? <==> role == Admin || role == Seller || orders[orderId].userId == userId)
    ensures r.Success? ==> orderId in orders && r.value == orders[orderId]
    ensures r.Failure? && orderId in orders ==> r.error == Http(403, "Not allowed to access this order")
  {
    if orderId !in orders then Failure(Http(404, "Order not found"))
    else if role != Admin && role != Seller && orders[orderId].userId != userId
    then Failure(Http(403, "Not allowed to access this order"))
    else Success(orders[orderId])
  }

  /** `listOrdersForUser`: exactly the user's own orders. */
  function OrdersOfUser(orders: map<Id, Order>, userId: Id): (r: map<Id, Order>)
    ensures r.Keys <= orders.Keys
    ensures forall id :: id in orders ==> (id in r <==> orders[id].userId == userId)
    ensures forall id :: id in r ==> r[id] == orders[id]
  {
    map id | id in orders && orders[id].userId == userId :: orders[id]
  }

  /** `updateOrderStatus`: any of the six statuses from any status; 404 for
      an unknown order. */
  method UpdateOrderStatus(db: Db, orderId: Id, status: OrderStatus) returns (r: Result<Order>)
    modifies db`orders
    ensures orderId !in old(db.orders) ==> r == Failure(Http(404, "Order not found")) && unchanged(db)
    ensures orderId in old(db.orders) ==>
      r == Success(old(db.orders)[orderId].(status := status))
      && db.orders == old(db.orders)[orderId := old(db.orders)[orderId].(status := status)]
  {
    if orderId !in db.orders {
      return Failure(Http(404, "Order not found"));
    }
    var updated := db.orders[orderId].(status := status);
    db.orders := db.orders[orderId := updated];
    return Success(updated);
  }
}
