// The storefront's view of orders: the raw order JSON mapped to the shape
// the account page shows, and the French label of each order status.

module OrderApi {
  import opened Common
  import opened Store

  /** A JSON field that may be missing, null, or hold a value. */
  datatype Nullable<T> = Missing | Null | Value(value: T)

  /** A JSON number, or a decimal sent as a string. */
  datatype Numeric = Num(n: real) | Text(text: string)

  datatype PaymentState = Initiated | Succeeded | FailedPayment

  datatype RawProduct = RawProduct(id: string, name: string, imageUrl: Nullable<string>, price: Numeric, sku: string)
  datatype RawItem = RawItem(id: string, orderId: string, productId: string, quantity: int, unitPrice: Numeric, product: RawProduct)
  datatype RawPayment = RawPayment(id: string, status: PaymentState, provider: string,
                                   metadata: Nullable<map<string, string>>, createdAt: string)
  datatype RawOrder = RawOrder(id: string, userId: string, status: OrderStatus, total: Numeric,
                               createdAt: string, updatedAt: string, items: seq<RawItem>, payment: Nullable<RawPayment>)

  datatype ProductSummary = ProductSummary(id: string, name: string, imageUrl: Option<string>, price: real, sku: string)
  datatype ItemDto = ItemDto(id: string, quantity: int, unitPrice: real, product: ProductSummary)
  datatype PaymentDto = PaymentDto(id: string, status: PaymentState, provider: string,
                                   metadata: Option<map<string, string>>, createdAt: string)
  /** `payment` is `None` for null. */
  datatype OrderDto = OrderDto(id: string, status: OrderStatus, total: real, createdAt: string,
                               updatedAt: string, items: seq<ItemDto>, payment: Option<PaymentDto>)

  /** `x ?? undefined`. */
  function OrUndefined<T>(x: Nullable<T>): (r: Option<T>)
    ensures r.None? <==> !x.Value?
    ensures r.Some? ==> r.value == x.value
  {
    if x.Value? then Some(x.value) else None
  }

  /** `toNumber`: numbers pass through; a string goes through `Number`,
      which is given. */
  function ToNumber(v: Numeric, number: string -> real): (r: real)
    ensures v.Num? ==> r == v.n
  {
    match v
    case Num(n) => n
    case Text(t) => number(t)
  }

  function MapItem(item: RawItem, number: string -> real): (r: ItemDto)
    ensures r.id == item.id && r.quantity == item.quantity
    ensures r.product.id == item.product.id && r.product.name == item.product.name && r.product.sku == item.product.sku
    ensures r.product.imageUrl.None? <==> !item.product.imageUrl.Value?
  {
    ItemDto(item.id, item.quantity, ToNumber(item.unitPrice, number),
            ProductSummary(item.product.id, item.product.name, OrUndefined(item.product.imageUrl),
                           ToNumber(item.product.price, number), item.product.sku))
  }

  function MapPayment(p: RawPayment): (r: PaymentDto)
    ensures r.id == p.id && r.status == p.status && r.provider == p.provider && r.createdAt == p.createdAt
    ensures r.metadata.None? <==> !p.metadata.Value?
  {
    PaymentDto(p.id, p.status, p.provider, OrUndefined(p.metadata), p.createdAt)
  }

  /** `mapOrder`. */
  function MapOrder(o: RawOrder, number: string -> real): (r: OrderDto)
    ensures r.id == o.id && r.status == o.status && r.createdAt == o.createdAt && r.updatedAt == o.updatedAt
    ensures |r.items| == |o.items|
    ensures forall k :: 0 <= k < |o.items| ==> r.items[k].id == o.items[k].id && r.items[k].quantity == o.items[k].quantity
    ensures r.payment.None? <==> !o.payment.Value?
  {
    OrderDto(o.id, o.status, ToNumber(o.total, number), o.createdAt, o.updatedAt,
             seq(|o.items|, k requires 0 <= k < |o.items| => MapItem(o.items[k], number)),
             if o.payment.Value? then Some(MapPayment(o.payment.value)) else None)
  }

  /** When the server sends plain numbers, the mapped amounts are those
      numbers and do not depend on how strings would be parsed. */
  lemma MapOrderKeepsNumbers(o: RawOrder, number: string -> real, other: string -> real)
    requires o.total.Num? && forall k :: 0 <= k < |o.items| ==> o.items[k].unitPrice.Num? && o.items[k].product.price.Num?
    ensures MapOrder(o, number) == MapOrder(o, other)
    ensures MapOrder(o, number).total == o.total.n
    ensures forall k :: 0 <= k < |o.items| ==>
      MapOrder(o, number).items[k].unitPrice == o.items[k].unitPrice.n
      && MapOrder(o, number).items[k].product.price == o.items[k].product.price.n
  {
    var a, b := MapOrder(o, number), MapOrder(o, other);
    assert a.items == b.items;
  }

  /** `displayOrderStatus`. */
  function DisplayOrderStatus(s: OrderStatus): string {
    match s
    case Pending => "En attente"
    case Paid => "Payée"
    case Failed => "Paiement échoué"
    case Cancelled => "Annulée"
    case Shipped => "Expédiée"
    case Delivered => "Livrée"
  }

  /** The six statuses have six different labels. */
  lemma DisplayOrderStatusInjective(s: OrderStatus, t: OrderStatus)
    requires s != t
    ensures DisplayOrderStatus(s) != DisplayOrderStatus(t)
  {
  }
}
