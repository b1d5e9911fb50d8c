/**
 * The checkout and order-status request schemas. A schema over strings only is
 * a predicate on the typed request (zod returns the same object); a schema
 * with numbers is a parse from the raw JSON shape, with numbers as reals, to
 * the typed input the order service takes.
 */
module OrderDto {
  import opened Common
  import opened Store

  datatype PaymentMethodInput = PaymentMethodInput(
    cardholderName: string, cardNumber: string, expMonth: string,
    expYear: string, cvc: string)

  datatype RawOrderItem = RawOrderItem(productId: string, quantity: real)

  datatype OrderItemInput = OrderItemInput(productId: Id, quantity: int)

  datatype RawCreateOrder = RawCreateOrder(
    items: seq<RawOrderItem>, paymentProvider: string, shippingAddress: Address,
    billingAddress: Option<Address>, paymentMethod: PaymentMethodInput)

  datatype CreateOrderInput = CreateOrderInput(
    items: seq<OrderItemInput>, paymentProvider: string, shippingAddress: Address,
    billingAddress: Option<Address>, paymentMethod: PaymentMethodInput)

  /** The address schema: required lines non-empty, a postal code of at least
      two characters, a phone of six to twenty, `line2` free. */
  predicate ValidAddress(a: Address) {
    |a.fullName| >= 1 && |a.line1| >= 1 && |a.postalCode| >= 2
    && |a.city| >= 1 && |a.country| >= 1 && 6 <= |a.phone| <= 20
  }

  /** `/^[0-9 ]+$/`. */
  predicate DigitsAndSpaces(s: string) {
    |s| >= 1 && forall i :: 0 <= i < |s| ==> IsDigit(s[i]) || s[i] == ' '
  }

  predicate AllDigits(s: string) {
    forall i :: 0 <= i < |s| ==> IsDigit(s[i])
  }

  predicate ValidCardNumber(s: string) {
    12 <= |s| <= 19 && DigitsAndSpaces(s)
  }

  /** `/^(0[1-9]|1[0-2])$/`. */
  predicate ValidExpMonth(s: string) {
    |s| == 2 && ((s[0] == '0' && '1' <= s[1] <= '9') || (s[0] == '1' && '0' <= s[1] <= '2'))
  }

  /** `/^\d{2}$/`. */
  predicate ValidExpYear(s: string) {
    |s| == 2 && AllDigits(s)
  }

  /** `/^\d{3,4}$/`. */
  predicate ValidCvc(s: string) {
    3 <= |s| <= 4 && AllDigits(s)
  }

  predicate ValidPaymentMethod(m: PaymentMethodInput) {
    |m.cardholderName| >= 1 && ValidCardNumber(m.cardNumber) && ValidExpMonth(m.expMonth)
    && ValidExpYear(m.expYear) && ValidCvc(m.cvc)
  }

  function DigitValue(c: char): int {
    c as int - '0' as int
  }

  /** The month pattern accepts exactly the two-digit spellings of 1 to 12. */
  lemma ExpMonthIsMonthNumber(s: string)
    ensures ValidExpMonth(s) <==>
      |s| == 2 && AllDigits(s) && 1 <= 10 * DigitValue(s[0]) + DigitValue(s[1]) <= 12
  {
  }

  /** One checkout line: a UUID product id and a positive integer quantity. */
  function ParseItem(raw: RawOrderItem): (r: Option<OrderItemInput>)
    ensures r.Some? <==> IsUuid(raw.productId) && IsIntegral(raw.quantity) && raw.quantity > 0.0
    ensures r.Some? ==> (r.value.productId == raw.productId && r.value.quantity >= 1
      && r.value.quantity as real == raw.quantity)
  {
    if IsUuid(raw.productId) && IsIntegral(raw.quantity) && raw.quantity > 0.0
    then Some(OrderItemInput(raw.productId, raw.quantity.Floor))
    else None
  }

  function ParseItems(raw: seq<RawOrderItem>): (r: Option<seq<OrderItemInput>>)
    ensures r.Some? <==> forall i :: 0 <= i < |raw| ==> ParseItem(raw[i]).Some?
    ensures r.Some? ==> (|r.value| == |raw|
      && forall i :: 0 <= i < |raw| ==> Some(r.value[i]) == ParseItem(raw[i]))
  {
    if |raw| == 0 then Some([])
    else
      match (ParseItem(raw[0]), ParseItems(raw[1..]))
      case (Some(x), Some(xs)) => Some([x] + xs)
      case _ => None
  }

  /** `createOrderSchema.parse`: `None` when the request is rejected. */
  function ParseCreateOrder(raw: RawCreateOrder): (r: Option<CreateOrderInput>)
    ensures r.Some? <==>
      |raw.items| >= 1 && ParseItems(raw.items).Some? && |raw.paymentProvider| >= 1
      && ValidAddress(raw.shippingAddress)
      && (raw.billingAddress.Some? ==> ValidAddress(raw.billingAddress.value))
      && ValidPaymentMethod(raw.paymentMethod)
    ensures r.Some? ==> (r.value.paymentProvider == raw.paymentProvider
      && r.value.shippingAddress == raw.shippingAddress
      && r.value.billingAddress == raw.billingAddress
      && r.value.paymentMethod == raw.paymentMethod)
  {
    var items := ParseItems(raw.items);
    if |raw.items| >= 1 && items.Some? && |raw.paymentProvider| >= 1
      && ValidAddress(raw.shippingAddress)
      && (raw.billingAddress.Some? ==> ValidAddress(raw.billingAddress.value))
      && ValidPaymentMethod(raw.paymentMethod)
    then Some(CreateOrderInput(items.value, raw.paymentProvider, raw.shippingAddress,
                               raw.billingAddress, raw.paymentMethod))
    else None
  }

  /** What the order service may rely on after validation. */
  lemma ParsedOrderShape(raw: RawCreateOrder)
    requires ParseCreateOrder(raw).Some?
    ensures var x := ParseCreateOrder(raw).value;
      |x.items| == |raw.items| >= 1
      && (forall i :: 0 <= i < |x.items| ==>
            x.items[i].quantity >= 1 && IsUuid(x.items[i].productId)
            && x.items[i].productId == raw.items[i].productId)
      && ValidPaymentMethod(x.paymentMethod)
  {
    var x := ParseCreateOrder(raw).value;
    forall i | 0 <= i < |x.items|
      ensures x.items[i].quantity >= 1 && IsUuid(x.items[i].productId)
        && x.items[i].productId == raw.items[i].productId
    {
      assert Some(x.items[i]) == ParseItem(raw.items[i]);
    }
  }

  /** `updateOrderStatusSchema`: exactly the six status names. */
  function ParseStatusUpdate(status: string): (r: Option<OrderStatus>)
    ensures r.Some? <==> status in {"PENDING", "PAID", "FAILED", "CANCELLED", "SHIPPED", "DELIVERED"}
    ensures r.Some? ==> StatusName(r.value) == status
  {
    ParseStatus(status)
  }
}
