/**
 * The simulated payment provider and `processPayment`. The provider's random
 * draw and the clock are inputs: `success` is the outcome of the draw and
 * `now` the millisecond timestamp used in the provider reference.
 */
module PaymentService {
  import opened Common
  import opened Store

  datatype ProviderResult = ProviderResult(success: bool, status: PaymentStatus, reference: string)

  datatype PaymentOutcome = PaymentOutcome(payment: Payment, orderStatus: OrderStatus)

  /** `simulateProviderPayment`: the payment succeeds exactly when the draw
      says so, and the reference is "SIM-" followed by the timestamp. */
  function SimulateProviderPayment(success: bool, now: nat): (r: ProviderResult)
    ensures r.success == success
    ensures r.status == PaymentSucceeded <==> success
    ensures StartsWith(r.reference, "SIM-") && |r.reference| > 4
  {
    ProviderResult(success, if success then PaymentSucceeded else PaymentFailed,
                   "SIM-" + NatToString(now))
  }

  /** `{ reference, ...details }`: the reference first, then every detail,
      a detail named "reference" overriding it. */
  function PaymentMetadata(reference: string, details: map<string, string>): (m: map<string, string>)
    ensures m.Keys == details.Keys + {"reference"}
    ensures forall k :: k in details ==> m[k] == details[k]
    ensures "reference" !in details ==> m["reference"] == reference
  {
    map["reference" := reference] + details
  }

  /** The order status a payment outcome forces. */
  function OrderStatusFor(success: bool): (s: OrderStatus)
    ensures s == Paid || s == Failed
    ensures s == Paid <==> success
  {
    if success then Paid else Failed
  }

  /** The payment row written for an outcome. */
  function PaymentRow(provider: string, details: map<string, string>, result: ProviderResult): Payment {
    Payment(provider, result.status, PaymentMetadata(result.reference, details))
  }

  /** The returned order status agrees with the stored payment status:
      PAID with SUCCEEDED and FAILED with FAILED. */
  lemma StatusesAgree(provider: string, details: map<string, string>, success: bool, now: nat)
    ensures var result := SimulateProviderPayment(success, now);
      (OrderStatusFor(result.success) == Paid <==> PaymentRow(provider, details, result).status == PaymentSucceeded)
      && (OrderStatusFor(result.success) == Failed <==> PaymentRow(provider, details, result).status == PaymentFailed)
  {
  }

  /** The tables after a payment for an existing order: the payment row is
      upserted and the order status overwritten, whatever it was. */
  function PaidOrders(orders: map<Id, Order>, orderId: Id, success: bool): (r: map<Id, Order>)
    requires orderId in orders
    ensures r.Keys == orders.Keys
    ensures r[orderId] == orders[orderId].(status := OrderStatusFor(success))
    ensures forall id :: id in orders && id != orderId ==> r[id] == orders[id]
  {
    orders[orderId := orders[orderId].(status := OrderStatusFor(success))]
  }

  function UpsertPayment(payments: map<Id, Payment>, orderId: Id, row: Payment): (r: map<Id, Payment>)
    ensures r.Keys == payments.Keys + {orderId}
    ensures r[orderId] == row
    ensures forall id :: id in payments && id != orderId ==> r[id] == payments[id]
  {
    payments[orderId := row]
  }

  /** A second payment for the same order replaces the first: paying twice is
      paying once with the second outcome, for the order and payment tables. */
  lemma {:induction false} RepeatedPaymentOverwrites(
    orders: map<Id, Order>, payments: map<Id, Payment>, orderId: Id,
    p1: string, d1: map<string, string>, r1: ProviderResult,
    p2: string, d2: map<string, string>, r2: ProviderResult)
    requires orderId in orders
    ensures PaidOrders(PaidOrders(orders, orderId, r1.success), orderId, r2.success)
         == PaidOrders(orders, orderId, r2.success)
    ensures UpsertPayment(UpsertPayment(payments, orderId, PaymentRow(p1, d1, r1)), orderId, PaymentRow(p2, d2, r2))
         == UpsertPayment(payments, orderId, PaymentRow(p2, d2, r2))
    ensures |UpsertPayment(UpsertPayment(payments, orderId, PaymentRow(p1, d1, r1)), orderId, PaymentRow(p2, d2, r2)).Keys|
         == |UpsertPayment(payments, orderId, PaymentRow(p1, d1, r1)).Keys|
  {
    var once := PaidOrders(orders, orderId, r1.success);
    assert PaidOrders(once, orderId, r2.success) == orders[orderId := orders[orderId].(status := OrderStatusFor(r2.success))];
    var pay1 := UpsertPayment(payments, orderId, PaymentRow(p1, d1, r1));
    assert UpsertPayment(pay1, orderId, PaymentRow(p2, d2, r2)).Keys == pay1.Keys;
  }

  /** Applying the same outcome twice leaves the same order status and one
      payment with the same status as applying it once. */
  lemma SameOutcomeTwice(
    orders: map<Id, Order>, payments: map<Id, Payment>, orderId: Id,
    provider: string, details: map<string, string>, success: bool, t1: nat, t2: nat)
    requires orderId in orders
    ensures var once := PaidOrders(orders, orderId, success);
      var twice := PaidOrders(once, orderId, success);
      twice == once
    ensures var r1 := SimulateProviderPayment(success, t1);
      var r2 := SimulateProviderPayment(success, t2);
      var p1 := UpsertPayment(payments, orderId, PaymentRow(provider, details, r1));
      var p2 := UpsertPayment(p1, orderId, PaymentRow(provider, details, r2));
      p2.Keys == p1.Keys && p2[orderId].status == p1[orderId].status
  {
    var r1 := SimulateProviderPayment(success, t1);
    var r2 := SimulateProviderPayment(success, t2);
    RepeatedPaymentOverwrites(orders, payments, orderId, provider, details, r1, provider, details, r2);
    RepeatedPaymentOverwrites(orders, payments, orderId, provider, details, r1, provider, details, r1);
  }

  /** `processPayment`. An unknown order fails with 404 before the provider is
      asked and before any write. */
  method ProcessPayment(db: Db, orderId: Id, provider: string, details: map<string, string>,
                        success: bool, now: nat)
    returns (r: Result<PaymentOutcome>)
    modifies db`payments, db`orders
    ensures orderId !in old(db.orders) ==>
      r == Failure(Http(404, "Order not found")) && unchanged(db)
    ensures orderId in old(db.orders) ==>
      var result := SimulateProviderPayment(success, now);
      && r == Success(PaymentOutcome(PaymentRow(provider, details, result), OrderStatusFor(success)))
      && db.payments == UpsertPayment(old(db.payments), orderId, PaymentRow(provider, details, result))
      && db.orders == PaidOrders(old(db.orders), orderId, success)
    ensures old(db.PaymentsOfOrders()) ==> db.PaymentsOfOrders()
  {
    if orderId !in db.orders {
      return Failure(Http(404, "Order not found"));
    }
    var result := SimulateProviderPayment(success, now);
    var payment := Payment(provider, result.status, map["reference" := result.reference] + details);
    db.payments := db.payments[orderId := payment];
    var status := if result.success then Paid else Failed;
    db.orders := db.orders[orderId := db.orders[orderId].(status := status)];
    return Success(PaymentOutcome(payment, status));
  }
}
