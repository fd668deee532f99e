/** `OrderEventListener`: on a completed payment, link the payment onto its order. The
    listener is a plain synchronous event listener, so it runs inside the publishing
    call, before that call returns. */
module OrderEventListener {
  import opened Common
  import opened Entities
  import opened Store

  function NoOrder(orderId: nat): Failure
  {
    Business("No order found whith the id: " + NatToString(orderId), NOT_FOUND)
  }

  function NoPayment(paymentId: nat): Failure
  {
    Business("No payment found whith the id: " + NatToString(paymentId), NOT_FOUND)
  }

  /** The orders after `order.setPayment(payment)` on the stored order. */
  function WithPayment(orders: map<nat, Order>, orderId: nat, paymentId: nat): map<nat, Order>
    requires orderId in orders
  {
    orders[orderId := orders[orderId].(payment := Some(paymentId))]
  }

  /** `handlePaymentCompleted`: the order is looked up first, then the payment; on
      success the order's payment reference is set and nothing else changes. */
  method HandlePaymentCompleted(db: Db, orderId: nat, paymentId: nat) returns (r: Outcome)
    requires db.Valid()
    modifies db
    ensures db.Valid()
    ensures orderId !in old(db.orders) ==> r == Fail(NoOrder(orderId)) && db.Snapshot() == old(db.Snapshot())
    ensures orderId in old(db.orders) && paymentId !in old(db.payments) ==>
      r == Fail(NoPayment(paymentId)) && db.Snapshot() == old(db.Snapshot())
    ensures orderId in old(db.orders) && paymentId in old(db.payments) ==>
      r == Pass && db.Snapshot() == old(db.Snapshot()).(orders := WithPayment(old(db.orders), orderId, paymentId))
  {
    if orderId !in db.orders {
      return Fail(NoOrder(orderId));
    }
    if paymentId !in db.payments {
      return Fail(NoPayment(paymentId));
    }
    var order := db.orders[orderId];
    db.orders := db.orders[orderId := order.(payment := Some(paymentId))];
    r := Pass;
  }

  /** Linking changes the one order's payment reference and nothing else. */
  lemma LinkChangesOnlyThePayment(orders: map<nat, Order>, orderId: nat, paymentId: nat)
    requires orderId in orders
    ensures WithPayment(orders, orderId, paymentId).Keys == orders.Keys
    ensures WithPayment(orders, orderId, paymentId)[orderId].payment == Some(paymentId)
    ensures WithPayment(orders, orderId, paymentId)[orderId].(payment := orders[orderId].payment) == orders[orderId]
    ensures forall k :: k in orders && k != orderId ==> WithPayment(orders, orderId, paymentId)[k] == orders[k]
  {
  }

  /** Handling the same event twice leaves the orders as handling it once. */
  lemma LinkIdempotent(orders: map<nat, Order>, orderId: nat, paymentId: nat)
    requires orderId in orders
    ensures WithPayment(WithPayment(orders, orderId, paymentId), orderId, paymentId) == WithPayment(orders, orderId, paymentId)
  {
  }
}
