/** `PaymentService`: paying orders. */
module PaymentService {
  import opened Common
  import opened Entities
  import opened Dtos
  import opened Store
  import PaymentMapper
  import OrderService
  import OrderEventListener

  const AlreadyPaid := Business("Payment already done for this order", CONFLICT)
  const Underpaid := Business("The order amount is greater than the payment amount", CONFLICT)

  /** `BigDecimal.compareTo`: -1, 0 or 1 as `a` is below, equal to or above `b`. */
  function CompareTo(a: Money, b: Money): (c: int)
    ensures -1 <= c <= 1
  {
    if a < b then -1 else if a == b then 0 else 1
  }

  /** `compareTo == 1` is "greater than", and 0 is equality. */
  lemma CompareToOrders(a: Money, b: Money)
    ensures CompareTo(a, b) == 1 <==> a > b
    ensures CompareTo(a, b) == 0 <==> a == b
    ensures CompareTo(a, b) == -CompareTo(b, a)
  {
  }

  /** `CheckAmount`: refuse a payment below the order's total. */
  function CheckAmount(order: Order, request: PaymentRequest): (r: Outcome)
    ensures r.Pass? <==> request.amount >= order.totalAmount
    ensures r.Fail? ==> r.failure == Underpaid
  {
    if CompareTo(order.totalAmount, request.amount) == 1 then Fail(Underpaid) else Pass
  }

  /** `existsByOrderId`. */
  predicate OrderPaid(payments: map<nat, Payment>, orderId: nat)
  {
    exists id :: id in payments && payments[id].orderId == orderId
  }

  /** The email of the user of the payment's order. */
  function OwnerEmail(s: State, orderId: nat): string
    requires orderId in s.orders && s.orders[orderId].userId in s.users
  {
    s.users[s.orders[orderId].userId].email
  }

  /** `createPayment`: the order is looked up first; an order that already has a
      payment is refused before the amount is checked; a payment below the total is
      refused; otherwise a PENDING payment for the order's total is stored and the
      completion event is handled at once, linking the payment onto the order. */
  method CreatePayment(db: Db, request: PaymentRequest, transactionReference: string, today: Date)
    returns (r: Result<PaymentResponse>)
    requires db.Valid()
    modifies db
    ensures db.Valid()
    ensures r.Err? ==> db.Snapshot() == old(db.Snapshot())
    ensures request.orderId !in old(db.orders) ==>
      r == Err(Business("No order found with the id: " + NatToString(request.orderId), NOT_FOUND))
    ensures request.orderId in old(db.orders) && OrderPaid(old(db.payments), request.orderId) ==> r == Err(AlreadyPaid)
    ensures request.orderId in old(db.orders) && !OrderPaid(old(db.payments), request.orderId) ==>
      (r.Ok? <==> request.amount >= old(db.orders)[request.orderId].totalAmount) &&
      (r.Err? ==> r == Err(Underpaid))
    ensures r.Ok? ==>
      request.orderId in old(db.orders) &&
      var payment := PaymentMapper.ToEntity(request, request.orderId, old(db.orders)[request.orderId], transactionReference, today);
      db.Snapshot() == old(db.Snapshot()).(
        payments := old(db.payments)[old(db.nextId) := payment],
        orders := OrderEventListener.WithPayment(old(db.orders), request.orderId, old(db.nextId)),
        nextId := old(db.nextId) + 1) &&
      r.value == PaymentMapper.ToResponseDto(old(db.nextId), payment, OwnerEmail(old(db.Snapshot()), request.orderId))
  {
    var order := OrderService.FindOrderById(db.orders, request.orderId);
    if order.Err? {
      return Err(order.failure);
    }
    if OrderPaid(db.payments, request.orderId) {
      return Err(AlreadyPaid);
    }
    var check := CheckAmount(order.value, request);
    if check.Fail? {
      return Err(check.failure);
    }
    var payment := PaymentMapper.ToEntity(request, request.orderId, order.value, transactionReference, today);
    var id := SavePayment(db, payment);
    var email := OwnerEmail(db.Snapshot(), request.orderId);
    var _ := OrderEventListener.HandlePaymentCompleted(db, request.orderId, id);
    r := Ok(PaymentMapper.ToResponseDto(id, payment, email));
  }

  /** `repository.save` of a new payment: it gets the next id; the order it names
      exists and has no payment yet, so the store's constraints still hold. */
  method SavePayment(db: Db, payment: Payment) returns (id: nat)
    requires db.Valid()
    requires payment.orderId in db.orders && !OrderPaid(db.payments, payment.orderId)
    modifies db
    ensures db.Valid()
    ensures id == old(db.nextId) && id !in old(db.payments)
    ensures db.Snapshot() == old(db.Snapshot()).(payments := old(db.payments)[id := payment], nextId := id + 1)
  {
    id := db.nextId;
    db.payments := db.payments[id := payment];
    db.nextId := db.nextId + 1;
  }

  function NoPaymentColon(id: nat): Failure
  {
    Business("No payment found with the id: " + NatToString(id), NOT_FOUND)
  }

  /** `tooglePaymentStatus`: sets the status of that payment and changes nothing else. */
  method TooglePaymentStatus(db: Db, request: PaymentStatusUpdateRequest) returns (r: Result<PaymentResponse>)
    requires db.Valid()
    modifies db
    ensures db.Valid()
    ensures request.paymentId !in old(db.payments) ==>
      r == Err(NoPaymentColon(request.paymentId)) && db.Snapshot() == old(db.Snapshot())
    ensures request.paymentId in old(db.payments) ==>
      var updated := old(db.payments)[request.paymentId].(status := request.status);
      db.Snapshot() == old(db.Snapshot()).(payments := old(db.payments)[request.paymentId := updated]) &&
      r == Ok(PaymentMapper.ToResponseDto(request.paymentId, updated, OwnerEmail(old(db.Snapshot()), updated.orderId)))
  {
    if request.paymentId !in db.payments {
      return Err(NoPaymentColon(request.paymentId));
    }
    var updated := db.payments[request.paymentId].(status := request.status);
    db.payments := db.payments[request.paymentId := updated];
    r := Ok(PaymentMapper.ToResponseDto(request.paymentId, updated, OwnerEmail(db.Snapshot(), updated.orderId)));
  }

  /** `findById`. */
  function FindById(s: State, id: nat): (r: Result<PaymentResponse>)
    requires PaymentsReferToOrders(s.payments, s.orders) && OrdersReferToUsers(s.orders, s.users)
    ensures r.Ok? <==> id in s.payments
    ensures r.Err? ==> r.failure == NoPaymentColon(id)
    ensures r.Ok? ==>
      r.value.id == id && r.value.amount == s.payments[id].amount &&
      r.value.status == s.payments[id].status && r.value.orderid == s.payments[id].orderId &&
      r.value.transactionReference == s.payments[id].transactionReference &&
      r.value.paymentMethod == s.payments[id].paymentMethod && r.value.paidAt == s.payments[id].paidAt &&
      r.value.userEmail == OwnerEmail(s, s.payments[id].orderId)
  {
    if id !in s.payments then Err(NoPaymentColon(id))
    else Ok(PaymentMapper.ToResponseDto(id, s.payments[id], OwnerEmail(s, s.payments[id].orderId)))
  }

  /** `deletePayment`: removes exactly that payment. */
  method DeletePayment(db: Db, id: nat) returns (r: Outcome)
    requires db.Valid()
    modifies db
    ensures db.Valid()
    ensures id !in old(db.payments) ==>
      r == Fail(Business("No payment found with the id " + NatToString(id), NOT_FOUND)) && db.Snapshot() == old(db.Snapshot())
    ensures id in old(db.payments) ==>
      r == Pass && db.Snapshot() == old(db.Snapshot()).(payments := old(db.payments) - {id})
  {
    if id !in db.payments {
      return Fail(Business("No payment found with the id " + NatToString(id), NOT_FOUND));
    }
    db.payments := db.payments - {id};
    r := Pass;
  }
}
