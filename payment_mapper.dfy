/** Conversions between payments and their request/response records. */
module PaymentMapper {
  import opened Entities
  import opened Dtos

  /** `toResponseDto`: `ownerEmail` is the email of the user of the payment's order. */
  function ToResponseDto(id: nat, payment: Payment, ownerEmail: string): PaymentResponse
  {
    PaymentResponse(
      id, payment.transactionReference, payment.paymentMethod, payment.paidAt,
      payment.amount, payment.status, payment.orderId, ownerEmail)
  }

  /** `toEntity(request, order)`: the amount is the order's total, whatever the request says;
      `transactionReference` is the random UUID and `today` the date the entity's setters draw. */
  function ToEntity(request: PaymentRequest, orderId: nat, order: Order, transactionReference: string, today: Date): (p: Payment)
    ensures p.amount == order.totalAmount
    ensures p.status == PaymentStatus.PENDING
    ensures p.paymentMethod == request.paymentMethod && p.orderId == orderId
    ensures p.transactionReference == transactionReference && p.paidAt == today
  {
    Payment(order.totalAmount, transactionReference, request.paymentMethod, today, PaymentStatus.PENDING, orderId)
  }

  /** `toResponseList`: one record per payment, in order; `ownerEmail` gives, for an
      order id, the email of that order's user. */
  function ToResponseList(payments: seq<Row<Payment>>, ownerEmail: nat -> string): (r: seq<PaymentResponse>)
    ensures |r| == |payments|
    ensures forall i :: 0 <= i < |payments| ==>
      r[i] == ToResponseDto(payments[i].id, payments[i].entity, ownerEmail(payments[i].entity.orderId))
  {
    if payments == [] then []
    else
      [ToResponseDto(payments[0].id, payments[0].entity, ownerEmail(payments[0].entity.orderId))]
      + ToResponseList(payments[1..], ownerEmail)
  }

  /** The amount of a new payment does not depend on the amount requested. */
  lemma AmountIgnoresRequest(request: PaymentRequest, orderId: nat, order: Order, transactionReference: string, today: Date, other: Money)
    ensures ToEntity(request, orderId, order, transactionReference, today)
         == ToEntity(request.(amount := other), orderId, order, transactionReference, today)
  {
  }
}
