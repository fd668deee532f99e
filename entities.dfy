/** The persistent entities of the shop, as the values their repositories store.
    References between entities are the referenced row's id. */
module Entities {
  import opened Common

  /** `BigDecimal` amounts: exact decimals, modelled by exact rationals. */
  type Money = real

  /** An opaque calendar date (`LocalDate`). */
  type Date = nat

  /** A stored row: the id the database gave it and the entity. */
  datatype Row<T> = Row(id: nat, entity: T)

  datatype Product = Product(name: string, description: string, price: Money, stockQuantity: int)

  /** A category; `parent` is the id of its parent category, absent for a root. */
  datatype Category = Category(name: string, description: string, parent: Option<nat>)

  /** A link putting one product in one category. */
  datatype ProductCategory = ProductCategory(productId: nat, categoryId: nat)

  datatype Cart = Cart(userId: nat)

  /** A cart line: a quantity of one product in one cart. */
  datatype CartItem = CartItem(quantity: int, cartId: nat, productId: nat)

  /** Order statuses named in the sources; the enum itself is not part of this model. */
  datatype OrderStatus = PENDING | SHIPPED

  /** A line of an order: a snapshot of the product taken when the order was placed.
      `id` stays absent: ids of order items are given by the persistence cascade,
      which is not part of this model. */
  datatype OrderItem = OrderItem(id: Option<nat>, quantity: int, unitPrice: Money, productId: nat, productName: string)

  /** An order; `payment` is the id of the payment linked to it, if any. */
  datatype Order = Order(userId: nat, status: OrderStatus, items: seq<OrderItem>, totalAmount: Money, payment: Option<nat>)

  /** Payment statuses named in the sources. */
  datatype PaymentStatus = PENDING | SUCCESS

  /** A payment method constant, by name. */
  datatype PaymentMethod = PaymentMethod(name: string)

  datatype Payment = Payment(
    amount: Money,
    transactionReference: string,
    paymentMethod: PaymentMethod,
    paidAt: Date,
    status: PaymentStatus,
    orderId: nat)

  datatype ProductImage = ProductImage(url: string, imageName: string, imgType: string, productId: nat)
}
