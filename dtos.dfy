/** The request and response records exchanged with the controllers. */
module Dtos {
  import opened Common
  import opened Entities
  import opened UserRoles

  datatype ProductRequest = ProductRequest(name: string, description: string, price: Money, stockQuantity: int)
  datatype CategoryRequest = CategoryRequest(name: string, description: string, parentCategoryId: Option<nat>)
  datatype ProductCategoryRequest = ProductCategoryRequest(productId: nat, categoryId: nat)
  datatype CartItemRequest = CartItemRequest(productId: nat, quantity: int)
  datatype PaymentRequest = PaymentRequest(orderId: nat, paymentMethod: PaymentMethod, amount: Money)
  datatype PaymentStatusUpdateRequest = PaymentStatusUpdateRequest(paymentId: nat, status: PaymentStatus)
  datatype RegisterRequest = RegisterRequest(email: string, password: string, role: Option<UserRole>)
  datatype PasswordUpdateRequest = PasswordUpdateRequest(userId: nat, actualPassword: Option<string>, newPassword: string)

  datatype ProductResponse = ProductResponse(id: nat, name: string, description: string, price: Money, stockQuantity: int)
  datatype ProductResponseList = ProductResponseList(
    productResponseDto: seq<ProductResponse>,
    totalItemsPerPage: int,
    totalItems: int,
    totalPages: int,
    currentPage: int)
  datatype CategoryResponse = CategoryResponse(id: nat, name: string, description: string, parentCategoryId: Option<nat>)
  datatype ProductCategoryResponse = ProductCategoryResponse(
    productId: nat,
    productName: string,
    productDescription: string,
    productPrice: Money,
    productStockQuantity: int,
    categoryId: nat,
    categoryName: string,
    categoryDescription: string)
  datatype CartItemResponse = CartItemResponse(cartItemId: nat, productName: string, productPrice: Money, quantity: int)
  datatype OrderItemResponse = OrderItemResponse(id: Option<nat>, productId: nat, productName: string, price: Money, quantity: int)
  datatype OrderResponse = OrderResponse(id: nat, status: OrderStatus, userEmail: string, orderItems: seq<OrderItemResponse>)
  datatype PaymentResponse = PaymentResponse(
    id: nat,
    transactionReference: string,
    paymentMethod: PaymentMethod,
    paidAt: Date,
    amount: Money,
    status: PaymentStatus,
    orderid: nat,
    userEmail: string)
  datatype UserResponse = UserResponse(email: string, role: Option<UserRole>)
  datatype ProductImageResponse = ProductImageResponse(id: nat, imageName: string, imgType: string, productId: nat)

  /** One page of products as the repository returns it (`Page<Product>`). */
  datatype ProductPage = ProductPage(content: seq<Row<Product>>, size: int, totalElements: int, totalPages: int, number: int)
}
