/** Conversions from orders to their response records. */
module OrderMapper {
  import opened Entities
  import opened Dtos

  function ToOrderItemResponseDto(item: OrderItem): OrderItemResponse
  {
    OrderItemResponse(item.id, item.productId, item.productName, item.unitPrice, item.quantity)
  }

  /** The stream map over the order's lines: one record per line, in order. */
  function ToOrderItemsResponseList(items: seq<OrderItem>): (r: seq<OrderItemResponse>)
    ensures |r| == |items|
    ensures forall i :: 0 <= i < |items| ==> r[i] == ToOrderItemResponseDto(items[i])
  {
    if items == [] then [] else [ToOrderItemResponseDto(items[0])] + ToOrderItemsResponseList(items[1..])
  }

  /** `toResponseDto`: `ownerEmail` is the email of the order's user. */
  function ToResponseDto(id: nat, order: Order, ownerEmail: string): (r: OrderResponse)
    ensures r.id == id && r.status == order.status && r.userEmail == ownerEmail
    ensures |r.orderItems| == |order.items|
    ensures forall i :: 0 <= i < |order.items| ==>
      r.orderItems[i].id == order.items[i].id &&
      r.orderItems[i].productId == order.items[i].productId &&
      r.orderItems[i].productName == order.items[i].productName &&
      r.orderItems[i].price == order.items[i].unitPrice &&
      r.orderItems[i].quantity == order.items[i].quantity
  {
    OrderResponse(id, order.status, ownerEmail, ToOrderItemsResponseList(order.items))
  }

  /** Mapping a concatenation of lines is concatenating the mapped lines. */
  lemma {:induction false} ItemsResponseConcat(a: seq<OrderItem>, b: seq<OrderItem>)
    ensures ToOrderItemsResponseList(a + b) == ToOrderItemsResponseList(a) + ToOrderItemsResponseList(b)
  {
    if a == [] {
      assert a + b == b;
    } else {
      assert (a + b)[1..] == a[1..] + b;
      ItemsResponseConcat(a[1..], b);
    }
  }
}
