/** Conversions between cart lines and their response records. */
module CartItemMapper {
  import opened Entities
  import opened Dtos

  function ToEntity(quantity: int, cartId: nat, productId: nat): CartItem
  {
    CartItem(quantity, cartId, productId)
  }

  /** `toResponseDto(item, quantity)`: name and price come from the line's product,
      and the quantity reported is the argument, not the line's stored quantity. */
  function ToResponseDto(id: nat, item: CartItem, product: Product, quantity: int): CartItemResponse
  {
    CartItemResponse(id, product.name, product.price, quantity)
  }

  /** `toUpdate` sets quantity, cart and product of the managed line. */
  function ToUpdate(existing: CartItem, cartId: nat, productId: nat, quantity: int): CartItem
  {
    existing.(quantity := quantity, cartId := cartId, productId := productId)
  }

  /** The reported quantity is the argument whatever the line holds, and the
      product's name and price are reported. */
  lemma ResponseQuantityIsArgument(id: nat, item: CartItem, product: Product, quantity: int)
    ensures ToResponseDto(id, item, product, quantity).quantity == quantity
    ensures ToResponseDto(id, item, product, quantity) == ToResponseDto(id, item.(quantity := quantity + 1), product, quantity)
    ensures ToResponseDto(id, item, product, quantity).productName == product.name
    ensures ToResponseDto(id, item, product, quantity).productPrice == product.price
  {
  }

  /** `toUpdate` overwrites all three fields: the result is the line `toEntity` would build. */
  lemma ToUpdateOverwritesAll(existing: CartItem, cartId: nat, productId: nat, quantity: int)
    ensures ToUpdate(existing, cartId, productId, quantity) == ToEntity(quantity, cartId, productId)
  {
  }
}
