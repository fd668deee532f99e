/** Conversions between product-category links and their response records. */
module ProductCategoryMapper {
  import opened Entities
  import opened Dtos

  /** `toResponseDto`: the linked product's and category's fields, read through the link. */
  function ToResponseDto(productId: nat, product: Product, categoryId: nat, category: Category): ProductCategoryResponse
  {
    ProductCategoryResponse(
      productId, product.name, product.description, product.price, product.stockQuantity,
      categoryId, category.name, category.description)
  }

  function ToEntity(productId: nat, categoryId: nat): ProductCategory
  {
    ProductCategory(productId, categoryId)
  }

  /** `updateEntity` sets both references of the managed link. */
  function UpdateEntity(existing: ProductCategory, productId: nat, categoryId: nat): ProductCategory
  {
    existing.(productId := productId, categoryId := categoryId)
  }

  /** The record copies the product's id, name, description, price and stock and the
      category's id, name and description. */
  lemma ResponseCopiesBoth(productId: nat, product: Product, categoryId: nat, category: Category)
    ensures var r := ToResponseDto(productId, product, categoryId, category);
      r.productId == productId && r.productName == product.name && r.productDescription == product.description &&
      r.productPrice == product.price && r.productStockQuantity == product.stockQuantity &&
      r.categoryId == categoryId && r.categoryName == category.name && r.categoryDescription == category.description
  {
  }

  /** `updateEntity` overwrites both references: the result is the link `toEntity` would build. */
  lemma UpdateEntityOverwritesAll(existing: ProductCategory, productId: nat, categoryId: nat)
    ensures UpdateEntity(existing, productId, categoryId) == ToEntity(productId, categoryId)
  {
  }
}
