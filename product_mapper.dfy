/** Conversions between products and their request/response records. */
module ProductMapper {
  import opened Entities
  import opened Dtos

  function ToEntity(dto: ProductRequest): Product
  {
    Product(dto.name, dto.description, dto.price, dto.stockQuantity)
  }

  function ToResponseDto(id: nat, product: Product): ProductResponse
  {
    ProductResponse(id, product.name, product.description, product.price, product.stockQuantity)
  }

  /** `updateEntity` sets the four fields of the managed product from the request. */
  function UpdateEntity(product: Product, dto: ProductRequest): Product
  {
    product.(name := dto.name, description := dto.description, price := dto.price, stockQuantity := dto.stockQuantity)
  }

  /** The stream map over a page's content. */
  function ToResponseDtos(rows: seq<Row<Product>>): (r: seq<ProductResponse>)
    ensures |r| == |rows|
    ensures forall i :: 0 <= i < |rows| ==> r[i] == ToResponseDto(rows[i].id, rows[i].entity)
  {
    if rows == [] then [] else [ToResponseDto(rows[0].id, rows[0].entity)] + ToResponseDtos(rows[1..])
  }

  /** `toResponseListDto`: one record per product of the page, in page order,
      with the page's size, element count, page count and page number. */
  function ToResponseListDto(page: ProductPage): (r: ProductResponseList)
    ensures |r.productResponseDto| == |page.content|
    ensures forall i :: 0 <= i < |page.content| ==>
      r.productResponseDto[i].id == page.content[i].id &&
      r.productResponseDto[i].name == page.content[i].entity.name &&
      r.productResponseDto[i].description == page.content[i].entity.description &&
      r.productResponseDto[i].price == page.content[i].entity.price &&
      r.productResponseDto[i].stockQuantity == page.content[i].entity.stockQuantity
    ensures r.totalItemsPerPage == page.size && r.totalItems == page.totalElements
    ensures r.totalPages == page.totalPages && r.currentPage == page.number
  {
    ProductResponseList(ToResponseDtos(page.content), page.size, page.totalElements, page.totalPages, page.number)
  }

  /** A product built from a request reports back the request's four fields. */
  lemma NewEntityResponse(id: nat, dto: ProductRequest)
    ensures ToResponseDto(id, ToEntity(dto)) == ProductResponse(id, dto.name, dto.description, dto.price, dto.stockQuantity)
  {
  }

  /** `updateEntity` overwrites every field: nothing of the previous product survives. */
  lemma UpdateEntityOverwritesAll(product: Product, dto: ProductRequest)
    ensures UpdateEntity(product, dto) == ToEntity(dto)
  {
  }
}
